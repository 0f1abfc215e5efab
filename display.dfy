/** The text shown on the focus cards: the ticker mask, the desktop card
    label, the cut-down setup details and action plan, and the cleaned text
    of the logic-pillar tabs. */
module Display {
  import opened Basics
  import opened EvidenceRefs
  import opened EvidenceRefsExamples

  function Max(a: int, b: int): int {
    if a < b then b else a
  }

  function Stars(n: nat): (r: string)
    ensures |r| == n && forall i :: 0 <= i < n ==> r[i] == '*'
  {
    seq(n, i => '*')
  }

  // ---------------------------------------------------------------------
  // mask_ticker

  /** `mask_ticker(ticker)`, with None for Python's `None`: the stripped
      ticker's first character followed by one star per further character,
      and at least one star. */
  function MaskTicker(ticker: Option<string>): (r: string)
    ensures ticker.None? || Strip(ticker.value) == [] ==> r == ""
    ensures ticker.Some? && Strip(ticker.value) != [] ==>
              |r| == Max(2, |Strip(ticker.value)|)
              && r[0] == Strip(ticker.value)[0]
              && forall i :: 1 <= i < |r| ==> r[i] == '*'
  {
    match ticker
    case None => ""
    case Some(t) =>
      var v := Strip(t);
      if v == [] then "" else [v[0]] + Stars(Max(1, |v| - 1))
  }

  /** Masking a mask gives the same mask. */
  lemma MaskIdempotent(ticker: Option<string>)
    ensures MaskTicker(Some(MaskTicker(ticker))) == MaskTicker(ticker)
  {
    var r := MaskTicker(ticker);
    if r != [] {
      assert !IsSpace(r[0]) && !IsSpace(r[|r| - 1]);
      StripIdentity(r);
      var m := MaskTicker(Some(r));
      assert |m| == |r|;
      assert forall i :: 0 <= i < |m| ==> m[i] == r[i];
    }
  }

  /** The mask depends on the first character and the length of the
      stripped ticker and on nothing else. */
  lemma MaskRevealsOnlyFirst(a: string, b: string)
    requires Strip(a) != [] && Strip(b) != []
    requires Strip(a)[0] == Strip(b)[0] && |Strip(a)| == |Strip(b)|
    ensures MaskTicker(Some(a)) == MaskTicker(Some(b))
  {
    var ma, mb := MaskTicker(Some(a)), MaskTicker(Some(b));
    assert |ma| == |mb|;
    assert forall i :: 0 <= i < |ma| ==> ma[i] == mb[i];
  }

  /** Whitespace around a ticker does not change its mask. */
  lemma MaskIgnoresPadding(t: string)
    ensures MaskTicker(Some(t)) == MaskTicker(Some(Strip(t)))
  {
    var v := Strip(t);
    StripIdentity(v);
  }

  // ---------------------------------------------------------------------
  // The desktop card label

  /** The desktop card's `display_core`: the masking rule written out once
      more, then `(Picked: date)`, where a falsy date shows as "N/A". */
  function CardLabel(ticker: Field, picked: Field): (r: string)
    ensures r == MaskTicker(ticker.Value()) + "(Picked: " + (if picked.Truthy() then Strip(picked.s) else "N/A") + ")"
    ensures !ticker.Truthy() ==> r == "(Picked: " + (if picked.Truthy() then Strip(picked.s) else "N/A") + ")"
  {
    var pickedDisplay := if picked.Truthy() then Strip(picked.s) else "N/A";
    var tickerValue := if ticker.Truthy() then Strip(ticker.s) else "";
    var core := if tickerValue != [] then [tickerValue[0]] + Stars(Max(1, |tickerValue| - 1)) else "";
    InlineMask(ticker);
    core + "(Picked: " + pickedDisplay + ")"
  }

  /** The card's inline masking agrees with `mask_ticker`. */
  lemma InlineMask(ticker: Field)
    ensures var v := if ticker.Truthy() then Strip(ticker.s) else "";
            MaskTicker(ticker.Value()) == if v != [] then [v[0]] + Stars(Max(1, |v| - 1)) else ""
  {
    if ticker.Text? && ticker.s == "" {
      assert Strip(ticker.s) == "";
    }
  }

  // ---------------------------------------------------------------------
  // Truncated text with a "show full" expander

  const SetupDetailsLimit := 200
  const ActionPlanLimit := 250

  /** `(text[:limit] + '...') if len(text) > limit else text`. */
  function Truncate(text: string, limit: nat): (r: string)
    ensures Min(|text|, limit) <= |r| <= limit + 3
    ensures |r| <= |text| || |text| > limit
    ensures r[..Min(|text|, limit)] == text[..Min(|text|, limit)]
    ensures |text| > limit ==> r[limit..] == "..."
  {
    if |text| > limit then text[..limit] + "..." else text
  }

  function Min(a: int, b: int): int {
    if a < b then a else b
  }

  /** The summary is the text itself exactly when the text fits, or when it
      is `limit` characters followed by a literal "...". */
  lemma TruncateUnchanged(text: string, limit: nat)
    ensures Truncate(text, limit) == text <==> |text| <= limit || (|text| == limit + 3 && text[limit..] == "...")
  {
    if |text| > limit && Truncate(text, limit) == text {
      assert |text| == limit + 3;
      assert text[limit..] == Truncate(text, limit)[limit..];
    }
    if |text| == limit + 3 && text[limit..] == "..." {
      assert text == text[..limit] + text[limit..];
    }
  }

  /** The expander is shown exactly when the text is longer than the limit. */
  predicate ShowFull(text: string, limit: nat) {
    |text| > limit
  }

  /** A summary together with the full text behind the expander, when there
      is one. */
  datatype Card = Card(summary: string, full: Option<string>)

  function TruncatedCard(text: string, limit: nat): (c: Card)
    ensures c.summary == Truncate(text, limit)
    ensures c.full.Some? <==> ShowFull(text, limit)
    ensures c.full.Some? ==> c.full.value == text
  {
    Card(Truncate(text, limit), if ShowFull(text, limit) then Some(text) else None)
  }

  /** Whenever the summary differs from the text the expander is there, but
      a text of `limit` characters followed by "..." gets an expander that
      repeats the summary. */
  lemma ExpanderCoversCut(text: string, limit: nat)
    ensures Truncate(text, limit) != text ==> TruncatedCard(text, limit).full == Some(text)
    ensures ShowFull(seq(limit, i => 'a') + "...", limit)
    ensures Truncate(seq(limit, i => 'a') + "...", limit) == seq(limit, i => 'a') + "..."
  {
    TruncateUnchanged(text, limit);
    var t := seq(limit, i => 'a') + "...";
    TruncateUnchanged(t, limit);
    assert t[limit..] == "...";
  }

  /** The setup card: `str(details)`, with "No details available." for a
      missing key and "None" for a JSON null, cut at 200 characters. */
  function SetupCard(details: Field): (c: Card)
    ensures |c.summary| <= SetupDetailsLimit + 3
    ensures details.Missing? ==> c == Card("No details available.", None)
    ensures details.Null? ==> c == Card("None", None)
    ensures details.Text? ==> c.summary == Truncate(details.s, SetupDetailsLimit)
    ensures details.Text? ==> (c.full.Some? <==> |details.s| > SetupDetailsLimit)
    ensures details.Text? && c.full.Some? ==> c.full.value == details.s
  {
    TruncatedCard(details.StrOr("No details available."), SetupDetailsLimit)
  }

  /** The action-plan card: the item's own plan when it is truthy,
      otherwise the plan in its logic pillars; no card when neither is
      truthy. The plan is cleaned of evidence references, then cut at 250
      characters. */
  function ActionCard(itemPlan: Field, pillarPlan: Field): (c: Option<Card>)
    ensures c.None? <==> !itemPlan.Truthy() && !pillarPlan.Truthy()
    ensures itemPlan.Truthy() ==> c == Some(TruncatedCard(StripEvidenceRefs(Some(itemPlan.s)), ActionPlanLimit))
    ensures !itemPlan.Truthy() && pillarPlan.Truthy() ==>
              c == Some(TruncatedCard(StripEvidenceRefs(Some(pillarPlan.s)), ActionPlanLimit))
    ensures c.Some? ==> |c.value.summary| <= ActionPlanLimit + 3
  {
    var raw := if itemPlan.Truthy() then itemPlan else pillarPlan;
    if raw.Truthy() then
      Some(TruncatedCard(StripEvidenceRefs(Some(raw.s)), ActionPlanLimit))
    else
      None
  }

  // ---------------------------------------------------------------------
  // clean_text_safe

  /** `clean_text_safe(val)`: "N/A" for a falsy value, otherwise the text
      cleaned of evidence references. */
  function CleanTextSafe(val: Field): (r: string)
    ensures !val.Truthy() ==> r == "N/A"
    ensures val.Truthy() ==> r == StripEvidenceRefs(Some(val.s))
    ensures NoAdjacentSpaces(r) && Trimmed(r)
    ensures NoSpaceBefore(r, ',') && NoSpaceBefore(r, '.')
  {
    if !val.Truthy() then "N/A" else StripEvidenceRefs(Some(val.s))
  }

  /** A truthy value made only of references is shown as "", not "N/A". */
  lemma CleanTextSafeCanBeEmpty()
    ensures CleanTextSafe(Text("(A1,C2)")) == ""
  {
    NotIdempotentExample();
  }

  /** Clean text of a pillar is shown as it is. */
  lemma CleanTextSafeKeepsCleanText(s: string)
    requires s != [] && AlreadyClean(s)
    ensures CleanTextSafe(Text(s)) == s
  {
    CleanTextUnchanged(s);
  }
}
