/** Worked inputs for `strip_evidence_refs`: a citation and a tag inside
    prose, and an input on which a second application changes the result
    again. Each
    step is one pass on one stretch of text, joined by the prefix lemmas of
    EvidenceRefs. */
module EvidenceRefsExamples {
  import opened Basics
  import opened EvidenceRefs

  /** A stretch with no `(` and no whitespace at its end starts no citation. */
  lemma NoCitationIn(a: string, b: string)
    requires '(' !in a
    requires a == [] || !IsSpace(a[|a| - 1])
    ensures forall i :: 0 <= i < |a| ==> !CitationAt(a + b, i)
  {
    forall i | 0 <= i < |a| ensures !CitationAt(a + b, i) {
      var x := (a + b)[i..];
      assert x[|a| - 1 - i] == a[|a| - 1];
      var w := SpaceRun(x);
      assert w <= |a| - 1 - i;
      assert x[w] == a[i + w];
    }
  }

  /** A stretch in which no tag letter is followed by a digit starts no tag. */
  lemma NoTagIn(a: string, b: string, afterWord: bool)
    requires forall i :: 0 <= i < |a| ==> IsTagLetter(a[i]) ==> i + 1 == |a + b| || !IsDigit((a + b)[i + 1])
    ensures forall i :: 0 <= i < |a| ==> !TagAt(a + b, i, afterWord)
  {
    forall i | 0 <= i < |a| ensures !TagAt(a + b, i, afterWord) {
      var x := (a + b)[i..];
      assert x[0] == a[i];
      if IsTagLetter(a[i]) {
        if i + 1 < |a + b| {
          assert x[1..][0] == (a + b)[i + 1];
        }
        assert DigitRun(x[1..]) == 0;
      }
      assert TagLen(x).None?;
    }
  }

  /** Text made of ASCII letters and single inner spaces: it holds neither a
      citation nor a tag, and the three passes leave it as it is. */
  predicate Prose(s: string) {
    s != [] && Trimmed(s) && NoAdjacentSpaces(s) && Letters(s)
  }

  predicate Letters(s: string) {
    forall i :: 0 <= i < |s| ==> IsUpper(s[i]) || IsLower(s[i]) || s[i] == ' '
  }

  lemma LettersJoin(a: string, b: string)
    requires Letters(a) && Letters(b)
    ensures Letters(a + b)
  {
    forall i | 0 <= i < |a + b| ensures IsUpper((a + b)[i]) || IsLower((a + b)[i]) || (a + b)[i] == ' ' {
      if i < |a| {
        assert (a + b)[i] == a[i];
      } else {
        assert (a + b)[i] == b[i - |a|];
      }
    }
  }

  /** Two stretches of prose joined by one space are prose. */
  lemma ProseJoin(a: string, b: string)
    requires Prose(a) && Prose(b)
    ensures Prose(a + " " + b)
  {
    var s := a + " " + b;
    LettersJoin(a, " ");
    LettersJoin(a + " ", b);
    forall i | 0 <= i < |s| - 1 ensures !(IsSpace(s[i]) && IsSpace(s[i + 1])) {
      if i + 1 < |a| {
        assert s[i] == a[i] && s[i + 1] == a[i + 1];
      } else if i + 1 == |a| {
        assert s[i] == a[|a| - 1];
      } else if i == |a| {
        assert s[i + 1] == b[0];
      } else {
        assert s[i] == b[i - |a| - 1] && s[i + 1] == b[i - |a|];
      }
    }
    assert s[0] == a[0] && s[|s| - 1] == b[|b| - 1];
  }

  lemma ProseHasNoParen(s: string)
    requires Letters(s)
    ensures '(' !in s
  {
    assert forall i :: 0 <= i < |s| ==> s[i] != '(';
  }

  /** Letters followed by a space: every tag letter is followed by a non-digit. */
  lemma LettersHaveNoTag(a: string, b: string)
    requires Letters(a)
    requires a != [] && a[|a| - 1] == ' '
    ensures forall i :: 0 <= i < |a| ==> IsTagLetter(a[i]) ==> i + 1 == |a + b| || !IsDigit((a + b)[i + 1])
  {
    forall i | 0 <= i < |a| && IsTagLetter(a[i])
      ensures i + 1 == |a + b| || !IsDigit((a + b)[i + 1])
    {
      assert i + 1 < |a|;
      assert (a + b)[i + 1] == a[i + 1];
    }
  }

  /** Prose ends in a letter, so nothing after it can make a tag of its end. */
  lemma ProseHasNoTag(a: string)
    requires Letters(a) && (a == [] || a[|a| - 1] != ' ')
    ensures forall i :: 0 <= i < |a| ==> IsTagLetter(a[i]) ==> i + 1 == |a + []| || !IsDigit((a + [])[i + 1])
  {
    assert a + [] == a;
    forall i | 0 <= i < |a| && IsTagLetter(a[i]) && i + 1 < |a|
      ensures !IsDigit((a + [])[i + 1])
    {
      assert (a + [])[i + 1] == a[i + 1];
    }
  }

  /** Prose has no space in front of any character that is not a letter. */
  lemma ProseNoSpaceBefore(s: string, c: char)
    requires Letters(s) && !IsUpper(c) && !IsLower(c) && c != ' '
    ensures NoSpaceBefore(s, c)
  {
  }

  // ---------------------------------------------------------------------
  // A citation and a tag inside prose, as in "Breakout confirmed (A1, B2)
  // with F3 support": pass 1 removes the citation with the space before it,
  // pass 2 removes F3, pass 3 joins the two spaces that F3 leaves behind.

  lemma LastCode(r: string)
    ensures CodesLen("B2)" + r) == Some(3)
  {
    var s := "B2)" + r;
    assert s[1..] == "2)" + r;
    assert DigitRun(s[1..]) == 1 by {
      assert s[1..][1..] == ")" + r;
    }
    assert s[2] == ')';
  }

  lemma TwoCodes(r: string)
    ensures CodesLen("A1, B2)" + r) == Some(7)
  {
    var s := "A1, B2)" + r;
    assert s[1..] == "1, B2)" + r;
    assert DigitRun(s[1..]) == 1 by {
      assert s[1..][1..] == ", B2)" + r;
    }
    assert s[2] == ',';
    assert s[3..] == " B2)" + r;
    assert SpaceRun(s[3..]) == 1 by {
      assert s[3..][1..] == "B2)" + r;
    }
    assert s[4] == 'B';
    assert s[4..] == "B2)" + r;
    LastCode(r);
  }

  lemma TwoCodeCitation(r: string)
    ensures DropCitations(" (A1, B2)" + r) == DropCitations(r)
  {
    var s := " (A1, B2)" + r;
    assert s[0] == ' ' && s[1] == '(';
    assert s[2..] == "A1, B2)" + r;
    TwoCodes(r);
    SpacedCitation(s, 7);
    DropCitationAt(s, 9);
    assert s[9..] == r;
  }

  /** One space, `(` and a code list of length `m` form a citation. */
  lemma SpacedCitation(s: string, m: nat)
    requires |s| >= 2 && s[0] == ' ' && s[1] == '(' && CodesLen(s[2..]) == Some(m)
    ensures CitationLen(s) == Some(m + 2)
  {
    assert SpaceRun(s[1..]) == 0 by {
      assert s[1..][0] == '(';
    }
    assert SpaceRun(s) == 1;
  }

  /** A citation at the front is dropped whole. */
  lemma DropCitationAt(s: string, n: nat)
    requires s != [] && CitationLen(s) == Some(n)
    ensures DropCitations(s) == DropCitations(s[n..])
  {
  }

  lemma OneTag(r: string)
    requires r != [] && !IsWordChar(r[0])
    ensures DropTags("F3" + r, false) == DropTags(r, true)
  {
    var s := "F3" + r;
    assert s[1..] == "3" + r;
    assert DigitRun(s[1..]) == 1 by {
      assert s[1..][1..] == r;
    }
    assert s[2] == r[0];
    assert TagLen(s) == Some(2);
    assert s[2..] == r;
  }

  lemma DoubleSpace(r: string)
    requires r != [] && !IsSpace(r[0])
    ensures CollapseSpaces("  " + r) == " " + CollapseSpaces(r)
  {
    var s := "  " + r;
    assert SpaceRun(s) == 2 by {
      assert s[1..] == " " + r;
      assert s[1..][1..] == r;
    }
    assert s[2..] == r;
  }

  /** Pass 1 copies text with no `(` that does not end in whitespace. */
  lemma NoParenPassCitations(a: string, b: string)
    requires '(' !in a && (a == [] || !IsSpace(a[|a| - 1]))
    ensures DropCitations(a + b) == a + DropCitations(b)
  {
    NoCitationIn(a, b);
    DropCitationsPrefix(a, b);
  }

  // Each `...Shape` lemma below only regroups a concatenation, and each of
  // the others applies one pass; keeping the two apart keeps the proofs small.

  lemma CitationShape(head: string, mid: string, tail: string)
    ensures head + " (A1, B2) " + mid + " F3 " + tail
         == head + (" (A1, B2)" + (" " + mid + " F3 " + tail))
  {
  }

  lemma CitedShape(head: string, mid: string, tail: string)
    ensures head + (" " + mid + " F3 " + tail) == head + " " + mid + " F3 " + tail
  {
  }

  lemma CitationAfterProse(head: string, rest: string)
    requires Prose(head)
    ensures DropCitations(head + (" (A1, B2)" + rest)) == head + DropCitations(rest)
  {
    ProseHasNoParen(head);
    NoParenPassCitations(head, " (A1, B2)" + rest);
    TwoCodeCitation(rest);
  }

  lemma TaggedProseHasNoCitation(mid: string, tail: string)
    requires Prose(mid) && Prose(tail)
    ensures DropCitations(" " + mid + " F3 " + tail) == " " + mid + " F3 " + tail
  {
    var rest := " " + mid + " F3 " + tail;
    ProseHasNoParen(mid);
    ProseHasNoParen(tail);
    assert rest[|rest| - 1] == tail[|tail| - 1];
    assert rest + [] == rest;
    NoParenPassCitations(rest, []);
  }

  /** Pass 1 drops the citation and the space in front of it. */
  lemma ProseCitationPass(head: string, mid: string, tail: string)
    requires Prose(head) && Prose(mid) && Prose(tail)
    ensures DropCitations(head + " (A1, B2) " + mid + " F3 " + tail)
         == head + " " + mid + " F3 " + tail
  {
    CitationShape(head, mid, tail);
    CitationAfterProse(head, " " + mid + " F3 " + tail);
    TaggedProseHasNoCitation(mid, tail);
    CitedShape(head, mid, tail);
  }

  lemma TagShape(head: string, mid: string, tail: string)
    ensures head + " " + mid + " F3 " + tail == (head + " " + mid + " ") + ("F3" + (" " + tail))
  {
  }

  lemma UntaggedShape(head: string, mid: string, tail: string)
    ensures (head + " " + mid + " ") + (" " + tail) == head + " " + mid + "  " + tail
  {
  }

  lemma ProseBeforeTag(head: string, mid: string, b: string)
    requires Prose(head) && Prose(mid)
    ensures DropTags((head + " " + mid + " ") + b, false) == (head + " " + mid + " ") + DropTags(b, false)
  {
    var before := head + " " + mid + " ";
    LettersJoin(head, " ");
    LettersJoin(head + " ", mid);
    LettersJoin(head + " " + mid, " ");
    LettersHaveNoTag(before, b);
    NoTagIn(before, b, false);
    DropTagsPrefix(before, b, false);
    assert !AfterWord(before, false);
  }

  lemma TagBeforeProse(tail: string)
    requires Prose(tail)
    ensures DropTags("F3" + (" " + tail), false) == " " + tail
  {
    var after := " " + tail;
    OneTag(after);
    LettersJoin(" ", tail);
    assert after[|after| - 1] == tail[|tail| - 1];
    ProseHasNoTag(after);
    NoTagIn(after, [], true);
    assert after + [] == after;
    DropTagsPrefix(after, [], true);
  }

  /** Pass 2 drops the tag and leaves both spaces around it. */
  lemma ProseTagPass(head: string, mid: string, tail: string)
    requires Prose(head) && Prose(mid) && Prose(tail)
    ensures DropTags(head + " " + mid + " F3 " + tail, false)
         == head + " " + mid + "  " + tail
  {
    TagShape(head, mid, tail);
    ProseBeforeTag(head, mid, "F3" + (" " + tail));
    TagBeforeProse(tail);
    UntaggedShape(head, mid, tail);
  }

  lemma DoubleSpaceShape(head: string, mid: string, tail: string)
    ensures head + " " + mid + "  " + tail == (head + " " + mid) + ("  " + tail)
  {
  }

  lemma SingleSpaceShape(head: string, mid: string, tail: string)
    ensures (head + " " + mid) + (" " + tail) == head + " " + mid + " " + tail
  {
  }

  lemma DoubleSpaceBeforeProse(tail: string)
    requires Prose(tail)
    ensures CollapseSpaces("  " + tail) == " " + tail
  {
    DoubleSpace(tail);
    assert tail + [] == tail;
    CollapsePrefix(tail, []);
  }

  lemma ProseCollapse(head: string, mid: string, tail: string)
    requires Prose(head) && Prose(mid) && Prose(tail)
    ensures CollapseSpaces(head + " " + mid + "  " + tail) == head + " " + mid + " " + tail
  {
    DoubleSpaceShape(head, mid, tail);
    ProseJoin(head, mid);
    CollapsePrefix(head + " " + mid, "  " + tail);
    DoubleSpaceBeforeProse(tail);
    SingleSpaceShape(head, mid, tail);
  }

  /** Stripping and the two replacements leave prose alone. */
  lemma ProseFinish(r: string)
    requires Prose(r)
    ensures DropSpaceBefore(DropSpaceBefore(Strip(r), ','), '.') == r
  {
    StripIdentity(r);
    ProseNoSpaceBefore(r, ',');
    ProseNoSpaceBefore(r, '.');
    assert r + [] == r;
    DropSpaceBeforePrefix(r, [], ',');
    DropSpaceBeforePrefix(r, [], '.');
  }

  lemma ProseSpacePass(head: string, mid: string, tail: string)
    requires Prose(head) && Prose(mid) && Prose(tail)
    ensures Clean(head + " (A1, B2) " + mid + " F3 " + tail) == head + " " + mid + " " + tail
  {
    ProseCitationPass(head, mid, tail);
    ProseTagPass(head, mid, tail);
    ProseCollapse(head, mid, tail);
    ProseJoin(head, mid);
    ProseJoin(head + " " + mid, tail);
    ProseFinish(head + " " + mid + " " + tail);
  }

  /** A two-code citation and a tag inside prose both go, and so do the
      spaces they leave: "Breakout confirmed (A1, B2) with F3 support"
      becomes "Breakout confirmed with support". */
  lemma CitationAndTagRemoved(head: string, mid: string, tail: string)
    requires Prose(head) && Prose(mid) && Prose(tail)
    ensures StripEvidenceRefs(Some(head + " (A1, B2) " + mid + " F3 " + tail))
         == head + " " + mid + " " + tail
  {
    ProseSpacePass(head, mid, tail);
  }

  lemma BreakoutPieces()
    ensures "Breakout confirmed (A1, B2) with F3 support"
         == "Breakout confirmed" + " (A1, B2) " + "with" + " F3 " + "support"
    ensures "Breakout confirmed with support" == "Breakout confirmed" + " " + "with" + " " + "support"
  {
  }

  /** A non-empty run of letters is prose. */
  lemma WordIsProse(w: string)
    requires w != [] && forall i :: 0 <= i < |w| ==> IsUpper(w[i]) || IsLower(w[i])
    ensures Prose(w)
  {
  }

  lemma BreakoutIsProse()
    ensures Prose("Breakout confirmed") && Prose("with") && Prose("support")
  {
    WordIsProse("Breakout");
    WordIsProse("confirmed");
    WordIsProse("with");
    WordIsProse("support");
    ProseJoin("Breakout", "confirmed");
    assert "Breakout" + " " + "confirmed" == "Breakout confirmed";
  }

  lemma BreakoutExample()
    ensures StripEvidenceRefs(Some("Breakout confirmed (A1, B2) with F3 support"))
         == "Breakout confirmed with support"
  {
    BreakoutPieces();
    BreakoutIsProse();
    CitationAndTagRemoved("Breakout confirmed", "with", "support");
  }

  // ---------------------------------------------------------------------
  // "(A1 ,C2)": the space before the comma stops pass 1, pass 3 then takes
  // the space out, and what is left is a citation. Stated for any two codes
  // whose letters are not tag letters.

  /** An upper-case letter followed by one digit. */
  predicate Code(c: string) {
    |c| == 2 && IsUpper(c[0]) && IsDigit(c[1]) && !IsTagLetter(c[0])
  }

  /** A code list with a space before its comma. */
  function Spaced(c1: string, c2: string): string {
    "(" + c1 + " ," + c2 + ")"
  }

  /** The same list with the space taken out. */
  function Joined(c1: string, c2: string): string {
    "(" + c1 + "," + c2 + ")"
  }

  lemma SpacedChars(c1: string, c2: string)
    requires Code(c1) && Code(c2)
    ensures var s := Spaced(c1, c2);
            |s| == 8 && s[0] == '(' && s[1] == c1[0] && s[2] == c1[1] && s[3] == ' '
            && s[4] == ',' && s[5] == c2[0] && s[6] == c2[1] && s[7] == ')'
  {
  }

  lemma JoinedChars(c1: string, c2: string)
    requires Code(c1) && Code(c2)
    ensures var s := Joined(c1, c2);
            |s| == 7 && s[0] == '(' && s[1] == c1[0] && s[2] == c1[1]
            && s[3] == ',' && s[4] == c2[0] && s[5] == c2[1] && s[6] == ')'
  {
  }

  lemma LastCodeOf(s: string)
    requires |s| == 3 && IsUpper(s[0]) && IsDigit(s[1]) && s[2] == ')'
    ensures CodesLen(s) == Some(3)
  {
    assert DigitRun(s[1..]) == 1;
  }

  /** After `(`, the code list stops at the space: no citation. */
  lemma SpacedCodes(c1: string, c2: string)
    requires Code(c1) && Code(c2)
    ensures CodesLen(Spaced(c1, c2)[1..]) == None
  {
    SpacedChars(c1, c2);
    var t := Spaced(c1, c2)[1..];
    assert DigitRun(t[1..]) == 1;
    assert !IsUpper(t[2..][0]);
  }

  lemma SpacedIsNoCitation(c1: string, c2: string)
    requires Code(c1) && Code(c2)
    ensures DropCitations(Spaced(c1, c2)) == Spaced(c1, c2)
  {
    var s := Spaced(c1, c2);
    var t := s[1..];
    SpacedStartsNoCitation(c1, c2);
    CitationsFront(s, []);
    SpacedTailIsNoCitation(c1, c2);
    ConsAppend(s, DropCitations(t + []), []);
    assert s + [] == s;
  }

  lemma SpacedStartsNoCitation(c1: string, c2: string)
    requires Code(c1) && Code(c2)
    ensures Spaced(c1, c2) != [] && !CitationAt(Spaced(c1, c2) + [], 0)
  {
    var s := Spaced(c1, c2);
    SpacedChars(c1, c2);
    SpacedCodes(c1, c2);
    assert s + [] == s;
    assert SpaceRun(s) == 0 && s[0..] == s;
  }

  lemma SpacedTailIsNoCitation(c1: string, c2: string)
    requires Code(c1) && Code(c2)
    ensures DropCitations(Spaced(c1, c2)[1..] + []) == Spaced(c1, c2)[1..] + []
  {
    var s := Spaced(c1, c2);
    var t := s[1..];
    SpacedChars(c1, c2);
    assert '(' !in t by {
      assert forall i :: 0 <= i < |t| ==> t[i] == s[i + 1];
    }
    NoCitationIn(t, []);
    DropCitationsPrefix(t, []);
    assert t + [] == t;
  }

  lemma SpacedHasNoTag(c1: string, c2: string)
    requires Code(c1) && Code(c2)
    ensures DropTags(Spaced(c1, c2), false) == Spaced(c1, c2)
  {
    var s := Spaced(c1, c2);
    SpacedChars(c1, c2);
    assert s + [] == s;
    NoTagIn(s, [], false);
    DropTagsPrefix(s, [], false);
  }

  lemma SpacedKeepsSpaces(c1: string, c2: string)
    requires Code(c1) && Code(c2)
    ensures CollapseSpaces(Spaced(c1, c2)) == Spaced(c1, c2)
    ensures Strip(Spaced(c1, c2)) == Spaced(c1, c2)
  {
    var s := Spaced(c1, c2);
    SpacedChars(c1, c2);
    assert s + [] == s;
    CollapsePrefix(s, []);
    StripIdentity(s);
  }

  lemma SpacedLosesSpace(c1: string, c2: string)
    requires Code(c1) && Code(c2)
    ensures DropSpaceBefore(Spaced(c1, c2), ',') == Joined(c1, c2)
  {
    var head, tail := "(" + c1, c2 + ")";
    SpacedSplit(c1, c2);
    CodeHasNoSpace(head);
    CodeHasNoSpace(tail);
    CommaTail(tail);
    DropSpaceBeforePrefix(head, " ," + tail, ',');
  }

  lemma SpacedSplit(c1: string, c2: string)
    ensures Spaced(c1, c2) == ("(" + c1) + (" ," + (c2 + ")"))
    ensures Joined(c1, c2) == ("(" + c1) + ("," + (c2 + ")"))
  {
  }

  /** A piece of a code list without spaces. */
  lemma CodeHasNoSpace(x: string)
    requires |x| == 3 && !IsSpace(x[0]) && !IsSpace(x[1]) && !IsSpace(x[2])
    ensures NoSpaceBefore(x, ',') && x[2] != ' '
  {
  }

  lemma CommaTail(tail: string)
    requires NoSpaceBefore(tail, ',')
    ensures DropSpaceBefore(" ," + tail, ',') == "," + tail
  {
    assert (" ," + tail)[2..] == tail;
    assert tail + [] == tail;
    DropSpaceBeforePrefix(tail, [], ',');
  }

  lemma JoinedHasNoFullStop(c1: string, c2: string)
    requires Code(c1) && Code(c2)
    ensures DropSpaceBefore(Joined(c1, c2), '.') == Joined(c1, c2)
  {
    var s := Joined(c1, c2);
    JoinedChars(c1, c2);
    assert s + [] == s;
    DropSpaceBeforePrefix(s, [], '.');
  }

  lemma JoinedIsCitation(c1: string, c2: string)
    requires Code(c1) && Code(c2)
    ensures DropCitations(Joined(c1, c2)) == ""
  {
    var s := Joined(c1, c2);
    JoinedChars(c1, c2);
    CodeThenLast(s[1..]);
    assert SpaceRun(s) == 0;
    assert CitationLen(s) == Some(7);
    assert s[7..] == [];
  }

  /** A code, a comma and a last code closed by `)` form a code list. */
  lemma CodeThenLast(t: string)
    requires |t| == 6 && IsUpper(t[0]) && IsDigit(t[1]) && t[2] == ','
    requires IsUpper(t[3]) && IsDigit(t[4]) && t[5] == ')'
    ensures CodesLen(t) == Some(6)
  {
    assert DigitRun(t[1..]) == 1;
    assert SpaceRun(t[3..]) == 0;
    assert CodeEnd(t) == 3;
    LastCodeOf(t[3..]);
  }

  /** Clean is the composition of its passes. */
  lemma CleanSteps(t: string, cited: string, tagged: string, collapsed: string, stripped: string, commas: string)
    requires DropCitations(t) == cited && DropTags(cited, false) == tagged
    requires CollapseSpaces(tagged) == collapsed && Strip(collapsed) == stripped
    requires DropSpaceBefore(stripped, ',') == commas
    ensures Clean(t) == DropSpaceBefore(commas, '.')
  {
  }

  /** The first application only joins the comma. */
  lemma FirstApplication(c1: string, c2: string)
    requires Code(c1) && Code(c2)
    ensures StripEvidenceRefs(Some(Spaced(c1, c2))) == Joined(c1, c2)
  {
    var s := Spaced(c1, c2);
    SpacedIsNoCitation(c1, c2);
    SpacedHasNoTag(c1, c2);
    SpacedKeepsSpaces(c1, c2);
    SpacedLosesSpace(c1, c2);
    JoinedHasNoFullStop(c1, c2);
    CleanSteps(s, s, s, s, s, Joined(c1, c2));
  }

  /** The second application removes the whole list. */
  lemma SecondApplication(c1: string, c2: string)
    requires Code(c1) && Code(c2)
    ensures StripEvidenceRefs(Some(Joined(c1, c2))) == ""
  {
    JoinedIsCitation(c1, c2);
    JoinedChars(c1, c2);
    var empty: string := [];
    assert DropTags(empty, false) == [] && CollapseSpaces(empty) == [] && DropSpaceBefore(empty, ',') == [];
    StripIdentity(empty);
    CleanSteps(Joined(c1, c2), [], [], [], [], []);
  }

  /** strip_evidence_refs is not idempotent: its first application creates a
      citation that only a second application removes. */
  lemma NotIdempotent(c1: string, c2: string)
    requires Code(c1) && Code(c2)
    ensures StripEvidenceRefs(Some(Spaced(c1, c2)))
         != StripEvidenceRefs(Some(StripEvidenceRefs(Some(Spaced(c1, c2)))))
  {
    FirstApplication(c1, c2);
    SecondApplication(c1, c2);
    JoinedChars(c1, c2);
  }

  /** "(A1 ,C2)" gives "(A1,C2)", which gives "". */
  lemma NotIdempotentExample()
    ensures StripEvidenceRefs(Some("(A1 ,C2)")) == "(A1,C2)"
    ensures StripEvidenceRefs(Some("(A1,C2)")) == ""
  {
    assert Code("A1") && Code("C2");
    assert Spaced("A1", "C2") == "(A1 ,C2)" && Joined("A1", "C2") == "(A1,C2)";
    FirstApplication("A1", "C2");
    SecondApplication("A1", "C2");
  }
}
