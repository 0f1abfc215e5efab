/** `strip_evidence_refs` (app.py): three passes over narrative text that take
    out inline citation markers and then tidy the whitespace. Each regular
    expression of `strip_evidence_refs` is written here as a scanner that reads the
    text left to right and, at each position, either consumes a match or
    copies one character, as Python's `re.sub` does. `\s`, `\d` and `\w` mean
    their ASCII members (see Basics). */
module EvidenceRefs {
  import opened Basics

  // ---------------------------------------------------------------------
  // Pass 1: `\s*\((?:[A-Z]\d+(?:,\s*)?)+\)` is replaced by nothing.

  /** Length of a code list `[A-Z]\d+(,\s*)?` repeated one or more times and
      closed by `)`, read from the start of `s` (the text after `(`).
      The grammar is deterministic (a code never starts with a digit, a
      comma or whitespace), so greedy reading finds the regex match. */
  function CodesLen(s: string): (r: Option<nat>)
    ensures r.Some? ==> 2 < r.value <= |s| && s[r.value - 1] == ')'
    ensures r.Some? ==> IsUpper(s[0])
    decreases |s|
  {
    if s == [] || !IsUpper(s[0]) || DigitRun(s[1..]) == 0 then None
    else
      var k := CodeEnd(s);
      if k < |s| && s[k] == ')' then Some(k + 1)
      else
        match CodesLen(s[k..])
        case None => None
        case Some(m) =>
          assert s[k..][m - 1] == s[k + m - 1];
          Some(k + m)
  }

  /** Where the code that starts `s` ends, together with a following comma
      and the whitespace after it. */
  function CodeEnd(s: string): (k: nat)
    requires s != [] && DigitRun(s[1..]) > 0
    ensures 2 <= k <= |s|
  {
    var k := 1 + DigitRun(s[1..]);
    if k < |s| && s[k] == ',' then k + 1 + SpaceRun(s[k + 1..]) else k
  }

  /** Length of a citation (optional whitespace, `(`, code list, `)`) that
      starts `s`, or None when none starts here. */
  function CitationLen(s: string): (r: Option<nat>)
    ensures r.Some? ==> 0 < r.value <= |s|
  {
    var w := SpaceRun(s);
    if w < |s| && s[w] == '(' then
      match CodesLen(s[w + 1..])
      case None => None
      case Some(m) => Some(w + 1 + m)
    else None
  }

  /** Pass 1: delete every citation, leftmost first. */
  function DropCitations(s: string): (r: string)
    ensures |r| <= |s|
    decreases |s|
  {
    if s == [] then []
    else
      match CitationLen(s)
      case Some(n) => DropCitations(s[n..])
      case None => [s[0]] + DropCitations(s[1..])
  }

  // ---------------------------------------------------------------------
  // Pass 2: `\b[FNVB]\d+\b` is replaced by nothing.

  predicate IsTagLetter(c: char) {
    c == 'F' || c == 'N' || c == 'V' || c == 'B'
  }

  /** Length of a tag `[FNVB]\d+` that starts `s` and is followed by a
      non-word character or the end, or None. The digit run is taken whole:
      a shorter one would be followed by a digit, which is no boundary. */
  function TagLen(s: string): (r: Option<nat>)
    ensures r.Some? ==> 2 <= r.value <= |s| && IsTagLetter(s[0])
    ensures r.Some? ==> r.value == |s| || !IsWordChar(s[r.value])
  {
    if s != [] && IsTagLetter(s[0]) then
      var d := DigitRun(s[1..]);
      if d > 0 && (1 + d == |s| || !IsWordChar(s[1 + d])) then Some(1 + d) else None
    else None
  }

  /** Pass 2: delete every tag. `afterWord` says whether the character of the
      input just before `s` is a word character, which rules out the `\b`
      in front of a tag. */
  function DropTags(s: string, afterWord: bool): (r: string)
    ensures |r| <= |s|
    decreases |s|
  {
    if s == [] then []
    else if !afterWord && TagLen(s).Some? then DropTags(s[TagLen(s).value..], true)
    else [s[0]] + DropTags(s[1..], IsWordChar(s[0]))
  }

  // ---------------------------------------------------------------------
  // Pass 3: `\s{2,}` becomes one space, then strip, then `" ,"` becomes
  // `","` and `" ."` becomes `"."`.

  /** No two adjacent whitespace characters. */
  predicate NoAdjacentSpaces(s: string) {
    forall i :: 0 <= i < |s| - 1 ==> !(IsSpace(s[i]) && IsSpace(s[i + 1]))
  }

  /** Neither end is whitespace. */
  predicate Trimmed(s: string) {
    s == [] || (!IsSpace(s[0]) && !IsSpace(s[|s| - 1]))
  }

  /** No space directly in front of `c`. */
  predicate NoSpaceBefore(s: string, c: char) {
    forall i :: 0 <= i < |s| - 1 ==> !(s[i] == ' ' && s[i + 1] == c)
  }

  /** Replace each run of two or more whitespace characters by one space. */
  function CollapseSpaces(s: string): (r: string)
    ensures |r| <= |s|
    ensures NoAdjacentSpaces(r)
    ensures |r| == 0 <==> |s| == 0
    ensures |s| > 0 ==> (IsSpace(r[0]) <==> IsSpace(s[0]))
    decreases |s|
  {
    if s == [] then []
    else
      var w := SpaceRun(s);
      if w >= 2 then [' '] + CollapseSpaces(s[w..])
      else [s[0]] + CollapseSpaces(s[1..])
  }

  /** `s.replace(" " + [c], [c])`: non-overlapping, left to right. */
  function DropSpaceBefore(s: string, c: char): (r: string)
    ensures |r| <= |s|
    ensures |r| == 0 <==> |s| == 0
    ensures |s| > 0 ==> r[|r| - 1] == s[|s| - 1]
    ensures |s| > 0 ==> r[0] == s[0] || (s[0] == ' ' && r[0] == c)
    decreases |s|
  {
    if |s| >= 2 && s[0] == ' ' && s[1] == c then [c] + DropSpaceBefore(s[2..], c)
    else if s == [] then []
    else [s[0]] + DropSpaceBefore(s[1..], c)
  }

  /** The three passes, on a string. */
  function Clean(t: string): (r: string)
    ensures |r| <= |t|
    ensures NoAdjacentSpaces(r) && Trimmed(r)
    ensures NoSpaceBefore(r, ',') && NoSpaceBefore(r, '.')
  {
    var collapsed := CollapseSpaces(DropTags(DropCitations(t), false));
    StripKeepsNoAdjacentSpaces(collapsed);
    ReplacesKeepNormalForm(Strip(collapsed));
    DropSpaceBefore(DropSpaceBefore(Strip(collapsed), ','), '.')
  }

  lemma StripKeepsNoAdjacentSpaces(s: string)
    requires NoAdjacentSpaces(s)
    ensures NoAdjacentSpaces(Strip(s)) && Trimmed(Strip(s)) && |Strip(s)| <= |s|
  {
    SliceKeepsNoAdjacentSpaces(s, SpaceRun(s), SpaceRun(s) + |Strip(s)|);
  }

  /** The two replacements keep the normal form and add the absence of a
      space before a comma or a full stop. */
  lemma ReplacesKeepNormalForm(stripped: string)
    requires NoAdjacentSpaces(stripped) && Trimmed(stripped)
    ensures var r := DropSpaceBefore(DropSpaceBefore(stripped, ','), '.');
            |r| <= |stripped| && NoAdjacentSpaces(r) && Trimmed(r)
            && NoSpaceBefore(r, ',') && NoSpaceBefore(r, '.')
  {
    var commas := DropSpaceBefore(stripped, ',');
    DropSpaceBeforeClean(stripped, ',');
    DropSpaceBeforeClean(commas, '.');
    DropSpaceBeforeKeeps(commas, '.', ',');
  }

  /** `strip_evidence_refs(text)`: None stands for `None` and for any value
      that is not a string; both, and the empty string, give "". Otherwise
      the result is never longer than the text, has no two adjacent
      whitespace characters, none at either end, and no space in front of a
      comma or a full stop. */
  function StripEvidenceRefs(text: Option<string>): (r: string)
    ensures text.None? || text == Some("") ==> r == ""
    ensures text.Some? ==> |r| <= |text.value|
    ensures NoAdjacentSpaces(r) && Trimmed(r)
    ensures NoSpaceBefore(r, ',') && NoSpaceBefore(r, '.')
  {
    match text
    case None => ""
    case Some(t) => if t == "" then "" else Clean(t)
  }

  // ---------------------------------------------------------------------
  // Lemmas for the normal form of the output.

  lemma SliceKeepsNoAdjacentSpaces(s: string, a: nat, b: nat)
    requires a <= b <= |s| && NoAdjacentSpaces(s)
    ensures NoAdjacentSpaces(s[a..b])
  {
    forall i | 0 <= i < b - a - 1 ensures !(IsSpace(s[a..b][i]) && IsSpace(s[a..b][i + 1])) {
      assert s[a..b][i] == s[a + i] && s[a..b][i + 1] == s[a + i + 1];
    }
  }

  /** Taking out `" c"` from a string with no two adjacent whitespace
      characters leaves none, and leaves no space in front of `c`. */
  lemma {:induction false} DropSpaceBeforeClean(s: string, c: char)
    requires NoAdjacentSpaces(s) && !IsSpace(c)
    ensures NoAdjacentSpaces(DropSpaceBefore(s, c))
    ensures NoSpaceBefore(DropSpaceBefore(s, c), c)
    decreases |s|
  {
    var r := DropSpaceBefore(s, c);
    if |s| >= 2 && s[0] == ' ' && s[1] == c {
      var rest := s[2..];
      assert NoAdjacentSpaces(rest) by {
        forall i | 0 <= i < |rest| - 1 ensures !(IsSpace(rest[i]) && IsSpace(rest[i + 1])) {
          assert rest[i] == s[i + 2] && rest[i + 1] == s[i + 3];
        }
      }
      DropSpaceBeforeClean(rest, c);
      assert r == [c] + DropSpaceBefore(rest, c);
    } else if s != [] {
      var rest := s[1..];
      assert NoAdjacentSpaces(rest) by {
        forall i | 0 <= i < |rest| - 1 ensures !(IsSpace(rest[i]) && IsSpace(rest[i + 1])) {
          assert rest[i] == s[i + 1] && rest[i + 1] == s[i + 2];
        }
      }
      DropSpaceBeforeClean(rest, c);
      var tail := DropSpaceBefore(rest, c);
      assert r == [s[0]] + tail;
      if rest != [] {
        assert !(IsSpace(s[0]) && IsSpace(s[1]));
        assert IsSpace(s[0]) ==> tail[0] == rest[0];
      }
    }
  }

  /** Taking out `" c"` does not put a space in front of another
      non-space character `d`. */
  lemma {:induction false} DropSpaceBeforeKeeps(s: string, c: char, d: char)
    requires NoAdjacentSpaces(s) && NoSpaceBefore(s, d) && !IsSpace(c) && d != c
    ensures NoSpaceBefore(DropSpaceBefore(s, c), d)
    decreases |s|
  {
    var r := DropSpaceBefore(s, c);
    if |s| >= 2 && s[0] == ' ' && s[1] == c {
      var rest := s[2..];
      assert NoAdjacentSpaces(rest) && NoSpaceBefore(rest, d) by {
        forall i | 0 <= i < |rest| - 1
          ensures !(IsSpace(rest[i]) && IsSpace(rest[i + 1])) && !(rest[i] == ' ' && rest[i + 1] == d)
        {
          assert rest[i] == s[i + 2] && rest[i + 1] == s[i + 3];
        }
      }
      DropSpaceBeforeKeeps(rest, c, d);
      assert r == [c] + DropSpaceBefore(rest, c);
    } else if s != [] {
      var rest := s[1..];
      assert NoAdjacentSpaces(rest) && NoSpaceBefore(rest, d) by {
        forall i | 0 <= i < |rest| - 1
          ensures !(IsSpace(rest[i]) && IsSpace(rest[i + 1])) && !(rest[i] == ' ' && rest[i + 1] == d)
        {
          assert rest[i] == s[i + 1] && rest[i + 1] == s[i + 2];
        }
      }
      DropSpaceBeforeKeeps(rest, c, d);
      var tail := DropSpaceBefore(rest, c);
      assert r == [s[0]] + tail;
      if rest != [] && s[0] == ' ' {
        assert !IsSpace(s[1]);
        assert tail[0] == rest[0];
      }
    }
  }

  // ---------------------------------------------------------------------
  // Each pass copies a prefix in which it finds nothing to change.

  /** A citation starts at index `i` of `s`. */
  predicate CitationAt(s: string, i: nat)
    requires i < |s|
  {
    CitationLen(s[i..]).Some?
  }

  /** A tag starts at index `i` of `s`; `afterWord` describes the character
      before `s`. */
  predicate TagAt(s: string, i: nat, afterWord: bool)
    requires i < |s|
  {
    (if i == 0 then !afterWord else !IsWordChar(s[i - 1])) && TagLen(s[i..]).Some?
  }

  /** Whether the character before the rest of the input is a word character
      once `a` has been read. */
  function AfterWord(a: string, afterWord: bool): bool {
    if a == [] then afterWord else IsWordChar(a[|a| - 1])
  }

  /** Putting back the first character of `a`. */
  lemma ConsAppend(a: string, y: string, z: string)
    requires a != [] && y == a[1..] + z
    ensures [a[0]] + y == a + z
  {
    assert [a[0]] + a[1..] == a;
  }

  lemma {:induction false} DropCitationsPrefix(a: string, b: string)
    requires forall i :: 0 <= i < |a| ==> !CitationAt(a + b, i)
    ensures DropCitations(a + b) == a + DropCitations(b)
    decreases |a|
  {
    if a == [] {
      assert a + b == b;
    } else {
      CitationsFront(a, b);
      CitationFreeTail(a, b);
      DropCitationsPrefix(a[1..], b);
      ConsAppend(a, DropCitations(a[1..] + b), DropCitations(b));
    }
  }

  lemma CitationsFront(a: string, b: string)
    requires a != [] && !CitationAt(a + b, 0)
    ensures DropCitations(a + b) == [a[0]] + DropCitations(a[1..] + b)
  {
    var s := a + b;
    assert s[0..] == s && s[1..] == a[1..] + b;
  }

  lemma CitationFreeTail(a: string, b: string)
    requires a != [] && forall i :: 0 <= i < |a| ==> !CitationAt(a + b, i)
    ensures forall i :: 0 <= i < |a| - 1 ==> !CitationAt(a[1..] + b, i)
  {
    forall i | 0 <= i < |a| - 1 ensures !CitationAt(a[1..] + b, i) {
      assert !CitationAt(a + b, i + 1);
      assert (a[1..] + b)[i..] == (a + b)[i + 1..];
    }
  }

  lemma {:induction false} DropTagsPrefix(a: string, b: string, afterWord: bool)
    requires forall i :: 0 <= i < |a| ==> !TagAt(a + b, i, afterWord)
    ensures DropTags(a + b, afterWord) == a + DropTags(b, AfterWord(a, afterWord))
    decreases |a|
  {
    if a == [] {
      assert a + b == b;
    } else {
      TagsFront(a, b, afterWord);
      TagFreeTail(a, b, afterWord);
      DropTagsPrefix(a[1..], b, IsWordChar(a[0]));
      assert AfterWord(a[1..], IsWordChar(a[0])) == AfterWord(a, afterWord);
      ConsAppend(a, DropTags(a[1..] + b, IsWordChar(a[0])), DropTags(b, AfterWord(a, afterWord)));
    }
  }

  lemma TagsFront(a: string, b: string, afterWord: bool)
    requires a != [] && !TagAt(a + b, 0, afterWord)
    ensures DropTags(a + b, afterWord) == [a[0]] + DropTags(a[1..] + b, IsWordChar(a[0]))
  {
    var s := a + b;
    assert s[0..] == s && s[1..] == a[1..] + b;
  }

  lemma TagFreeTail(a: string, b: string, afterWord: bool)
    requires a != [] && forall i :: 0 <= i < |a| ==> !TagAt(a + b, i, afterWord)
    ensures forall i :: 0 <= i < |a| - 1 ==> !TagAt(a[1..] + b, i, IsWordChar(a[0]))
  {
    forall i | 0 <= i < |a| - 1 ensures !TagAt(a[1..] + b, i, IsWordChar(a[0])) {
      assert !TagAt(a + b, i + 1, afterWord);
      assert (a[1..] + b)[i..] == (a + b)[i + 1..];
      assert i > 0 ==> (a[1..] + b)[i - 1] == (a + b)[i];
    }
  }

  lemma {:induction false} CollapsePrefix(a: string, b: string)
    requires NoAdjacentSpaces(a)
    requires a == [] || b == [] || !IsSpace(a[|a| - 1]) || !IsSpace(b[0])
    ensures CollapseSpaces(a + b) == a + CollapseSpaces(b)
    decreases |a|
  {
    if a == [] {
      assert a + b == b;
    } else {
      CollapseFront(a, b);
      NoAdjacentSpacesTail(a);
      CollapsePrefix(a[1..], b);
      ConsAppend(a, CollapseSpaces(a[1..] + b), CollapseSpaces(b));
    }
  }

  lemma CollapseFront(a: string, b: string)
    requires a != [] && NoAdjacentSpaces(a)
    requires b == [] || !IsSpace(a[|a| - 1]) || !IsSpace(b[0])
    ensures CollapseSpaces(a + b) == [a[0]] + CollapseSpaces(a[1..] + b)
  {
    FrontPair(a, b);
    CollapseJoinedStep(a, b);
  }

  lemma CollapseJoinedStep(a: string, b: string)
    requires a != [] && (|a + b| >= 2 ==> !(IsSpace((a + b)[0]) && IsSpace((a + b)[1])))
    ensures CollapseSpaces(a + b) == [a[0]] + CollapseSpaces(a[1..] + b)
  {
    assert (a + b)[1..] == a[1..] + b;
    CollapseStep(a + b);
  }

  /** The first two characters of `a + b` are not both whitespace. */
  lemma FrontPair(a: string, b: string)
    requires a != [] && NoAdjacentSpaces(a)
    requires b == [] || !IsSpace(a[|a| - 1]) || !IsSpace(b[0])
    ensures |a + b| >= 2 ==> !(IsSpace((a + b)[0]) && IsSpace((a + b)[1]))
  {
    var s := a + b;
    if |a| >= 2 {
      assert s[0] == a[0] && s[1] == a[1];
    } else if |s| >= 2 {
      assert s[1] == b[0] && a[|a| - 1] == s[0];
    }
  }

  /** Without a run of two whitespace characters at the front, the first
      character is copied. */
  lemma CollapseStep(s: string)
    requires s != [] && (|s| >= 2 ==> !(IsSpace(s[0]) && IsSpace(s[1])))
    ensures CollapseSpaces(s) == [s[0]] + CollapseSpaces(s[1..])
  {
    assert SpaceRun(s) < 2;
  }

  lemma NoAdjacentSpacesTail(a: string)
    requires a != [] && NoAdjacentSpaces(a)
    ensures NoAdjacentSpaces(a[1..])
  {
    forall i | 0 <= i < |a| - 2 ensures !(IsSpace(a[1..][i]) && IsSpace(a[1..][i + 1])) {
      assert a[1..][i] == a[i + 1] && a[1..][i + 1] == a[i + 2];
    }
  }

  lemma {:induction false} DropSpaceBeforePrefix(a: string, b: string, c: char)
    requires NoSpaceBefore(a, c)
    requires a == [] || b == [] || a[|a| - 1] != ' ' || b[0] != c
    ensures DropSpaceBefore(a + b, c) == a + DropSpaceBefore(b, c)
    decreases |a|
  {
    if a == [] {
      assert a + b == b;
    } else {
      SpaceBeforeFront(a, b, c);
      NoSpaceBeforeTail(a, c);
      DropSpaceBeforePrefix(a[1..], b, c);
      ConsAppend(a, DropSpaceBefore(a[1..] + b, c), DropSpaceBefore(b, c));
    }
  }

  lemma SpaceBeforeFront(a: string, b: string, c: char)
    requires a != [] && NoSpaceBefore(a, c)
    requires b == [] || a[|a| - 1] != ' ' || b[0] != c
    ensures DropSpaceBefore(a + b, c) == [a[0]] + DropSpaceBefore(a[1..] + b, c)
  {
    var s := a + b;
    assert s[1..] == a[1..] + b;
    if |a| >= 2 {
      assert s[1] == a[1];
    } else if |s| >= 2 {
      assert s[1] == b[0] && s[0] == a[|a| - 1];
    }
  }

  lemma NoSpaceBeforeTail(a: string, c: char)
    requires a != [] && NoSpaceBefore(a, c)
    ensures NoSpaceBefore(a[1..], c)
  {
    forall i | 0 <= i < |a| - 2 ensures !(a[1..][i] == ' ' && a[1..][i + 1] == c) {
      assert a[1..][i] == a[i + 1] && a[1..][i + 1] == a[i + 2];
    }
  }

  /** Text with nothing for any pass to change: no citation and no tag starts
      anywhere, no two whitespace characters are adjacent, neither end is
      whitespace, and no space stands before a comma or a full stop. */
  predicate AlreadyClean(s: string) {
    && (forall i :: 0 <= i < |s| ==> !CitationAt(s, i))
    && (forall i :: 0 <= i < |s| ==> !TagAt(s, i, false))
    && NoAdjacentSpaces(s) && Trimmed(s)
    && NoSpaceBefore(s, ',') && NoSpaceBefore(s, '.')
  }

  /** Clean text comes back unchanged. */
  lemma CleanTextUnchanged(s: string)
    requires AlreadyClean(s)
    ensures StripEvidenceRefs(Some(s)) == s
  {
    if s != "" {
      assert s + [] == s;
      DropCitationsPrefix(s, []);
      DropTagsPrefix(s, [], false);
      CollapsePrefix(s, []);
      StripIdentity(s);
      DropSpaceBeforePrefix(s, [], ',');
      DropSpaceBeforePrefix(s, [], '.');
    }
  }

  /** The output is in normal form, and text in normal form comes back
      unchanged, so the function is the identity on its own output exactly
      when that output is already clean. */
  lemma OutputAlreadyCleanIsFixed(text: Option<string>)
    requires AlreadyClean(StripEvidenceRefs(text))
    ensures StripEvidenceRefs(Some(StripEvidenceRefs(text))) == StripEvidenceRefs(text)
  {
    CleanTextUnchanged(StripEvidenceRefs(text));
  }
}
