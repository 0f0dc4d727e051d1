/** The comment normaliser `cleanup_python_comment` used when a configuration
    class's JSON schema is given descriptions. Each regular-expression rewrite
    of the source is one function here; `CleanedComment` composes them and
    `CleanupPythonComment` performs them one assignment at a time. */
module CommentCleanup {
  import opened PyValues
  import opened Strings

  // ---------------------------------------------------------------------------
  // Properties of the cleaned text

  /** Every period is followed by a space. */
  predicate PeriodsSpaced(s: string) {
    forall i :: 0 <= i < |s| && s[i] == '.' ==> i + 1 < |s| && s[i + 1] == ' '
  }

  /** Every period other than the final character is followed by a space. */
  predicate InnerPeriodsSpaced(s: string) {
    forall i :: 0 <= i < |s| - 1 && s[i] == '.' ==> s[i + 1] == ' '
  }

  /** No two spaces in a row. */
  predicate NoDoubleSpace(s: string) {
    forall i :: 0 <= i < |s| - 1 ==> !(s[i] == ' ' && s[i + 1] == ' ')
  }

  /** The characters of `s` that are not whitespace, in order. */
  function Visible(s: string): string {
    if s == [] then [] else (if IsSpace(s[0]) then [] else [s[0]]) + Visible(s[1..])
  }

  lemma {:induction false} VisibleAppend(a: string, b: string)
    ensures Visible(a + b) == Visible(a) + Visible(b)
    decreases |a|
  {
    if a != [] {
      var h: string := if IsSpace(a[0]) then [] else [a[0]];
      assert (a + b)[0] == a[0];
      assert (a + b)[1..] == a[1..] + b;
      VisibleAppend(a[1..], b);
      calc {
        Visible(a + b);
        h + Visible(a[1..] + b);
        h + (Visible(a[1..]) + Visible(b));
        (h + Visible(a[1..])) + Visible(b);
        Visible(a) + Visible(b);
      }
    } else {
      assert a + b == b;
    }
  }

  lemma {:induction false} VisibleOfSpaces(s: string)
    requires forall i :: 0 <= i < |s| ==> IsSpace(s[i])
    ensures Visible(s) == []
    decreases |s|
  {
    if s != [] { VisibleOfSpaces(s[1..]); }
  }

  lemma {:induction false} VisibleNonEmpty(s: string)
    requires HasNonSpace(s)
    ensures |Visible(s)| > 0
    decreases |s|
  {
    if IsSpace(s[0]) {
      var i :| 0 <= i < |s| && !IsSpace(s[i]);
      assert s[1..][i - 1] == s[i];
      VisibleNonEmpty(s[1..]);
    }
  }

  // ---------------------------------------------------------------------------
  // The rewrites, in the order the source applies them

  /** `re.sub(r"\.(?! )", ". ", s)`: a space after every period not already followed by one. */
  function SpaceAfterPeriods(s: string): (r: string)
    ensures PeriodsSpaced(r)
    ensures |s| > 0 && s[0] != '.' ==> |r| > 0 && r[0] == s[0]
    decreases |s|
  {
    if |s| == 0 then []
    else if s[0] == '.' && (|s| == 1 || s[1] != ' ') then ". " + SpaceAfterPeriods(s[1..])
    else [s[0]] + SpaceAfterPeriods(s[1..])
  }

  /** Inserting spaces leaves the visible characters as they were. */
  lemma {:induction false} SpaceAfterPeriodsVisible(s: string)
    ensures Visible(SpaceAfterPeriods(s)) == Visible(s)
    decreases |s|
  {
    if |s| > 0 {
      var rest := SpaceAfterPeriods(s[1..]);
      SpaceAfterPeriodsVisible(s[1..]);
      assert s == [s[0]] + s[1..];
      VisibleAppend([s[0]], s[1..]);
      if s[0] == '.' && (|s| == 1 || s[1] != ' ') {
        VisibleAppend(". ", rest);
        VisibleAppend(" ", rest);
        assert ". " + rest == ['.'] + (" " + rest);
        VisibleAppend(['.'], " " + rest);
      } else {
        VisibleAppend([s[0]], rest);
      }
    }
  }

  /** Only spaces are new in the output. */
  lemma {:induction false} SpaceAfterPeriodsAddsSpaces(s: string, x: char)
    requires x != ' ' && x !in s
    ensures x !in SpaceAfterPeriods(s)
    decreases |s|
  {
    if |s| > 0 {
      SpaceAfterPeriodsAddsSpaces(s[1..], x);
    }
  }

  /** `re.sub(c + "+", " ", s)`: every maximal run of `c` becomes one space.
      `inRun` says that the character before `s` was a `c` of the run being replaced. */
  function ReplaceRuns(s: string, c: char, inRun: bool): (r: string)
    ensures |s| > 0 && (s[0] != c || !inRun) ==>
      |r| > 0 && r[0] == (if s[0] == c then ' ' else s[0])
    decreases |s|
  {
    if |s| == 0 then []
    else if s[0] == c then
      if inRun then ReplaceRuns(s[1..], c, true) else [' '] + ReplaceRuns(s[1..], c, true)
    else [s[0]] + ReplaceRuns(s[1..], c, false)
  }

  /** The replaced character is gone, unless it is the space itself. */
  lemma {:induction false} ReplaceRunsRemoves(s: string, c: char, x: char, inRun: bool)
    requires x != ' ' && (x == c || x !in s)
    ensures x !in ReplaceRuns(s, c, inRun)
    decreases |s|
  {
    if |s| > 0 {
      ReplaceRunsRemoves(s[1..], c, x, s[0] == c);
    }
  }

  /** Collapsing runs of spaces leaves no two spaces in a row. */
  lemma {:induction false} ReplaceRunsSingleSpaces(s: string, inRun: bool)
    ensures NoDoubleSpace(ReplaceRuns(s, ' ', inRun))
    ensures inRun ==> |ReplaceRuns(s, ' ', inRun)| == 0 || ReplaceRuns(s, ' ', inRun)[0] != ' '
    decreases |s|
  {
    if |s| > 0 {
      ReplaceRunsSingleSpaces(s[1..], s[0] == ' ');
    }
  }

  /** A period followed by a space still is, when periods are not the replaced character. */
  lemma {:induction false} ReplaceRunsKeepsPeriods(s: string, c: char, inRun: bool)
    requires c != '.' && PeriodsSpaced(s)
    ensures PeriodsSpaced(ReplaceRuns(s, c, inRun))
    decreases |s|
  {
    if |s| > 0 {
      assert PeriodsSpaced(s[1..]) by {
        forall i | 0 <= i < |s[1..]| && s[1..][i] == '.' ensures i + 1 < |s[1..]| && s[1..][i + 1] == ' ' {
          assert s[i + 1] == '.';
        }
      }
      ReplaceRunsKeepsPeriods(s[1..], c, s[0] == c);
    }
  }

  /** Replacing whitespace by a space leaves the visible characters as they were. */
  lemma {:induction false} ReplaceRunsVisible(s: string, c: char, inRun: bool)
    requires IsSpace(c)
    ensures Visible(ReplaceRuns(s, c, inRun)) == Visible(s)
    decreases |s|
  {
    if |s| > 0 {
      var rest := ReplaceRuns(s[1..], c, s[0] == c);
      ReplaceRunsVisible(s[1..], c, s[0] == c);
      assert s == [s[0]] + s[1..];
      VisibleAppend([s[0]], s[1..]);
      if s[0] == c {
        VisibleAppend([' '], rest);
      } else {
        VisibleAppend([s[0]], rest);
      }
    }
  }

  /** Lower-case ASCII letter. */
  predicate IsLower(c: char) {
    'a' <= c <= 'z'
  }

  /** Upper-case ASCII letter. */
  predicate IsUpper(c: char) {
    'A' <= c <= 'Z'
  }

  /** What `\w` matches, over ASCII: letters, digits and the underscore. */
  predicate IsWordChar(c: char) {
    IsLower(c) || IsUpper(c) || IsDigit(c) || c == '_'
  }

  function ToUpper(c: char): (u: char)
    ensures !IsLower(u)
    ensures IsWordChar(u) == IsWordChar(c)
  {
    if IsLower(c) then (c as int - 32) as char else c
  }

  function ToLower(c: char): (l: char)
    ensures !IsUpper(l)
    ensures IsWordChar(l) == IsWordChar(c)
  {
    if IsUpper(c) then (c as int + 32) as char else c
  }

  /** A word starting at `p` is capitalised: it starts the string, or follows one
      of `.`, `?`, `!` and a whitespace character (the regex
      `(?<=[\.\?!]\s)(\w+)|(^\w+)`). */
  predicate SentenceStart(s: string, p: nat) {
    p == 0 || (2 <= p <= |s| && (s[p - 2] == '.' || s[p - 2] == '?' || s[p - 2] == '!') && IsSpace(s[p - 1]))
  }

  /** Where the run of word characters holding position `i` begins. */
  function RunStart(s: string, i: nat): (p: nat)
    requires i < |s| && IsWordChar(s[i])
    ensures p <= i
    ensures p == 0 || !IsWordChar(s[p - 1])
    ensures forall k :: p <= k <= i ==> IsWordChar(s[k])
  {
    if i > 0 && IsWordChar(s[i - 1]) then RunStart(s, i - 1) else i
  }

  function CapitalizeAt(s: string, i: nat): char
    requires i < |s|
  {
    if IsWordChar(s[i]) && SentenceStart(s, RunStart(s, i)) then
      if RunStart(s, i) == i then ToUpper(s[i]) else ToLower(s[i])
    else s[i]
  }

  /** `re.sub(r"((?<=[\.\?!]\s)(\w+)|(^\w+))", lambda m: m.group().capitalize(), s)`:
      each matched word gets an upper-case first letter and lower-case rest. */
  function Capitalize(s: string): (r: string)
    ensures |r| == |s|
    ensures forall i :: 0 <= i < |s| ==> (IsWordChar(r[i]) <==> IsWordChar(s[i]))
    ensures forall i :: 0 <= i < |s| && !IsWordChar(s[i]) ==> r[i] == s[i]
    ensures forall i :: 0 <= i < |s| && IsWordChar(s[i]) && !SentenceStart(s, RunStart(s, i)) ==> r[i] == s[i]
  {
    seq(|s|, i requires 0 <= i < |s| => CapitalizeAt(s, i))
  }

  // ---------------------------------------------------------------------------
  // Facts the composition needs

  lemma {:induction false} SpacedSlice(s: string, a: nat, b: nat)
    requires a <= b <= |s| && PeriodsSpaced(s)
    ensures InnerPeriodsSpaced(s[a..b])
  {
    var t := s[a..b];
    forall i | 0 <= i < |t| - 1 && t[i] == '.' ensures t[i + 1] == ' ' {
      assert t[i] == s[a + i] && t[i + 1] == s[a + i + 1];
    }
  }

  lemma {:induction false} NoDoubleSpaceSlice(s: string, a: nat, b: nat)
    requires a <= b <= |s| && NoDoubleSpace(s)
    ensures NoDoubleSpace(s[a..b])
  {
    var t := s[a..b];
    forall i | 0 <= i < |t| - 1 ensures !(t[i] == ' ' && t[i + 1] == ' ') {
      assert t[i] == s[a + i] && t[i + 1] == s[a + i + 1];
    }
  }

  lemma {:induction false} VisibleOfStrip(s: string)
    ensures Visible(Strip(s)) == Visible(s)
  {
    var r := Strip(s);
    if |r| == 0 {
      VisibleOfSpaces(s);
    } else {
      VisibleOfTrimmed(s, LeadingSpace(s), TrailingStart(s));
    }
  }

  lemma {:induction false} VisibleOfTrimmed(s: string, a: nat, b: nat)
    requires a <= b <= |s|
    requires forall i :: 0 <= i < a ==> IsSpace(s[i])
    requires forall i :: b <= i < |s| ==> IsSpace(s[i])
    ensures Visible(s[a..b]) == Visible(s)
  {
    VisibleDropsTrailing(s, b);
    VisibleDropsLeading(s[..b], a);
    assert s[..b][a..] == s[a..b];
  }

  lemma {:induction false} VisibleDropsLeading(s: string, a: nat)
    requires a <= |s|
    requires forall i :: 0 <= i < a ==> IsSpace(s[i])
    ensures Visible(s[a..]) == Visible(s)
    decreases a
  {
    if a == 0 {
      assert s[a..] == s;
    } else {
      assert IsSpace(s[0]);
      assert Visible(s) == Visible(s[1..]);
      VisibleDropsLeading(s[1..], a - 1);
      assert s[1..][a - 1..] == s[a..];
    }
  }

  lemma {:induction false} VisibleDropsTrailing(s: string, b: nat)
    requires b <= |s|
    requires forall i :: b <= i < |s| ==> IsSpace(s[i])
    ensures Visible(s[..b]) == Visible(s)
  {
    var post := s[b..];
    assert s == s[..b] + post;
    VisibleAppend(s[..b], post);
    assert forall i :: 0 <= i < |post| ==> IsSpace(post[i]) by {
      forall i | 0 <= i < |post| ensures IsSpace(post[i]) {
        assert post[i] == s[b + i];
      }
    }
    VisibleOfSpaces(post);
  }

  /** Capitalising changes only letter case, so it keeps every word start. */
  lemma {:induction false} CapitalizeKeepsStarts(s: string, p: nat)
    requires p <= |s|
    ensures SentenceStart(Capitalize(s), p) == SentenceStart(s, p)
  {
    var r := Capitalize(s);
    if 2 <= p {
      assert !IsWordChar(s[p - 2]) ==> r[p - 2] == s[p - 2];
      assert !IsWordChar(s[p - 1]) ==> r[p - 1] == s[p - 1];
    }
  }

  lemma {:induction false} CapitalizeKeepsRuns(s: string, i: nat)
    requires i < |s| && IsWordChar(s[i])
    ensures IsWordChar(Capitalize(s)[i]) && RunStart(Capitalize(s), i) == RunStart(s, i)
    decreases i
  {
    if i > 0 && IsWordChar(s[i - 1]) {
      CapitalizeKeepsRuns(s, i - 1);
    }
  }

  /** In the capitalised text, every word that starts the text or a sentence
      begins with a character that is not a lower-case letter, and the rest of
      such a word has no upper-case letter. */
  predicate SentencesCapitalized(r: string) {
    (forall p :: 0 <= p < |r| && IsWordChar(r[p]) && SentenceStart(r, p) ==> !IsLower(r[p]))
    && (forall q :: 0 <= q < |r| && IsWordChar(r[q]) && RunStart(r, q) < q && SentenceStart(r, RunStart(r, q))
          ==> !IsUpper(r[q]))
  }

  lemma {:induction false} CapitalizeCapitalizes(s: string)
    ensures SentencesCapitalized(Capitalize(s))
  {
    var r := Capitalize(s);
    forall p | 0 <= p < |r| && IsWordChar(r[p]) && SentenceStart(r, p) ensures !IsLower(r[p]) {
      CapitalizeKeepsStarts(s, p);
      assert r[p] == CapitalizeAt(s, p);
    }
    forall q | 0 <= q < |r| && IsWordChar(r[q]) && RunStart(r, q) < q && SentenceStart(r, RunStart(r, q))
      ensures !IsUpper(r[q])
    {
      CapitalizeKeepsRuns(s, q);
      CapitalizeKeepsStarts(s, RunStart(s, q));
      assert r[q] == CapitalizeAt(s, q);
    }
  }

  /** Capitalising keeps the visible characters, up to letter case. */
  lemma {:induction false} CapitalizeVisible(s: string, r: string)
    requires |r| == |s|
    requires forall i :: 0 <= i < |s| ==> IsSpace(r[i]) == IsSpace(s[i]) && ToLower(r[i]) == ToLower(s[i])
    ensures LowerAll(Visible(r)) == LowerAll(Visible(s))
    decreases |s|
  {
    if s != [] {
      CapitalizeVisible(s[1..], r[1..]);
      LowerAllAppend(if IsSpace(s[0]) then [] else [s[0]], Visible(s[1..]));
      LowerAllAppend(if IsSpace(r[0]) then [] else [r[0]], Visible(r[1..]));
    }
  }

  /** The text with every ASCII letter in lower case. */
  function LowerAll(s: string): (l: string)
    ensures |l| == |s|
  {
    if s == [] then [] else [ToLower(s[0])] + LowerAll(s[1..])
  }

  lemma {:induction false} LowerAllAppend(a: string, b: string)
    ensures LowerAll(a + b) == LowerAll(a) + LowerAll(b)
    decreases |a|
  {
    if a != [] {
      assert (a + b)[0] == a[0];
      assert (a + b)[1..] == a[1..] + b;
      LowerAllAppend(a[1..], b);
      calc {
        LowerAll(a + b);
        [ToLower(a[0])] + LowerAll(a[1..] + b);
        [ToLower(a[0])] + (LowerAll(a[1..]) + LowerAll(b));
        ([ToLower(a[0])] + LowerAll(a[1..])) + LowerAll(b);
      }
    } else {
      assert a + b == b;
    }
  }

  lemma {:induction false} CapitalizeCase(s: string)
    ensures forall i :: 0 <= i < |s| ==>
      IsSpace(Capitalize(s)[i]) == IsSpace(s[i]) && ToLower(Capitalize(s)[i]) == ToLower(s[i])
  {
    var r := Capitalize(s);
    forall i | 0 <= i < |s| ensures IsSpace(r[i]) == IsSpace(s[i]) && ToLower(r[i]) == ToLower(s[i]) {
      assert r[i] == CapitalizeAt(s, i);
    }
  }

  // ---------------------------------------------------------------------------
  // The normaliser

  /** The comment is absent, empty or only whitespace. */
  predicate IsBlankComment(d: Option<string>) {
    d.None? || !HasNonSpace(d.value)
  }

  /** The text `cleanup_python_comment` leaves for a comment with visible content. */
  predicate WellFormedDescription(r: string) {
    Shaped(r) && SentencesCapitalized(r)
  }

  /** The spacing and period rewrites of `cleanup_python_comment`, before the
      words are capitalised: the visible characters are exactly those of the
      comment, with a final period added if missing. */
  function Normalized(d: string): (n: string)
    requires HasNonSpace(d)
    ensures Shaped(n)
    ensures var v := Visible(d);
      |v| > 0 && Visible(n) == (if v[|v| - 1] == '.' then v else v + ".")
  {
    var s1 := SpaceAfterPeriods(d);
    var s2 := ReplaceRuns(s1, '\n', false);
    var s3 := ReplaceRuns(s2, ' ', false);
    var s4 := Strip(s3);
    CleanedFromStripped(d, s1, s2, s3, s4);
    VisibleLast(s4);
    var s5 := if s4[|s4| - 1] != '.' then s4 + "." else s4;
    PeriodAppended(s4, s5);
    s5
  }

  /** What `cleanup_python_comment(d)` returns. */
  function CleanedComment(d: Option<string>): (r: string)
    ensures IsBlankComment(d) ==> r == ""
    ensures !IsBlankComment(d) ==> WellFormedDescription(r)
    ensures !IsBlankComment(d) ==>
      var v := Visible(d.value);
      |v| > 0 && LowerAll(Visible(r)) == LowerAll(if v[|v| - 1] == '.' then v else v + ".")
  {
    if IsBlankComment(d) then ""
    else
      var n := Normalized(d.value);
      CapitalizedWellFormed(n);
      Capitalize(n)
  }

  /** Capitalisation touches only the words that start the text or a sentence:
      every other character of the cleaned text is the normalised comment's,
      case included. */
  lemma {:induction false} CleanedKeepsOtherWords(d: Option<string>)
    requires !IsBlankComment(d)
    ensures var n := Normalized(d.value);
      var r := CleanedComment(d);
      && |r| == |n|
      && forall i :: 0 <= i < |n| && !(IsWordChar(n[i]) && SentenceStart(n, RunStart(n, i))) ==> r[i] == n[i]
  {
    assert CleanedComment(d) == Capitalize(Normalized(d.value));
  }

  lemma {:induction false} CleanedFromStripped(d: string, s1: string, s2: string, s3: string, s4: string)
    requires HasNonSpace(d)
    requires s1 == SpaceAfterPeriods(d) && s2 == ReplaceRuns(s1, '\n', false)
    requires s3 == ReplaceRuns(s2, ' ', false) && s4 == Strip(s3)
    ensures |s4| > 0 && !IsSpace(s4[0]) && !IsSpace(s4[|s4| - 1])
    ensures '\n' !in s4 && NoDoubleSpace(s4) && InnerPeriodsSpaced(s4)
    ensures Visible(s4) == Visible(d)
  {
    StrippedVisible(d, s1, s2, s3, s4);
    StrippedSpacing(s1, s2, s3, s4);
  }

  lemma {:induction false} StrippedVisible(d: string, s1: string, s2: string, s3: string, s4: string)
    requires HasNonSpace(d)
    requires s1 == SpaceAfterPeriods(d) && s2 == ReplaceRuns(s1, '\n', false)
    requires s3 == ReplaceRuns(s2, ' ', false) && s4 == Strip(s3)
    ensures |s4| > 0 && !IsSpace(s4[0]) && !IsSpace(s4[|s4| - 1])
    ensures Visible(s4) == Visible(d)
  {
    SpaceAfterPeriodsVisible(d);
    ReplaceRunsVisible(s1, '\n', false);
    ReplaceRunsVisible(s2, ' ', false);
    VisibleOfStrip(s3);
    VisibleNonEmpty(d);
  }

  lemma {:induction false} StrippedSpacing(s1: string, s2: string, s3: string, s4: string)
    requires PeriodsSpaced(s1) && s2 == ReplaceRuns(s1, '\n', false)
    requires s3 == ReplaceRuns(s2, ' ', false) && s4 == Strip(s3)
    ensures '\n' !in s4 && NoDoubleSpace(s4) && InnerPeriodsSpaced(s4)
  {
    var a := LeadingSpace(s3);
    var b := a + |s4|;
    ReplaceRunsRemoves(s1, '\n', '\n', false);
    ReplaceRunsRemoves(s2, ' ', '\n', false);
    SliceAvoids(s3, a, b, '\n');
    ReplaceRunsSingleSpaces(s2, false);
    NoDoubleSpaceSlice(s3, a, b);
    ReplaceRunsKeepsPeriods(s1, '\n', false);
    ReplaceRunsKeepsPeriods(s2, ' ', false);
    SpacedSlice(s3, a, b);
  }

  lemma {:induction false} SliceAvoids(s: string, a: nat, b: nat, x: char)
    requires a <= b <= |s| && x !in s
    ensures x !in s[a..b]
  {
  }

  /** The shape the cleaned text has before its words are capitalised. */
  predicate Shaped(s: string) {
    && |s| > 0
    && '\n' !in s
    && NoDoubleSpace(s)
    && !IsSpace(s[0]) && !IsSpace(s[|s| - 1])
    && s[|s| - 1] == '.'
    && InnerPeriodsSpaced(s)
  }

  lemma {:induction false} PeriodAppended(s4: string, s5: string)
    requires |s4| > 0 && !IsSpace(s4[0]) && !IsSpace(s4[|s4| - 1])
    requires '\n' !in s4 && NoDoubleSpace(s4) && InnerPeriodsSpaced(s4)
    requires s5 == if s4[|s4| - 1] != '.' then s4 + "." else s4
    ensures Shaped(s5)
    ensures Visible(s5) == Visible(s4) + (if s4[|s4| - 1] == '.' then "" else ".")
  {
    if s4[|s4| - 1] != '.' {
      VisibleAppend(s4, ".");
      assert forall i :: 0 <= i < |s4| ==> s5[i] == s4[i];
    }
  }

  lemma {:induction false} VisibleLast(s: string)
    requires |s| > 0 && !IsSpace(s[|s| - 1])
    ensures var v := Visible(s); |v| > 0 && v[|v| - 1] == s[|s| - 1]
  {
    assert s == s[..|s| - 1] + [s[|s| - 1]];
    VisibleAppend(s[..|s| - 1], [s[|s| - 1]]);
  }

  /** Capitalising changes no character the shape speaks of. */
  lemma {:induction false} CapitalizeKeepsShape(s: string)
    requires Shaped(s)
    ensures Shaped(Capitalize(s))
  {
    var r := Capitalize(s);
    forall i | 0 <= i < |r| ensures r[i] != '\n' {
      assert !IsWordChar(s[i]) ==> r[i] == s[i];
    }
    forall i | 0 <= i < |r| - 1 ensures !(r[i] == ' ' && r[i + 1] == ' ') {
      assert !IsWordChar(s[i]) ==> r[i] == s[i];
      assert !IsWordChar(s[i + 1]) ==> r[i + 1] == s[i + 1];
    }
    forall i | 0 <= i < |r| - 1 && r[i] == '.' ensures r[i + 1] == ' ' {
      assert !IsWordChar(s[i]) ==> r[i] == s[i];
      assert !IsWordChar(s[i + 1]) ==> r[i + 1] == s[i + 1];
    }
    assert r[|r| - 1] == s[|s| - 1];
    assert !IsWordChar(s[0]) ==> r[0] == s[0];
  }

  lemma {:induction false} CapitalizedWellFormed(n: string)
    requires Shaped(n)
    ensures WellFormedDescription(Capitalize(n))
    ensures LowerAll(Visible(Capitalize(n))) == LowerAll(Visible(n))
  {
    CapitalizeKeepsShape(n);
    CapitalizeCapitalizes(n);
    CapitalizeCase(n);
    CapitalizeVisible(n, Capitalize(n));
  }

  /** `cleanup_python_comment`: the rewrites applied one after another to the
      same variable, as the source does. */
  method CleanupPythonComment(dstring: Option<string>) returns (r: string)
    ensures r == CleanedComment(dstring)
    ensures IsBlankComment(dstring) <==> r == ""
    ensures r != "" ==> WellFormedDescription(r)
  {
    if IsBlankComment(dstring) {
      return "";
    }
    var s := dstring.value;
    s := SpaceAfterPeriods(s);
    s := ReplaceRuns(s, '\n', false);
    s := ReplaceRuns(s, ' ', false);
    s := Strip(s);
    CleanedFromStripped(dstring.value, SpaceAfterPeriods(dstring.value),
      ReplaceRuns(SpaceAfterPeriods(dstring.value), '\n', false),
      ReplaceRuns(ReplaceRuns(SpaceAfterPeriods(dstring.value), '\n', false), ' ', false), s);
    s := if s[|s| - 1] != '.' then s + "." else s;
    r := Capitalize(s);
  }
}
