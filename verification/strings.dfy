/** The Python string operations the modelled code relies on: `str.isspace`,
    `str.strip`, `str.split`, `str.join` and `int(str)`. */
module Strings {
  import opened PyValues

  /** `c.isspace()` in Python; the same characters are what `\s` matches in a `re` pattern. */
  predicate IsSpace(c: char) {
    var n := c as int;
    (9 <= n <= 13) || (28 <= n <= 32) || n == 0x85 || n == 0xA0 || n == 0x1680
    || (0x2000 <= n <= 0x200A) || n == 0x2028 || n == 0x2029 || n == 0x202F
    || n == 0x205F || n == 0x3000
  }

  /** The string holds at least one character that is not whitespace. */
  predicate HasNonSpace(s: string) {
    exists i :: 0 <= i < |s| && !IsSpace(s[i])
  }

  predicate NoSpace(s: string) {
    forall i :: 0 <= i < |s| ==> !IsSpace(s[i])
  }

  /** The number of whitespace characters at the start of `s`. */
  function LeadingSpace(s: string): (n: nat)
    ensures n <= |s|
    ensures forall i :: 0 <= i < n ==> IsSpace(s[i])
    ensures n < |s| ==> !IsSpace(s[n])
  {
    if |s| > 0 && IsSpace(s[0]) then 1 + LeadingSpace(s[1..]) else 0
  }

  /** The length of `s` without its trailing whitespace. */
  function TrailingStart(s: string): (n: nat)
    ensures n <= |s|
    ensures forall i :: n <= i < |s| ==> IsSpace(s[i])
    ensures n > 0 ==> !IsSpace(s[n - 1])
  {
    if |s| > 0 && IsSpace(s[|s| - 1]) then TrailingStart(s[..|s| - 1]) else |s|
  }

  /** `s.strip()`: the whitespace at both ends removed. */
  function Strip(s: string): (r: string)
    ensures |r| > 0 ==> !IsSpace(r[0]) && !IsSpace(r[|r| - 1])
    ensures |r| > 0 <==> HasNonSpace(s)
    ensures LeadingSpace(s) + |r| <= |s| && r == s[LeadingSpace(s)..LeadingSpace(s) + |r|]
    ensures |r| > 0 ==> LeadingSpace(s) + |r| == TrailingStart(s)
  {
    var a := LeadingSpace(s);
    var b := TrailingStart(s);
    if a < b then s[a..b] else []
  }
  lemma {:induction false} StripOfNoSpace(s: string)
    requires NoSpace(s)
    ensures Strip(s) == s
  {
  }

  /** `s.split(sep)` for a non-empty separator: the pieces between the
      non-overlapping occurrences of `sep`, found from the left. */
  function Split(s: string, sep: string): (parts: seq<string>)
    requires |sep| > 0
    ensures |parts| >= 1
    decreases |s|
  {
    if |s| < |sep| then [s]
    else if s[..|sep|] == sep then [[]] + Split(s[|sep|..], sep)
    else
      var rest := Split(s[1..], sep);
      [[s[0]] + rest[0]] + rest[1..]
  }

  /** `sep.join(parts)`. */
  function Join(parts: seq<string>, sep: string): string {
    if |parts| == 0 then []
    else if |parts| == 1 then parts[0]
    else parts[0] + sep + Join(parts[1..], sep)
  }

  lemma {:induction false} JoinCons(c: char, rest: seq<string>, sep: string)
    requires |rest| >= 1
    ensures Join([[c] + rest[0]] + rest[1..], sep) == [c] + Join(rest, sep)
  {
    var parts := [[c] + rest[0]] + rest[1..];
    assert parts[1..] == rest[1..];
  }

  /** Joining the pieces of a split with the same separator gives the string back. */
  lemma {:induction false} JoinSplit(s: string, sep: string)
    requires |sep| > 0
    ensures Join(Split(s, sep), sep) == s
    decreases |s|
  {
    if |s| < |sep| {
    } else if s[..|sep|] == sep {
      JoinSplit(s[|sep|..], sep);
      JoinSplitAtSep(s, sep);
    } else {
      JoinSplit(s[1..], sep);
      JoinSplitPastChar(s, sep);
    }
  }

  lemma {:induction false} JoinSplitAtSep(s: string, sep: string)
    requires |sep| > 0 && |s| >= |sep| && s[..|sep|] == sep
    requires Join(Split(s[|sep|..], sep), sep) == s[|sep|..]
    ensures Join(Split(s, sep), sep) == s
  {
    var parts := [[]] + Split(s[|sep|..], sep);
    assert Split(s, sep) == parts;
    assert parts[1..] == Split(s[|sep|..], sep);
    assert Join(parts, sep) == sep + s[|sep|..];
    assert s == sep + s[|sep|..];
  }

  lemma {:induction false} JoinSplitPastChar(s: string, sep: string)
    requires |sep| > 0 && |s| >= |sep| && s[..|sep|] != sep
    requires Join(Split(s[1..], sep), sep) == s[1..]
    ensures Join(Split(s, sep), sep) == s
  {
    JoinCons(s[0], Split(s[1..], sep), sep);
    assert s == [s[0]] + s[1..];
  }

  lemma {:induction false} SplitWithoutSep(x: string, c: char)
    requires c !in x
    ensures Split(x, [c]) == [x]
    decreases |x|
  {
    if |x| >= 1 {
      assert x[..1] == [x[0]];
      SplitWithoutSep(x[1..], c);
      assert x == [x[0]] + x[1..];
    }
  }

  lemma {:induction false} SplitAtFirst(x: string, c: char, y: string)
    requires c !in x
    ensures Split(x + [c] + y, [c]) == [x] + Split(y, [c])
    decreases |x|
  {
    var s := x + [c] + y;
    if |x| == 0 {
      assert s[..1] == [c];
      assert s[1..] == y;
    } else {
      assert s[..1] == [x[0]];
      assert s[1..] == x[1..] + [c] + y;
      SplitAtFirst(x[1..], c, y);
      assert x == [x[0]] + x[1..];
    }
  }

  /** Splitting on a one-character separator that no piece contains gives the pieces back. */
  lemma {:induction false} SplitJoin(parts: seq<string>, c: char)
    requires |parts| >= 1
    requires forall k :: 0 <= k < |parts| ==> c !in parts[k]
    ensures Split(Join(parts, [c]), [c]) == parts
    decreases |parts|
  {
    if |parts| == 1 {
      SplitWithoutSep(parts[0], c);
    } else {
      SplitJoin(parts[1..], c);
      SplitAtFirst(parts[0], c, Join(parts[1..], [c]));
      assert parts == [parts[0]] + parts[1..];
    }
  }

  /** No piece of a split on a one-character separator contains it. */
  lemma {:induction false} SplitPiecesAvoidSep(s: string, c: char)
    ensures forall k :: 0 <= k < |Split(s, [c])| ==> c !in Split(s, [c])[k]
    decreases |s|
  {
    if |s| >= 1 {
      SplitPiecesAvoidSep(s[1..], c);
      if s[..1] != [c] {
        assert s[0] != c;
      }
    }
  }

  /** `s.split(c)[-1]`: the text after the last `c`, or all of `s`. */
  function LastPiece(s: string, c: char): (r: string)
    ensures c !in r
    ensures c !in s ==> r == s
    ensures c in s ==> exists k :: 0 <= k < |s| && s[k] == c && r == s[k + 1..]
  {
    var parts := Split(s, [c]);
    SplitPiecesAvoidSep(s, c);
    LastOfSplit(s, c);
    parts[|parts| - 1]
  }

  /** The last piece of a split on `c` follows an occurrence of `c` in `s`. */
  predicate LastAfterSep(s: string, c: char, parts: seq<string>)
    requires |parts| >= 1
  {
    exists k :: 0 <= k < |s| && s[k] == c && parts[|parts| - 1] == s[k + 1..]
  }

  /** A split on a character `s` does not hold is `[s]`; otherwise there are
      at least two pieces and the last one follows an occurrence of `c`. */
  lemma {:induction false} LastOfSplit(s: string, c: char)
    ensures c !in s ==> Split(s, [c]) == [s]
    ensures c in s ==> |Split(s, [c])| >= 2 && LastAfterSep(s, c, Split(s, [c]))
    decreases |s|
  {
    if c !in s {
      SplitWithoutSep(s, c);
    } else {
      LastOfSplit(s[1..], c);
      if s[0] == c {
        LastOfSplitAtSep(s, c);
      } else {
        LastOfSplitPastChar(s, c);
      }
    }
  }

  lemma {:induction false} LastOfSplitAtSep(s: string, c: char)
    requires |s| >= 1 && s[0] == c
    requires c !in s[1..] ==> Split(s[1..], [c]) == [s[1..]]
    requires c in s[1..] ==> |Split(s[1..], [c])| >= 2 && LastAfterSep(s[1..], c, Split(s[1..], [c]))
    ensures |Split(s, [c])| >= 2 && LastAfterSep(s, c, Split(s, [c]))
  {
    var rest := Split(s[1..], [c]);
    assert s[..1] == [c];
    assert Split(s, [c]) == [[]] + rest;
    if c !in s[1..] {
      assert Split(s, [c])[|Split(s, [c])| - 1] == s[0 + 1..];
    } else {
      var k :| 0 <= k < |s[1..]| && s[1..][k] == c && rest[|rest| - 1] == s[1..][k + 1..];
      assert s[k + 1] == c && s[1..][k + 1..] == s[k + 1 + 1..];
    }
  }

  lemma {:induction false} LastOfSplitPastChar(s: string, c: char)
    requires c in s && s[0] != c
    requires c in s[1..] ==> |Split(s[1..], [c])| >= 2 && LastAfterSep(s[1..], c, Split(s[1..], [c]))
    ensures |Split(s, [c])| >= 2 && LastAfterSep(s, c, Split(s, [c]))
  {
    var i :| 0 <= i < |s| && s[i] == c;
    assert s[1..][i - 1] == c;
    var rest := Split(s[1..], [c]);
    assert s[..1] == [s[0]];
    assert Split(s, [c]) == [[s[0]] + rest[0]] + rest[1..];
    var k :| 0 <= k < |s[1..]| && s[1..][k] == c && rest[|rest| - 1] == s[1..][k + 1..];
    assert s[k + 1] == c && s[1..][k + 1..] == s[k + 1 + 1..];
  }

  predicate IsDigit(c: char) {
    '0' <= c <= '9'
  }

  predicate AllDigits(s: string) {
    forall i :: 0 <= i < |s| ==> IsDigit(s[i])
  }

  /** The number a string of decimal digits denotes. */
  function DigitsValue(ds: string): nat
    requires AllDigits(ds)
  {
    if ds == [] then 0
    else DigitsValue(ds[..|ds| - 1]) * 10 + (ds[|ds| - 1] as int - '0' as int)
  }

  /** `int(s)` on a string: optional surrounding whitespace, an optional sign and
      one or more decimal digits; None is the ValueError. */
  function ParseInt(s: string): Option<int> {
    var t := Strip(s);
    if |t| > 0 && (t[0] == '-' || t[0] == '+') then
      var ds := t[1..];
      if |ds| > 0 && AllDigits(ds) then
        Some(if t[0] == '-' then -(DigitsValue(ds) as int) else DigitsValue(ds))
      else None
    else if |t| > 0 && AllDigits(t) then Some(DigitsValue(t))
    else None
  }

  function DigitChar(d: nat): (c: char)
    requires d < 10
    ensures IsDigit(c) && c as int - '0' as int == d
  {
    ('0' as int + d) as char
  }

  /** `str(n)` for a natural number. */
  function NatToString(n: nat): (s: string)
    ensures |s| > 0 && AllDigits(s)
  {
    if n < 10 then [DigitChar(n)] else NatToString(n / 10) + [DigitChar(n % 10)]
  }

  /** `str(n)` for an integer. */
  function IntToString(n: int): (s: string)
    ensures |s| > 0 && NoSpace(s) && ',' !in s
  {
    var s := if n < 0 then "-" + NatToString(-n) else NatToString(n);
    assert forall i :: 0 <= i < |s| ==> s[i] == '-' || IsDigit(s[i]);
    s
  }

  lemma {:induction false} NatToStringValue(n: nat)
    ensures DigitsValue(NatToString(n)) == n
  {
    if n >= 10 {
      NatToStringValue(n / 10);
      var s := NatToString(n);
      assert s[..|s| - 1] == NatToString(n / 10);
    }
  }

  /** `int(str(n)) == n`. */
  lemma {:induction false} ParseIntOfIntToString(n: int)
    ensures ParseInt(IntToString(n)) == Some(n)
  {
    var s := IntToString(n);
    StripOfNoSpace(s);
    if n < 0 {
      ParseIntOfNegative(-n);
    } else {
      ParseIntOfDigits(n);
    }
  }

  lemma {:induction false} ParseIntOfDigits(n: nat)
    ensures ParseInt(NatToString(n)) == Some(n)
  {
    var s := NatToString(n);
    StripOfDigits(s);
    NatToStringValue(n);
    assert IsDigit(s[0]);
  }

  lemma {:induction false} ParseIntOfNegative(m: nat)
    requires m > 0
    ensures ParseInt("-" + NatToString(m)) == Some(-(m as int))
  {
    var s := "-" + NatToString(m);
    StripOfNegative(NatToString(m));
    NatToStringValue(m);
    assert s[1..] == NatToString(m);
  }

  lemma {:induction false} StripOfDigits(s: string)
    requires AllDigits(s)
    ensures Strip(s) == s
  {
    assert NoSpace(s);
    StripOfNoSpace(s);
  }

  lemma {:induction false} StripOfNegative(ds: string)
    requires AllDigits(ds)
    ensures Strip("-" + ds) == "-" + ds
  {
    var s := "-" + ds;
    assert forall i :: 0 <= i < |s| ==> s[i] == '-' || IsDigit(s[i]);
    assert NoSpace(s);
    StripOfNoSpace(s);
  }
}
