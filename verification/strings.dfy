/** The JavaScript string operations the services rely on, over `seq<char>`:
    `Array.prototype.join`, `String.prototype.split` with a one-character
    separator followed by `.pop()`, ASCII case folding and the decimal
    rendering of a non-negative integer. */
module Strings {

  /** `parts.join(sep)`: the empty array joins to the empty string. */
  function Join(parts: seq<string>, sep: string): string
  {
    if |parts| == 0 then ""
    else if |parts| == 1 then parts[0]
    else parts[0] + sep + Join(parts[1..], sep)
  }

  /** `t` occurs as a contiguous piece of `s` (`s.includes(t)`). */
  predicate IsInfix(t: string, s: string)
  {
    exists i :: 0 <= i <= |s| && t <= s[i..]
  }

  /** Every joined part is still visible, verbatim, in the joined string. */
  lemma {:induction false} JoinContainsEachPart(parts: seq<string>, sep: string, k: int)
    requires 0 <= k < |parts|
    ensures IsInfix(parts[k], Join(parts, sep))
  {
    var whole := Join(parts, sep);
    if k == 0 {
      assert whole[0..] == whole;
      assert parts[0] <= whole[0..];
    } else {
      var tail := Join(parts[1..], sep);
      JoinContainsEachPart(parts[1..], sep, k - 1);
      var i :| 0 <= i <= |tail| && parts[1..][k - 1] <= tail[i..];
      var offset := |parts[0] + sep|;
      assert whole == parts[0] + sep + tail;
      assert whole[offset + i..] == tail[i..];
      assert parts[k] <= whole[offset + i..];
    }
  }

  /** Joining after appending one more part puts one separator in front of it. */
  lemma {:induction false} JoinSnoc(parts: seq<string>, sep: string)
    requires |parts| >= 2
    ensures Join(parts, sep) == Join(parts[..|parts| - 1], sep) + sep + parts[|parts| - 1]
  {
    if |parts| > 2 {
      JoinSnoc(parts[1..], sep);
      assert parts[1..][..|parts[1..]| - 1] == parts[..|parts| - 1][1..];
    } else {
      assert parts[..|parts| - 1] == [parts[0]];
    }
  }

  /** `s.split(c)` for a one-character separator: the pieces between the
      occurrences of `c`, always at least one. */
  function Split(s: string, c: char): (parts: seq<string>)
    ensures |parts| >= 1
    ensures forall i :: 0 <= i < |parts| ==> c !in parts[i]
    decreases |s|
  {
    if |s| == 0 then [""]
    else
      var rest := Split(s[1..], c);
      if s[0] == c then [""] + rest
      else [[s[0]] + rest[0]] + rest[1..]
  }

  /** Joining the pieces back with the separator restores the string. */
  lemma {:induction false} SplitThenJoin(s: string, c: char)
    ensures Join(Split(s, c), [c]) == s
    decreases |s|
  {
    if |s| > 0 {
      var rest := Split(s[1..], c);
      SplitThenJoin(s[1..], c);
      var parts := Split(s, c);
      if s[0] == c {
        assert parts[1..] == rest;
        assert s == [c] + s[1..];
      } else if |rest| == 1 {
        assert s == [s[0]] + s[1..];
      } else {
        assert parts[1..] == rest[1..];
        assert Join(parts, [c]) == ([s[0]] + rest[0]) + [c] + Join(rest[1..], [c]);
        assert s == [s[0]] + s[1..];
      }
    }
  }

  lemma {:induction false} SplitWithoutSeparator(x: string, c: char)
    requires c !in x
    ensures Split(x, c) == [x]
    decreases |x|
  {
    if |x| > 0 {
      SplitWithoutSeparator(x[1..], c);
      assert x == [x[0]] + x[1..];
    }
  }

  lemma {:induction false} SplitAtFirstSeparator(x: string, y: string, c: char)
    requires c !in x
    ensures Split(x + [c] + y, c) == [x] + Split(y, c)
    decreases |x|
  {
    var s := x + [c] + y;
    if |x| == 0 {
      assert s[1..] == y;
    } else {
      assert s[1..] == x[1..] + [c] + y;
      SplitAtFirstSeparator(x[1..], y, c);
      assert x == [x[0]] + x[1..];
    }
  }

  /** Splitting a join of separator-free parts gives the parts back. */
  lemma {:induction false} JoinThenSplit(parts: seq<string>, c: char)
    requires |parts| >= 1
    requires forall i :: 0 <= i < |parts| ==> c !in parts[i]
    ensures Split(Join(parts, [c]), c) == parts
    decreases |parts|
  {
    if |parts| == 1 {
      SplitWithoutSeparator(parts[0], c);
    } else {
      JoinThenSplit(parts[1..], c);
      SplitAtFirstSeparator(parts[0], Join(parts[1..], [c]), c);
      assert parts == [parts[0]] + parts[1..];
    }
  }

  /** `s.split(c).pop()`: the piece after the last `c`, or all of `s` when
      `c` does not occur. The result is a suffix of `s` that holds no `c`
      and, when `c` occurs in `s`, is directly preceded by one. */
  function LastPart(s: string, c: char): (r: string)
    ensures c !in r
    ensures |r| <= |s| && s == s[..|s| - |r|] + r
    ensures c !in s ==> r == s
    ensures c in s ==> |r| < |s| && s[|s| - |r| - 1] == c
  {
    var parts := Split(s, c);
    SplitThenJoin(s, c);
    if |parts| >= 2 then
      JoinSnoc(parts, [c]);
      parts[|parts| - 1]
    else
      parts[0]
  }

  /** The piece after the last separator is determined by the string alone:
      whatever precedes a separator-free tail does not matter. */
  lemma LastPartOfTail(p: string, e: string, c: char)
    requires c !in e
    ensures LastPart(p + [c] + e, c) == e
  {
    var s := p + [c] + e;
    var r := LastPart(s, c);
    assert s[|p|] == c;
    assert |r| == |e|;
    assert s[|s| - |e|..] == e;
  }

  /** ASCII lower-casing of one character; every other character is kept. */
  function Lower(ch: char): char
  {
    if 'A' <= ch <= 'Z' then (ch as int + 32) as char else ch
  }

  function FoldCase(s: string): (r: string)
    ensures |r| == |s|
  {
    seq(|s|, i requires 0 <= i < |s| => Lower(s[i]))
  }

  /** Whole-string equality up to ASCII letter case. */
  predicate EqualsIgnoreCase(a: string, b: string)
  {
    FoldCase(a) == FoldCase(b)
  }

  function DigitChar(d: nat): (ch: char)
    requires d < 10
    ensures '0' <= ch <= '9'
  {
    "0123456789"[d]
  }

  /** The decimal rendering of a non-negative integer (`String(n)`). */
  function Decimal(n: nat): (r: string)
    ensures |r| >= 1
    ensures forall i :: 0 <= i < |r| ==> '0' <= r[i] <= '9'
    ensures n > 0 ==> r[0] != '0'
  {
    if n < 10 then [DigitChar(n)] else Decimal(n / 10) + [DigitChar(n % 10)]
  }
}
