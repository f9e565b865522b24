/** Small value-level helpers shared by the graph builder and the fusion pass:
    an Option type (Python's `None`), newline joining and splitting, decimal
    rendering of node ids (`str(x)`), ASCII upper-casing and path base names. */
module Common {

  /** Python's `None` / a present value. */
  datatype Option<+T> = None | Some(value: T)

  // ---------------------------------------------------------------------------
  // Joining and splitting on a separator character

  /** `sep.join(xs)` for a one-character separator. */
  function Join(xs: seq<string>, sep: char): string
  {
    if |xs| == 0 then ""
    else if |xs| == 1 then xs[0]
    else xs[0] + [sep] + Join(xs[1..], sep)
  }

  /** `s.split(sep)` for a one-character separator: always at least one part. */
  function Split(s: string, sep: char): (parts: seq<string>)
    ensures |parts| >= 1
  {
    if |s| == 0 then [""]
    else
      var rest := Split(s[1..], sep);
      if s[0] == sep then [""] + rest
      else [[s[0]] + rest[0]] + rest[1..]
  }

  lemma {:induction false} SplitNoSeparator(s: string, sep: char)
    requires sep !in s
    ensures Split(s, sep) == [s]
  {
    if |s| > 0 {
      assert sep !in s[1..];
      SplitNoSeparator(s[1..], sep);
      assert [s[0]] + s[1..] == s;
    }
  }

  lemma {:induction false} SplitAtFirstSeparator(x: string, y: string, sep: char)
    requires sep !in x
    ensures Split(x + [sep] + y, sep) == [x] + Split(y, sep)
  {
    if |x| == 0 {
      assert x + [sep] + y == [sep] + y;
      assert ([sep] + y)[1..] == y;
    } else {
      var s := x + [sep] + y;
      assert s[1..] == x[1..] + [sep] + y;
      assert sep !in x[1..];
      SplitAtFirstSeparator(x[1..], y, sep);
      assert [x[0]] + x[1..] == x;
    }
  }

  /** Splitting a join on the same separator gives the parts back, provided
      no part contains the separator and there is at least one part. */
  lemma {:induction false} SplitJoin(xs: seq<string>, sep: char)
    requires |xs| >= 1
    requires forall i :: 0 <= i < |xs| ==> sep !in xs[i]
    ensures Split(Join(xs, sep), sep) == xs
  {
    if |xs| == 1 {
      SplitNoSeparator(xs[0], sep);
    } else {
      SplitAtFirstSeparator(xs[0], Join(xs[1..], sep), sep);
      SplitJoin(xs[1..], sep);
      assert [xs[0]] + xs[1..] == xs;
    }
  }

  // ---------------------------------------------------------------------------
  // Decimal rendering of natural numbers, `str(n)`

  predicate IsDigit(c: char)
  {
    '0' <= c <= '9'
  }

  function DigitChar(d: nat): (c: char)
    requires d < 10
    ensures IsDigit(c)
  {
    (('0' as int) + d) as char
  }

  /** `str(n)` for a non-negative Python int: its decimal digits, no sign. */
  function NatToString(n: nat): (s: string)
    ensures |s| >= 1
    ensures forall i :: 0 <= i < |s| ==> IsDigit(s[i])
    ensures n >= 10 ==> |s| >= 2
  {
    if n < 10 then [DigitChar(n)] else NatToString(n / 10) + [DigitChar(n % 10)]
  }

  /** Two different numbers never print the same. */
  lemma {:induction false} NatToStringInjective(a: nat, b: nat)
    requires NatToString(a) == NatToString(b)
    ensures a == b
  {
    var sa, sb := NatToString(a), NatToString(b);
    if a < 10 && b < 10 {
      assert sa[0] == sb[0];
    } else if a >= 10 && b >= 10 {
      assert sa[|sa| - 1] == sb[|sb| - 1];
      assert a % 10 == b % 10;
      assert NatToString(a / 10) == sa[..|sa| - 1] == sb[..|sb| - 1] == NatToString(b / 10);
      NatToStringInjective(a / 10, b / 10);
    }
  }

  // ---------------------------------------------------------------------------
  // Substrings, upper-casing, path names

  /** Python's `p in s` for strings. */
  predicate Contains(s: string, p: string)
  {
    exists i :: 0 <= i <= |s| && p <= s[i..]
  }

  predicate IsSuffix(p: string, s: string)
  {
    |p| <= |s| && s[|s| - |p|..] == p
  }

  function UpperChar(c: char): char
  {
    if 'a' <= c <= 'z' then (c as int - 32) as char else c
  }

  /** `s.upper()` on the ASCII letters. */
  function Upper(s: string): (r: string)
    ensures |r| == |s|
    ensures forall i :: 0 <= i < |s| ==> r[i] == UpperChar(s[i])
  {
    seq(|s|, i requires 0 <= i < |s| => UpperChar(s[i]))
  }

  /** `path.split('/')[-1]`: the longest suffix of `path` without a '/'. */
  function BaseName(path: string): (r: string)
    ensures '/' !in r
    ensures IsSuffix(r, path)
    ensures |r| < |path| ==> path[|path| - |r| - 1] == '/'
  {
    if |path| == 0 || path[|path| - 1] == '/' then ""
    else BaseName(path[..|path| - 1]) + [path[|path| - 1]]
  }
}
