/** The parts of Java's `String` and `Stream` API that the gateway's
    decisions rest on, with the laws that relate each one to an
    independent description of what it computes. */
module Strings {
  import opened Wrappers

  // ---------------------------------------------------------------------
  // Matching: String.startsWith, String.contains, Stream.anyMatch
  // ---------------------------------------------------------------------

  /** `s.startsWith(p)`. */
  predicate StartsWith(s: string, p: string) {
    |p| <= |s| && s[..|p|] == p
  }

  /** `p` occurs in `s` beginning at index `i`. */
  predicate OccursAt(s: string, p: string, i: int) {
    0 <= i && i + |p| <= |s| && s[i..i + |p|] == p
  }

  /** `s.contains(p)`: tries every start position from the left. */
  predicate Contains(s: string, p: string)
    decreases |s|
  {
    StartsWith(s, p) || (|s| > 0 && Contains(s[1..], p))
  }

  /** `contains` holds exactly when `p` occurs somewhere in `s`. */
  lemma {:induction false} ContainsIff(s: string, p: string)
    ensures Contains(s, p) <==> exists i :: OccursAt(s, p, i)
  {
    if Contains(s, p) {
      if StartsWith(s, p) {
        assert OccursAt(s, p, 0);
      } else {
        ContainsIff(s[1..], p);
        var i :| OccursAt(s[1..], p, i);
        assert s[1..][i..i + |p|] == s[i + 1..i + 1 + |p|];
        assert OccursAt(s, p, i + 1);
      }
    }
    if i :| OccursAt(s, p, i) {
      if i == 0 {
        assert StartsWith(s, p);
      } else {
        assert s[1..][i - 1..i - 1 + |p|] == s[i..i + |p|];
        assert OccursAt(s[1..], p, i - 1);
        ContainsIff(s[1..], p);
      }
    }
  }

  /** `xs.stream().anyMatch(test)`: the elements are tried in order. */
  predicate AnyMatch<T>(xs: seq<T>, test: T -> bool) {
    |xs| > 0 && (test(xs[0]) || AnyMatch(xs[1..], test))
  }

  /** `anyMatch` holds exactly when some element passes the test. */
  lemma {:induction false} AnyMatchIff<T>(xs: seq<T>, test: T -> bool)
    ensures AnyMatch(xs, test) <==> exists i :: 0 <= i < |xs| && test(xs[i])
  {
    if |xs| > 0 {
      AnyMatchIff(xs[1..], test);
      if i :| 0 <= i < |xs| && test(xs[i]) {
        if i > 0 {
          assert xs[1..][i - 1] == xs[i];
        }
      }
      if !test(xs[0]) && AnyMatch(xs[1..], test) {
        var j :| 0 <= j < |xs| - 1 && test(xs[1..][j]);
        assert test(xs[j + 1]);
      }
    }
  }

  // ---------------------------------------------------------------------
  // Cutting and stripping (used by the readers of the response bodies)
  // ---------------------------------------------------------------------

  /** Splits `s` around the first occurrence of `c`, if there is one. */
  function Cut(s: string, c: char): (r: Option<(string, string)>)
    ensures r.Some? <==> c in s
    ensures r.Some? ==> c !in r.value.0 && s == r.value.0 + [c] + r.value.1
  {
    if |s| == 0 then None
    else if s[0] == c then Some(([], s[1..]))
    else match Cut(s[1..], c)
      case None => None
      case Some((before, after)) => Some(([s[0]] + before, after))
  }

  /** Cutting at `c` undoes gluing two pieces with `c` when the first has no `c`. */
  lemma {:induction false} CutGlued(a: string, c: char, b: string)
    requires c !in a
    ensures Cut(a + [c] + b, c) == Some((a, b))
  {
    var s := a + [c] + b;
    if |a| == 0 {
      assert s[1..] == b;
    } else {
      assert s[1..] == a[1..] + [c] + b;
      CutGlued(a[1..], c, b);
      assert [a[0]] + a[1..] == a;
    }
  }

  /** `s` without its prefix `p`, if it has that prefix. */
  function StripPrefix(s: string, p: string): (r: Option<string>)
    ensures r.Some? <==> StartsWith(s, p)
    ensures r.Some? ==> s == p + r.value
  {
    if StartsWith(s, p) then Some(s[|p|..]) else None
  }

  /** `s` without its suffix `p`, if it has that suffix. */
  function StripSuffix(s: string, p: string): (r: Option<string>)
    ensures r.Some? <==> (|p| <= |s| && s[|s| - |p|..] == p)
    ensures r.Some? ==> s == r.value + p
  {
    if |p| <= |s| && s[|s| - |p|..] == p then Some(s[..|s| - |p|]) else None
  }

  lemma StripPrefixGlued(p: string, rest: string)
    ensures StripPrefix(p + rest, p) == Some(rest)
  {
    assert (p + rest)[..|p|] == p;
    assert (p + rest)[|p|..] == rest;
  }

  lemma StripSuffixGlued(s: string, p: string)
    ensures StripSuffix(s + p, p) == Some(s)
  {
    assert (s + p)[|s|..] == p;
    assert (s + p)[..|s|] == s;
  }

  // ---------------------------------------------------------------------
  // String.join and its inverse
  // ---------------------------------------------------------------------

  /** `String.join(sep, xs)`. */
  function Join(sep: string, xs: seq<string>): string {
    if |xs| == 0 then ""
    else if |xs| == 1 then xs[0]
    else xs[0] + sep + Join(sep, xs[1..])
  }

  /** Splits `s` at every `c`; the inverse of joining with `[c]`. */
  function Split(s: string, c: char): (parts: seq<string>)
    ensures |parts| > 0
    decreases |s|
  {
    match Cut(s, c)
    case None => [s]
    case Some((head, rest)) => [head] + Split(rest, c)
  }

  /** Joining a non-empty list of items free of `c` with `c` can be undone
      by splitting at `c`: no item is lost, merged or reordered. */
  lemma {:induction false} SplitJoin(xs: seq<string>, c: char)
    requires |xs| > 0
    requires forall i :: 0 <= i < |xs| ==> c !in xs[i]
    ensures Split(Join([c], xs), c) == xs
  {
    if |xs| == 1 {
      assert Join([c], xs) == xs[0];
    } else {
      var rest := Join([c], xs[1..]);
      assert Join([c], xs) == xs[0] + [c] + rest;
      CutGlued(xs[0], c, rest);
      SplitJoin(xs[1..], c);
    }
  }

  // ---------------------------------------------------------------------
  // Decimal rendering: Long.toString / String.valueOf and its inverse
  // ---------------------------------------------------------------------

  predicate IsDigit(ch: char) {
    48 <= ch as int <= 57
  }

  predicate IsDigits(s: string) {
    |s| > 0 && forall i :: 0 <= i < |s| ==> IsDigit(s[i])
  }

  function DigitChar(d: nat): char
    requires d < 10
  {
    (48 + d) as char
  }

  /** The decimal digits of `n`, most significant first, without leading zeros. */
  function NatToString(n: nat): (s: string)
    ensures IsDigits(s)
    ensures s[0] == '0' ==> n == 0
    decreases n
  {
    if n < 10 then [DigitChar(n)] else NatToString(n / 10) + [DigitChar(n % 10)]
  }

  function DigitValue(ch: char): nat
    requires IsDigit(ch)
  {
    ch as int - 48
  }

  /** The value of a string of decimal digits. */
  function DigitsValue(s: string): nat
    requires forall i :: 0 <= i < |s| ==> IsDigit(s[i])
  {
    if |s| == 0 then 0 else DigitsValue(s[..|s| - 1]) * 10 + DigitValue(s[|s| - 1])
  }

  /** `Long.toString(i)`: a minus sign for negative numbers, then the digits. */
  function IntToString(i: int): string {
    if i < 0 then "-" + NatToString(-i) else NatToString(i)
  }

  /** `Long.parseLong` restricted to the strings `IntToString` produces. */
  function ParseInt(s: string): Option<int> {
    if |s| > 0 && s[0] == '-' && IsDigits(s[1..]) then Some(0 - DigitsValue(s[1..]) as int)
    else if IsDigits(s) then Some(DigitsValue(s))
    else None
  }

  lemma {:induction false} NatToStringRoundTrip(n: nat)
    ensures DigitsValue(NatToString(n)) == n
    decreases n
  {
    var s := NatToString(n);
    if n >= 10 {
      NatToStringRoundTrip(n / 10);
      assert s[..|s| - 1] == NatToString(n / 10);
    }
  }

  /** Parsing the rendering of a number gives the number back. */
  lemma IntToStringRoundTrip(i: int)
    ensures ParseInt(IntToString(i)) == Some(i)
  {
    if i < 0 {
      var s := IntToString(i);
      assert s[1..] == NatToString(-i);
      NatToStringRoundTrip(-i);
    } else {
      NatToStringRoundTrip(i);
    }
  }

  /** Distinct numbers render differently. */
  lemma IntToStringInjective(a: int, b: int)
    ensures IntToString(a) == IntToString(b) ==> a == b
  {
    IntToStringRoundTrip(a);
    IntToStringRoundTrip(b);
  }

  // ---------------------------------------------------------------------
  // ASCII case folding (the key of Spring's case-insensitive header map)
  // ---------------------------------------------------------------------

  function LowerChar(ch: char): char {
    if 'A' <= ch <= 'Z' then (ch as int + 32) as char else ch
  }

  /** The lower-case form under which a header name is stored. */
  function Fold(s: string): (f: string)
    ensures |f| == |s|
    ensures forall i :: 0 <= i < |s| ==> f[i] == LowerChar(s[i])
  {
    seq(|s|, i requires 0 <= i < |s| => LowerChar(s[i]))
  }

  /** A folded name is its own folded form. */
  lemma FoldIdempotent(s: string)
    ensures Fold(Fold(s)) == Fold(s)
  {
    assert forall i :: 0 <= i < |s| ==> LowerChar(LowerChar(s[i])) == LowerChar(s[i]);
  }
}
