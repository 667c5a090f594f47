/** Small shared vocabulary: optional values, fallible results, bytes and
    the handful of string operations the modelled sources use. */
module Prelude {

  datatype Option<+T> = None | Some(value: T)

  datatype Result<+T, +E> = Ok(value: T) | Err(error: E)

  /** An octet as read from or written to a socket or a pipe. */
  newtype byte = x: int | 0 <= x < 256

  /** `s` occurs somewhere inside `t`. */
  predicate Contains<T(==)>(t: seq<T>, s: seq<T>)
  {
    exists i | 0 <= i <= |t| - |s| :: OccursAt(t, s, i)
  }

  /** `s` occurs inside `t` starting at index `i`. */
  predicate OccursAt<T(==)>(t: seq<T>, s: seq<T>, i: int)
  {
    0 <= i <= |t| - |s| && t[i..i + |s|] == s
  }

  predicate StartsWith<T(==)>(t: seq<T>, prefix: seq<T>)
  {
    |prefix| <= |t| && t[..|prefix|] == prefix
  }

  predicate EndsWith<T(==)>(t: seq<T>, suffix: seq<T>)
  {
    |suffix| <= |t| && t[|t| - |suffix|..] == suffix
  }

  /** Rust's `str::replace` and Python's `str.replace` for a one-character
      pattern: every occurrence of `from` becomes `to`. */
  function ReplaceChar(s: string, from: char, to: char): (r: string)
    ensures |r| == |s|
    ensures forall i :: 0 <= i < |s| ==> r[i] == (if s[i] == from then to else s[i])
  {
    if s == [] then [] else [if s[0] == from then to else s[0]] + ReplaceChar(s[1..], from, to)
  }

  /** The index of the first `c` in `s`, or `|s|` when there is none. */
  function IndexOf(s: string, c: char): (i: nat)
    ensures i <= |s|
    ensures i < |s| ==> s[i] == c
    ensures forall j :: 0 <= j < i ==> s[j] != c
  {
    if s == [] then 0 else if s[0] == c then 0 else 1 + IndexOf(s[1..], c)
  }

  lemma ReplaceCharAbsent(s: string, from: char, to: char)
    requires from !in s
    ensures ReplaceChar(s, from, to) == s
  {
  }

  lemma {:induction false} ReplaceCharAppend(a: string, b: string, from: char, to: char)
    ensures ReplaceChar(a + b, from, to) == ReplaceChar(a, from, to) + ReplaceChar(b, from, to)
  {
    var l, r := ReplaceChar(a + b, from, to), ReplaceChar(a, from, to) + ReplaceChar(b, from, to);
    assert |l| == |r|;
    forall i | 0 <= i < |l|
      ensures l[i] == r[i]
    {
      if i < |a| {
        assert (a + b)[i] == a[i];
      } else {
        assert (a + b)[i] == b[i - |a|];
      }
    }
  }

  /** Decimal rendering of a natural number, as Rust's and Python's integer
      formatting write it (no sign, no leading zeros). */
  function NatToDecimal(n: nat): (r: string)
    ensures |r| >= 1
    ensures forall i :: 0 <= i < |r| ==> '0' <= r[i] <= '9'
    ensures n >= 10 ==> r[0] != '0'
    decreases n
  {
    if n < 10 then [DigitChar(n)] else NatToDecimal(n / 10) + [DigitChar(n % 10)]
  }

  function DigitChar(d: nat): (c: char)
    requires d < 10
    ensures '0' <= c <= '9'
  {
    (48 + d) as char
  }

  function DigitValue(c: char): (d: nat)
    requires '0' <= c <= '9'
    ensures d < 10
  {
    (c as int - 48) as nat
  }

  /** The value of a non-empty string of decimal digits (Python's `int()` on
      the digits a regular expression `\d+` matched). */
  function DecimalValue(s: string): nat
    requires forall i :: 0 <= i < |s| ==> '0' <= s[i] <= '9'
  {
    if s == [] then 0 else DecimalValue(s[..|s| - 1]) * 10 + DigitValue(s[|s| - 1])
  }

  /** Reading back what `NatToDecimal` wrote gives the number. */
  lemma {:induction false} DecimalRoundTrip(n: nat)
    ensures DecimalValue(NatToDecimal(n)) == n
    decreases n
  {
    var r := NatToDecimal(n);
    if n >= 10 {
      DecimalRoundTrip(n / 10);
      assert r[..|r| - 1] == NatToDecimal(n / 10);
    }
  }

  // Facts about concatenation, stated once over arbitrary sequences so that
  // proofs about long string constants never compare them element by element.

  lemma PrefixOfConcat<T>(a: seq<T>, b: seq<T>)
    ensures StartsWith(a + b, a)
  {
    assert (a + b)[..|a|] == a;
  }

  lemma SuffixOfConcat<T>(a: seq<T>, b: seq<T>)
    ensures EndsWith(a + b, b)
  {
    assert (a + b)[|a + b| - |b|..] == b;
  }

  lemma OccursInMiddle<T>(a: seq<T>, b: seq<T>, c: seq<T>)
    ensures OccursAt(a + b + c, b, |a|)
  {
    assert (a + b + c)[|a|..|a| + |b|] == b;
  }

  lemma ContainsExtend<T>(t: seq<T>, s: seq<T>, a: seq<T>, b: seq<T>)
    requires Contains(t, s)
    ensures Contains(a + t + b, s)
  {
    var i :| 0 <= i <= |t| - |s| && OccursAt(t, s, i);
    assert (a + t + b)[|a| + i..|a| + i + |s|] == t[i..i + |s|];
    assert OccursAt(a + t + b, s, |a| + i);
  }

  lemma ContainsSuffix<T>(a: seq<T>, b: seq<T>)
    ensures Contains(a + b, b)
  {
    assert (a + b)[|a|..|a| + |b|] == b;
    assert OccursAt(a + b, b, |a|);
  }

  lemma ContainsInPrefix<T>(a: seq<T>, b: seq<T>, s: seq<T>)
    requires Contains(a, s)
    ensures Contains(a + b, s)
  {
    var i :| 0 <= i <= |a| - |s| && OccursAt(a, s, i);
    assert (a + b)[i..i + |s|] == a[i..i + |s|];
    assert OccursAt(a + b, s, i);
  }

  /** A prefix of a prefix is a prefix; two texts that differ at a position
      inside `prefix` cannot both start with it. */
  lemma StartsWithConcat<T>(a: seq<T>, b: seq<T>, prefix: seq<T>)
    requires StartsWith(a, prefix)
    ensures StartsWith(a + b, prefix)
  {
    assert (a + b)[..|prefix|] == a[..|prefix|];
  }

  lemma NotStartsWith<T>(t: seq<T>, prefix: seq<T>, k: nat)
    requires k < |prefix| && k < |t| && t[k] != prefix[k]
    ensures !StartsWith(t, prefix)
  {
  }

  lemma DropConcat<T>(a: seq<T>, b: seq<T>)
    ensures (a + b)[|a|..] == b
  {
  }

  lemma AppendAssoc<T>(a: seq<T>, b: seq<T>, c: seq<T>)
    ensures a + b + c == a + (b + c)
  {
  }
}
