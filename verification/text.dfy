/** String helpers: decimal rendering of naturals and Python's `str.join`. */
module Strings {

  predicate IsDigit(c: char)
  {
    '0' <= c <= '9'
  }

  predicate AllDigits(s: string)
  {
    forall i :: 0 <= i < |s| ==> IsDigit(s[i])
  }

  function DigitChar(d: nat): (c: char)
    requires d < 10
    ensures IsDigit(c)
  {
    ('0' as int + d) as char
  }

  function DigitValue(c: char): nat
    requires IsDigit(c)
  {
    c as int - '0' as int
  }

  /** Reads a string of decimal digits back as a number (most significant digit first). */
  function ParseDecimal(s: string): nat
    requires AllDigits(s)
  {
    if |s| == 0 then 0 else 10 * ParseDecimal(s[..|s| - 1]) + DigitValue(s[|s| - 1])
  }

  /** The decimal text of `n`, as Python's f'{n}' renders a non-negative int:
      digits only, no leading zero, and it reads back as `n`. */
  function NatToString(n: nat): (s: string)
    ensures |s| >= 1
    ensures AllDigits(s)
    ensures |s| > 1 ==> s[0] != '0'
    ensures ParseDecimal(s) == n
  {
    if n < 10 then [DigitChar(n)]
    else
      var high := NatToString(n / 10);
      var s := high + [DigitChar(n % 10)];
      assert s[..|s| - 1] == high;
      s
  }

  /** Distinct naturals have distinct decimal texts. */
  lemma {:induction false} NatToStringInjective(m: nat, n: nat)
    requires NatToString(m) == NatToString(n)
    ensures m == n
  {
  }

  /** `s` ends with `suffix`. */
  predicate EndsWith(s: string, suffix: string)
  {
    |suffix| <= |s| && s[|s| - |suffix|..] == suffix
  }

  /** A text assembled as head, body, tail starts with the head and ends with the tail. */
  lemma {:induction false} Framed(head: string, body: string, tail: string)
    ensures head <= head + body + tail
    ensures EndsWith(head + body + tail, tail)
  {
    var s := head + body + tail;
    assert s[..|head|] == head;
    assert s[|s| - |tail|..] == tail;
  }

  /** A concatenation splits back at the length of its first part. */
  lemma {:induction false} SplitAt(a: string, b: string)
    ensures a <= a + b && (a + b)[|a|..] == b
  {
    assert (a + b)[..|a|] == a;
  }

  lemma {:induction false} Regroup(a: string, b: string, c: string)
    ensures a + (b + c) == a + b + c
  {
  }

  /** Python's `sep.join(parts)`. */
  function Join(sep: string, parts: seq<string>): string
  {
    if |parts| == 0 then ""
    else if |parts| == 1 then parts[0]
    else parts[0] + sep + Join(sep, parts[1..])
  }

  /** Two parts joined: the first, the separator, the second. */
  lemma {:induction false} JoinTwo(sep: string, a: string, b: string)
    ensures Join(sep, [a, b]) == a + sep + b
  {
    assert [a, b][1..] == [b];
  }

  /** Joining two non-empty lists is joining each and putting one separator between:
      the parts of `a` all come before the parts of `b` in the text. */
  lemma {:induction false} JoinConcat(sep: string, a: seq<string>, b: seq<string>)
    requires |a| > 0 && |b| > 0
    ensures Join(sep, a + b) == Join(sep, a) + sep + Join(sep, b)
  {
    if |a| == 1 {
      assert (a + b)[1..] == b;
    } else {
      assert (a + b)[1..] == a[1..] + b;
      JoinConcat(sep, a[1..], b);
    }
  }
}
