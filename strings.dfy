/** String helpers shared by the path gate and the blob-name building: prefix tests and Python's str() of an int. */
module Strings {
  predicate StartsWith(s: string, prefix: string) {
    |prefix| <= |s| && s[..|prefix|] == prefix
  }

  predicate EndsWith(s: string, suffix: string) {
    |suffix| <= |s| && s[|s| - |suffix|..] == suffix
  }

  /** A prefix of the tail, behind the same head, is a prefix of the whole. */
  lemma StartsWithAfter(head: string, s: string, prefix: string)
    requires StartsWith(s, prefix)
    ensures StartsWith(head + s, head + prefix)
  {
    assert (head + s)[..|head + prefix|] == head + s[..|prefix|];
  }

  /** A prefix of the head is a prefix of the whole. */
  lemma StartsWithBefore(head: string, tail: string, prefix: string)
    requires StartsWith(head, prefix)
    ensures StartsWith(head + tail, prefix)
  {
    assert (head + tail)[..|prefix|] == head[..|prefix|];
  }

  /** A suffix of the tail is a suffix of the whole. */
  lemma EndsWithAfter(head: string, s: string, suffix: string)
    requires EndsWith(s, suffix)
    ensures EndsWith(head + s, suffix)
  {
    assert (head + s)[|head + s| - |suffix|..] == s[|s| - |suffix|..];
  }

  function DigitChar(d: nat): (c: char)
    requires d < 10
    ensures '0' <= c <= '9' && c as int - '0' as int == d
  {
    "0123456789"[d]
  }

  /** Decimal digits of a natural number, most significant first, no leading zeros. */
  function NaturalString(n: nat): (s: string)
    ensures 0 < |s| && forall i :: 0 <= i < |s| ==> '0' <= s[i] <= '9'
    ensures n < 10 <==> |s| == 1
  {
    if n < 10 then [DigitChar(n)]
    else
      var front := NaturalString(n / 10);
      front + [DigitChar(n % 10)]
  }

  /** Python's str(n) for an int: a minus sign for negatives, then the digits. */
  function DecimalString(n: int): (s: string)
    ensures 0 < |s| && forall i :: 0 <= i < |s| ==> s[i] == '-' || '0' <= s[i] <= '9'
    ensures n < 0 <==> s[0] == '-'
  {
    if n < 0 then "-" + NaturalString(-n) else NaturalString(n)
  }

  lemma {:induction false} NaturalStringInjective(a: nat, b: nat)
    requires NaturalString(a) == NaturalString(b)
    ensures a == b
  {
    if a >= 10 && b >= 10 {
      var sa, sb := NaturalString(a), NaturalString(b);
      assert sa[|sa| - 1] == DigitChar(a % 10) && sb[|sb| - 1] == DigitChar(b % 10);
      assert sa[..|sa| - 1] == NaturalString(a / 10) && sb[..|sb| - 1] == NaturalString(b / 10);
      NaturalStringInjective(a / 10, b / 10);
    } else if a < 10 && b < 10 {
      assert NaturalString(a)[0] == DigitChar(a);
    }
  }

  /** Distinct ints print differently. */
  lemma DecimalStringInjective(a: int, b: int)
    requires DecimalString(a) == DecimalString(b)
    ensures a == b
  {
    if a < 0 && b < 0 {
      assert DecimalString(a)[1..] == NaturalString(-a) && DecimalString(b)[1..] == NaturalString(-b);
      NaturalStringInjective(-a, -b);
    } else if a >= 0 && b >= 0 {
      NaturalStringInjective(a, b);
    }
  }
}
