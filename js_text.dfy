/**
 * The JavaScript string operations the scheduler relies on: decimal text of
 * numbers (template literals), `Number()` on short strings, `split` and
 * `includes`.
 */
module JsText {
  import opened Basics

  predicate IsDigit(c: char) { '0' <= c <= '9' }

  predicate AllDigits(s: string) { forall i :: 0 <= i < |s| ==> IsDigit(s[i]) }

  function DigitChar(d: nat): (c: char)
    requires d < 10
    ensures IsDigit(c) && c as int - '0' as int == d
  {
    ('0' as int + d) as char
  }

  /** Decimal text of a natural number, as `${n}` prints it. */
  function NatToString(n: nat): (s: string)
    ensures |s| > 0 && AllDigits(s)
  {
    if n < 10 then [DigitChar(n)] else NatToString(n / 10) + [DigitChar(n % 10)]
  }

  /** Decimal text of an integer, as `${i}` prints it. */
  function IntToString(i: int): (s: string)
    ensures |s| > 0
    ensures i < 0 <==> s[0] == '-'
  {
    if i < 0 then "-" + NatToString(-i) else NatToString(i)
  }

  /** The value of a string of decimal digits. */
  function DigitsValue(s: string): nat
    requires AllDigits(s)
  {
    if s == [] then 0 else DigitsValue(s[..|s| - 1]) * 10 + (s[|s| - 1] as int - '0' as int)
  }

  lemma {:induction false} DigitsValueOfNatToString(n: nat)
    ensures DigitsValue(NatToString(n)) == n
  {
    if n >= 10 {
      var s := NatToString(n / 10) + [DigitChar(n % 10)];
      assert s[..|s| - 1] == NatToString(n / 10);
      DigitsValueOfNatToString(n / 10);
    }
  }

  /** Distinct numbers print as distinct texts. */
  lemma NatToStringInjective(a: nat, b: nat)
    requires NatToString(a) == NatToString(b)
    ensures a == b
  {
    DigitsValueOfNatToString(a);
    DigitsValueOfNatToString(b);
  }

  /**
   * `Number(s)` for the strings the model reads: the empty string is 0, an
   * optional sign followed by decimal digits is that integer, and anything
   * else is NaN (None).
   */
  function JsNumber(s: string): (r: Option<int>)
    ensures AllDigits(s) ==> r == Some(DigitsValue(s))
    ensures r.Some? && s != [] ==> IsDigit(s[0]) || s[0] == '-' || s[0] == '+'
  {
    if s == "" then Some(0 as int)
    else if |s| > 1 && s[0] == '-' && AllDigits(s[1..]) then Some(0 - DigitsValue(s[1..]) as int)
    else if |s| > 1 && s[0] == '+' && AllDigits(s[1..]) then Some(DigitsValue(s[1..]))
    else if AllDigits(s) then Some(DigitsValue(s))
    else None
  }

  /** `Number()` reads back the decimal text of every natural number. */
  lemma JsNumberOfNatToString(n: nat)
    ensures JsNumber(NatToString(n)) == Some(n)
  {
    DigitsValueOfNatToString(n);
  }

  /** A string of digits holds no other character. */
  lemma DigitsExclude(s: string, c: char)
    requires AllDigits(s) && !IsDigit(c)
    ensures c !in s
  {
  }

  /** `s.split(c)`: the pieces between the separators, always at least one. */
  function Split(s: string, c: char): (parts: seq<string>)
    ensures |parts| >= 1
    ensures forall k :: 0 <= k < |parts| ==> c !in parts[k]
  {
    if s == [] then [""]
    else
      var rest := Split(s[1..], c);
      if s[0] == c then [""] + rest else [[s[0]] + rest[0]] + rest[1..]
  }

  lemma {:induction false} SplitNoSeparator(s: string, c: char)
    requires c !in s
    ensures Split(s, c) == [s]
  {
    if s != [] {
      SplitNoSeparator(s[1..], c);
      assert [s[0]] + s[1..] == s;
    }
  }

  lemma {:induction false} SplitAtSeparator(a: string, c: char, b: string)
    requires c !in a
    ensures Split(a + [c] + b, c) == [a] + Split(b, c)
  {
    if a == [] {
      assert a + [c] + b == [c] + b;
      assert ([c] + b)[1..] == b;
    } else {
      SplitAtSeparator(a[1..], c, b);
      assert (a + [c] + b)[1..] == a[1..] + [c] + b;
      assert [a[0]] + a[1..] == a;
    }
  }

  /** `t.includes(e)`: e occurs somewhere in t. */
  predicate Contains(t: string, e: string)
  {
    e <= t || (t != [] && Contains(t[1..], e))
  }

  lemma {:induction false} ContainsAfterPrefix(p: string, e: string, t: string)
    requires e <= t
    ensures Contains(p + t, e)
  {
    if p == [] {
      assert p + t == t;
    } else {
      ContainsAfterPrefix(p[1..], e, t);
      assert (p + t)[1..] == p[1..] + t;
    }
  }
}
