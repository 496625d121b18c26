/**
 * Decimal rendering of a non-negative integer, as Go's `%d` verb writes a
 * loop index, together with its inverse. The inverse is what makes the
 * index-derived artifact names collision-free.
 */
module Decimal {

  import opened Wrappers

  predicate IsDigit(c: char)
  {
    '0' <= c <= '9'
  }

  predicate IsDigits(s: string)
  {
    forall k :: 0 <= k < |s| ==> IsDigit(s[k])
  }

  /** The form `%d` produces: non-empty, only digits, no leading zero unless the number is 0 */
  predicate IsCanonical(s: string)
  {
    && |s| > 0
    && IsDigits(s)
    && (s[0] == '0' ==> |s| == 1)
  }

  function DigitValue(c: char): (d: nat)
    requires IsDigit(c)
    ensures d < 10
  {
    c as int - '0' as int
  }

  function DigitChar(d: nat): (c: char)
    requires d < 10
    ensures IsDigit(c) && DigitValue(c) == d
  {
    ('0' as int + d) as char
  }

  /** `fmt.Sprintf("%d", n)` for n >= 0 */
  function Show(n: nat): (s: string)
    ensures IsCanonical(s)
    ensures s[0] == '0' ==> n == 0
  {
    if n < 10 then [DigitChar(n)] else Show(n / 10) + [DigitChar(n % 10)]
  }

  /** The number a string of digits denotes (most significant digit first) */
  function Value(s: string): nat
    requires IsDigits(s)
  {
    if s == [] then 0 else Value(s[..|s| - 1]) * 10 + DigitValue(s[|s| - 1])
  }

  /** Reads back a canonical decimal; anything else is rejected */
  function Parse(s: string): Option<nat>
  {
    if IsCanonical(s) then Some(Value(s)) else None
  }

  lemma {:induction false} ValueOfShow(n: nat)
    ensures Value(Show(n)) == n
  {
    if n >= 10 {
      var s := Show(n);
      assert s[..|s| - 1] == Show(n / 10);
      ValueOfShow(n / 10);
    }
  }

  /** Parsing undoes rendering */
  lemma ParseShow(n: nat)
    ensures Parse(Show(n)) == Some(n)
  {
    ValueOfShow(n);
  }

  lemma {:induction false} ValueAtLeastOne(s: string)
    requires |s| > 0 && IsDigits(s) && s[0] != '0'
    ensures Value(s) >= 1
  {
    if |s| > 1 {
      ValueAtLeastOne(s[..|s| - 1]);
    }
  }

  /** Rendering undoes parsing: every string Parse accepts is exactly the rendering of its value */
  lemma {:induction false} ShowParse(s: string, n: nat)
    requires Parse(s) == Some(n)
    ensures Show(n) == s
  {
    if |s| == 1 {
      assert Value(s) == DigitValue(s[0]);
    } else {
      var prefix := s[..|s| - 1];
      assert prefix[0] == s[0];
      ValueAtLeastOne(prefix);
      ShowParse(prefix, Value(prefix));
      assert n / 10 == Value(prefix) && n % 10 == DigitValue(s[|s| - 1]);
      assert s == prefix + [s[|s| - 1]];
    }
  }

  /** Distinct numbers render to distinct strings */
  lemma ShowInjective(a: nat, b: nat)
    ensures Show(a) == Show(b) <==> a == b
  {
    ParseShow(a);
    ParseShow(b);
  }
}
