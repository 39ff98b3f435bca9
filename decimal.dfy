/**
 * Decimal digit strings and the natural numbers they denote: the model of
 * `BigInt(digits)` and of `bigint.toString()`, which the services use to put
 * amounts on the wire and back.
 */
module Decimal {

  predicate IsDigit(c: char)
  {
    '0' <= c <= '9'
  }

  predicate AllDigits(s: string)
  {
    forall i :: 0 <= i < |s| ==> IsDigit(s[i])
  }

  /** A digit string with no superfluous leading zero: what `toString()` produces. */
  predicate Canonical(s: string)
  {
    |s| > 0 && AllDigits(s) && (s[0] == '0' ==> |s| == 1)
  }

  function DigitValue(c: char): (d: nat)
    requires IsDigit(c)
    ensures d < 10
  {
    (c as int) - ('0' as int)
  }

  function DigitChar(d: nat): (c: char)
    requires d < 10
    ensures IsDigit(c) && DigitValue(c) == d
  {
    (('0' as int) + d) as char
  }

  /** The number a digit string denotes, read most significant digit first (`BigInt(s)`). */
  function Value(s: string): nat
    requires AllDigits(s)
  {
    if |s| == 0 then 0 else Value(s[..|s| - 1]) * 10 + DigitValue(s[|s| - 1])
  }

  /** `n.toString()` for a non-negative bigint. */
  function Render(n: nat): (s: string)
    ensures Canonical(s)
    decreases n
  {
    if n < 10 then [DigitChar(n)] else Render(n / 10) + [DigitChar(n % 10)]
  }

  /** `i.toString()` for any bigint: a minus sign in front of the magnitude when negative. */
  function RenderSigned(i: int): (s: string)
    ensures |s| > 0 && (s[0] == '-' <==> i < 0)
  {
    if i >= 0 then Render(i) else "-" + Render(-i)
  }

  /** Reading back what `toString()` wrote gives the number again. */
  lemma {:induction false} ValueOfRender(n: nat)
    ensures Value(Render(n)) == n
    decreases n
  {
    var s := Render(n);
    if n >= 10 {
      ValueOfRender(n / 10);
      assert s[..|s| - 1] == Render(n / 10);
    }
  }

  /** A value is positive exactly when one of its digits is not '0'. */
  lemma {:induction false} ValuePositive(s: string)
    requires AllDigits(s)
    ensures Value(s) > 0 <==> exists i :: 0 <= i < |s| && s[i] != '0'
  {
    if |s| > 0 {
      var p := s[..|s| - 1];
      ValuePositive(p);
      if exists i :: 0 <= i < |p| && p[i] != '0' {
        var i :| 0 <= i < |p| && p[i] != '0';
        assert s[i] != '0';
      }
      if exists i :: 0 <= i < |s| && s[i] != '0' {
        var i :| 0 <= i < |s| && s[i] != '0';
        if i < |p| { assert p[i] != '0'; }
      }
    }
  }

  /** A canonical string of two or more digits denotes at least 10. */
  lemma {:induction false} CanonicalLowerBound(s: string)
    requires Canonical(s) && |s| >= 2
    ensures Value(s) >= 10
  {
    var p := s[..|s| - 1];
    assert p[0] == s[0] != '0';
    ValuePositive(p);
  }

  /** Rendering the value of a canonical digit string gives that string back. */
  lemma {:induction false} RenderOfValue(s: string)
    requires Canonical(s)
    ensures Render(Value(s)) == s
    decreases |s|
  {
    var n := Value(s);
    if |s| == 1 {
      assert s[..|s| - 1] == [];
      assert Value(s[..|s| - 1]) == 0;
      assert n == DigitValue(s[0]);
      assert Render(n) == [s[0]];
    } else {
      var p := s[..|s| - 1];
      CanonicalLowerBound(s);
      assert p[0] == s[0];
      assert Canonical(p);
      assert n / 10 == Value(p) && n % 10 == DigitValue(s[|s| - 1]);
      RenderOfValue(p);
      assert s == p + [s[|s| - 1]];
    }
  }
}
