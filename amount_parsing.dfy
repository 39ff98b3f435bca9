/**
 * The amount validator shared by the ledger (`parseDepositAmount`) and the
 * bank simulator (`parseAmount`): both take an untyped request field and
 * return a positive bigint or null.
 */
module AmountParsing {
  import opened Wrappers
  import Decimal

  /** A JavaScript number: a finite double (taken as its exact real value) or NaN/±Infinity. */
  datatype JsNumber = Finite(r: real) | NotFinite

  /** The dynamic type of `req.body.amount`; every other JSON value is `OtherValue`. */
  datatype RawAmount =
    | BigIntValue(i: int)
    | NumberValue(n: JsNumber)
    | StringValue(s: string)
    | OtherValue

  /** The characters `String.prototype.trim` removes: WhiteSpace and LineTerminator. */
  predicate IsTrimmable(c: char)
  {
    || c == '\t' || c == '\n' || c == '\U{000B}' || c == '\U{000C}' || c == '\r' || c == ' '
    || c == '\U{00A0}' || c == '\U{1680}' || ('\U{2000}' <= c <= '\U{200A}')
    || c == '\U{2028}' || c == '\U{2029}' || c == '\U{202F}' || c == '\U{205F}'
    || c == '\U{3000}' || c == '\U{FEFF}'
  }

  function TrimStart(s: string): (t: string)
    ensures |t| <= |s| && t == s[|s| - |t|..]
    ensures |t| > 0 ==> !IsTrimmable(t[0])
    ensures forall i :: 0 <= i < |s| - |t| ==> IsTrimmable(s[i])
  {
    if |s| > 0 && IsTrimmable(s[0]) then TrimStart(s[1..]) else s
  }

  function TrimEnd(s: string): (t: string)
    ensures |t| <= |s| && t == s[..|t|]
    ensures |t| > 0 ==> !IsTrimmable(t[|t| - 1])
    ensures forall i :: |t| <= i < |s| ==> IsTrimmable(s[i])
  {
    if |s| > 0 && IsTrimmable(s[|s| - 1]) then TrimEnd(s[..|s| - 1]) else s
  }

  /** `s.trim()`: the longest middle part of `s` that neither starts nor ends with white space. */
  function Trim(s: string): (t: string)
    ensures |t| > 0 ==> !IsTrimmable(t[0]) && !IsTrimmable(t[|t| - 1])
  {
    TrimEnd(TrimStart(s))
  }

  /** What `trim` drops is white space, from the two ends only: the result is a slice of the input. */
  lemma TrimIsMiddle(s: string)
    ensures exists i, j :: (0 <= i <= j <= |s| && Trim(s) == s[i..j]
      && (forall k :: 0 <= k < i ==> IsTrimmable(s[k])) && (forall k :: j <= k < |s| ==> IsTrimmable(s[k])))
  {
    var u := TrimStart(s);
    var i := |s| - |u|;
    var t := TrimEnd(u);
    var j := i + |t|;
    assert t == s[i..j];
    assert forall k :: 0 <= k < i ==> IsTrimmable(s[k]);
    assert forall k :: j <= k < |s| ==> IsTrimmable(s[k]) by {
      forall k | j <= k < |s| ensures IsTrimmable(s[k]) {
        assert s[k] == u[k - i];
      }
    }
  }

  /** `/^[0-9]+$/.test(s)` */
  predicate MatchesDigits(s: string)
  {
    |s| > 0 && Decimal.AllDigits(s)
  }

  /** `parseDepositAmount` / `parseAmount`. */
  function ParseAmount(raw: RawAmount): (r: Option<int>)
    ensures r.Some? ==> r.value > 0
  {
    match raw
    case BigIntValue(i) => if i > 0 then Some(i) else None
    case NumberValue(n) =>
      if !n.Finite? || n.r <= 0.0 || n.r != n.r.Floor as real then None else Some(n.r.Floor)
    case StringValue(s) =>
      var trimmed := Trim(s);
      if !MatchesDigits(trimmed) then None
      else
        var value := Decimal.Value(trimmed);
        if value > 0 then Some(value) else None
    case OtherValue => None
  }

  /**
   * The string rule: a string is accepted exactly when, once trimmed, it is a
   * non-empty run of decimal digits that are not all '0'; the amount is the
   * number those digits denote.
   */
  lemma StringRule(s: string)
    ensures ParseAmount(StringValue(s)).Some? <==>
      (MatchesDigits(Trim(s)) && exists i :: 0 <= i < |Trim(s)| && Trim(s)[i] != '0')
    ensures ParseAmount(StringValue(s)).Some? ==> ParseAmount(StringValue(s)).value == Decimal.Value(Trim(s))
  {
    if Decimal.AllDigits(Trim(s)) {
      Decimal.ValuePositive(Trim(s));
    }
  }

  /** A JavaScript number is accepted exactly when it is a positive integer, and keeps its value. */
  lemma NumberRule(n: JsNumber)
    ensures ParseAmount(NumberValue(n)).Some? <==> (n.Finite? && n.r > 0.0 && n.r == n.r.Floor as real)
    ensures ParseAmount(NumberValue(n)).Some? ==> ParseAmount(NumberValue(n)).value as real == n.r
  {
  }

  /** A string without surrounding white space is left alone by `trim`. */
  lemma {:induction false} TrimUntrimmed(s: string)
    requires |s| > 0 ==> !IsTrimmable(s[0]) && !IsTrimmable(s[|s| - 1])
    ensures Trim(s) == s
  {
  }

  /**
   * What the ledger puts on the wire for a positive amount (`amount.toString()`)
   * is accepted by the validator with the same amount.
   */
  lemma RenderedAmountAccepted(n: nat)
    requires n > 0
    ensures ParseAmount(StringValue(Decimal.Render(n))) == Some(n)
  {
    var s := Decimal.Render(n);
    TrimUntrimmed(s);
    Decimal.ValueOfRender(n);
  }

  /** A string with no surrounding white space and a non-digit in it is rejected. */
  lemma NonDigitRejected(s: string, i: nat)
    requires |s| > 0 && !IsTrimmable(s[0]) && !IsTrimmable(s[|s| - 1])
    requires i < |s| && !Decimal.IsDigit(s[i])
    ensures ParseAmount(StringValue(s)) == None
  {
    TrimUntrimmed(s);
  }

  /** Strings the validator must reject: zero, a fraction, a negative number, letters, nothing. */
  lemma RejectedExamples()
    ensures ParseAmount(StringValue("0")) == None
    ensures ParseAmount(StringValue("12.5")) == None
    ensures ParseAmount(StringValue("-5")) == None
    ensures ParseAmount(StringValue("abc")) == None
    ensures ParseAmount(StringValue("")) == None
  {
    NonDigitRejected("12.5", 2);
    NonDigitRejected("-5", 0);
    NonDigitRejected("abc", 0);
    StringRule("0");
    TrimUntrimmed("0");
  }

  predicate AllTrimmable(s: string)
  {
    forall i :: 0 <= i < |s| ==> IsTrimmable(s[i])
  }

  /** `trim` removes exactly the white space padding around a string that has none of its own at its ends. */
  lemma {:induction false} TrimPadded(pre: string, s: string, post: string)
    requires AllTrimmable(pre) && AllTrimmable(post)
    requires |s| > 0 && !IsTrimmable(s[0]) && !IsTrimmable(s[|s| - 1])
    ensures Trim(pre + s + post) == s
    decreases |pre| + |post|
  {
    if |pre| > 0 {
      assert (pre + s + post)[1..] == pre[1..] + s + post;
      TrimPadded(pre[1..], s, post);
      assert TrimStart(pre + s + post) == TrimStart(pre[1..] + s + post);
    } else if |post| > 0 {
      var q := post[..|post| - 1];
      assert (s + post)[..|s + post| - 1] == s + q;
      assert pre + s + post == s + post;
      TrimPadded(pre, s, q);
      assert pre + s + q == s + q;
      assert TrimStart(s + post) == s + post;
      assert TrimStart(s + q) == s + q;
    } else {
      assert pre + s + post == s;
      TrimUntrimmed(s);
    }
  }

  /** An amount surrounded by white space is accepted with its value. */
  lemma PaddedAmountAccepted(pre: string, n: nat, post: string)
    requires n > 0 && AllTrimmable(pre) && AllTrimmable(post)
    ensures ParseAmount(StringValue(pre + Decimal.Render(n) + post)) == Some(n)
  {
    TrimPadded(pre, Decimal.Render(n), post);
    Decimal.ValueOfRender(n);
  }

  /** Surrounding white space is dropped before the digits are read. */
  lemma AcceptedExample()
    ensures ParseAmount(StringValue(" 500\n")) == Some(500)
  {
    assert Decimal.Render(500) == "500";
    assert " " + "500" + "\n" == " 500\n";
    PaddedAmountAccepted(" ", 500, "\n");
  }
}
