/**
 * validate_luhn in cc_service.py: the mod-10 check-digit scheme of
 * ISO/IEC 7812-1 Annex B. The last digit is the check digit; walking the
 * others from the right, the first and every second one is doubled, with 9
 * subtracted from a doubled value above 9.
 */
module Luhn {
  import opened CardNumber

  predicate Decimal(v: seq<nat>) {
    forall i :: 0 <= i < |v| ==> v[i] < 10
  }

  /** `[int(d) for d in s]` */
  function DigitValues(s: string): (v: seq<nat>)
    requires AllDigits(s)
    ensures |v| == |s| && Decimal(v)
  {
    seq(|s|, i requires 0 <= i < |s| => DigitValue(s[i]))
  }

  /** A digit's contribution to the sum: itself, or its double with 9 taken off a value above 9. */
  function Term(d: nat, doubled: bool): (t: nat)
    requires d < 10
    ensures t < 10
  {
    if !doubled then d else if 2 * d > 9 then 2 * d - 9 else 2 * d
  }

  /**
   * The contributions of the digits of `v`. With `doubleLast` the last digit of
   * `v` and every second one to its left are doubled; otherwise the others are.
   */
  function Terms(v: seq<nat>, doubleLast: bool): (t: seq<nat>)
    requires Decimal(v)
    ensures |t| == |v| && Decimal(t)
  {
    seq(|v|, j requires 0 <= j < |v| => Term(v[j], ((|v| - 1 - j) % 2 == 0) == doubleLast))
  }

  /** Python's `sum` over a list of integers. */
  function Sum(v: seq<nat>): nat {
    if v == [] then 0 else v[0] + Sum(v[1..])
  }

  lemma {:induction false} SumSnoc(v: seq<nat>, x: nat)
    ensures Sum(v + [x]) == Sum(v) + x
  {
    if v != [] {
      assert (v + [x])[1..] == v[1..] + [x];
      SumSnoc(v[1..], x);
    }
  }

  /** The check digit a payload calls for: `(10 - total % 10) % 10`. */
  function CheckDigit(payload: seq<nat>): (c: nat)
    requires Decimal(payload)
    ensures c < 10
  {
    (10 - Sum(Terms(payload, true)) % 10) % 10
  }

  /** The verdict of validate_luhn on a non-empty string of digits. */
  predicate LuhnValid(s: string)
    requires s != [] && AllDigits(s)
  {
    CheckDigit(DigitValues(s[..|s| - 1])) == DigitValue(s[|s| - 1])
  }

  /**
   * validate_luhn: pops the check digit off the list of digit values, then
   * doubles the remaining values in place from the right, two positions at a
   * time, and compares the check digit the sum calls for with the one popped.
   * The source raises on an empty string (`pop` from an empty list) and on a
   * non-digit (`int`), hence the requires.
   */
  method ValidateLuhn(ccNumber: string) returns (ok: bool)
    requires ccNumber != [] && AllDigits(ccNumber)
    ensures ok == LuhnValid(ccNumber)
  {
    var digits := DigitValues(ccNumber);
    var lastDigit := digits[|digits| - 1];
    digits := digits[..|digits| - 1];
    ghost var payload := digits;
    var i := |digits| - 1;
    while i >= 0
      invariant -2 <= i < |digits| == |payload|
      invariant (|payload| - 1 - i) % 2 == 0
      invariant forall j :: 0 <= j < |digits| && i < j ==> digits[j] == Term(payload[j], (|payload| - 1 - j) % 2 == 0)
      invariant forall j :: 0 <= j <= i ==> digits[j] == payload[j]
    {
      digits := digits[i := digits[i] * 2];
      if digits[i] > 9 {
        digits := digits[i := digits[i] - 9];
      }
      i := i - 2;
    }
    DoubledInPlace(digits, payload, ccNumber, i);
    var total := Sum(digits);
    var checkDigit := (10 - total % 10) % 10;
    ok := checkDigit == lastDigit;
  }

  /** Once the loop is done, the payload's contributions sum as LuhnValid says. */
  lemma DoubledInPlace(digits: seq<nat>, payload: seq<nat>, s: string, i: int)
    requires s != [] && AllDigits(s) && payload == DigitValues(s)[..|s| - 1]
    requires i < 0 && |digits| == |payload|
    requires forall j :: 0 <= j < |digits| && i < j ==> digits[j] == Term(payload[j], (|payload| - 1 - j) % 2 == 0)
    ensures LuhnValid(s) <==> (10 - Sum(digits) % 10) % 10 == DigitValues(s)[|s| - 1]
  {
    PayloadValues(s);
    assert digits == Terms(payload, true);
  }

  lemma PayloadValues(s: string)
    requires s != [] && AllDigits(s)
    ensures DigitValues(s)[..|s| - 1] == DigitValues(s[..|s| - 1])
  {
  }

  // ---------------------------------------------------------------------
  // The check digit

  lemma DigitValuesAppend(payload: string, c: char)
    requires AllDigits(payload) && IsDigit(c)
    ensures AllDigits(payload + [c])
    ensures (payload + [c])[..|payload|] == payload
    ensures DigitValues(payload + [c]) == DigitValues(payload) + [DigitValue(c)]
  {
    assert (payload + [c])[..|payload|] == payload;
  }

  /** Exactly one digit appended to a payload makes the number pass: the one CheckDigit computes. */
  lemma CheckDigitUnique(payload: string, d: nat)
    requires AllDigits(payload) && d < 10
    ensures AllDigits(payload + [DigitChar(d)])
    ensures LuhnValid(payload + [DigitChar(d)]) <==> d == CheckDigit(DigitValues(payload))
  {
    DigitValuesAppend(payload, DigitChar(d));
  }

  /** The test generator's wrong check digit, `(check + 1) % 10`, always fails. */
  lemma NextCheckDigitFails(payload: string)
    requires AllDigits(payload)
    ensures AllDigits(payload + [DigitChar((CheckDigit(DigitValues(payload)) + 1) % 10)])
    ensures !LuhnValid(payload + [DigitChar((CheckDigit(DigitValues(payload)) + 1) % 10)])
  {
    CheckDigitUnique(payload, (CheckDigit(DigitValues(payload)) + 1) % 10);
  }

  // ---------------------------------------------------------------------
  // The mod-10 formulation of ISO/IEC 7812-1 Annex B

  /**
   * The weighted sum over a whole number, check digit included, walking from
   * the right end: the digit reached first is doubled iff `doubleNext`, and the
   * choice alternates from one digit to the next.
   */
  function WeightedSum(v: seq<nat>, doubleNext: bool): nat
    requires Decimal(v)
  {
    if v == [] then 0
    else Term(v[|v| - 1], doubleNext) + WeightedSum(v[..|v| - 1], !doubleNext)
  }

  /** Dropping the last digit flips which digits are doubled. */
  lemma TermsSnoc(v: seq<nat>, doubleLast: bool)
    requires Decimal(v) && v != []
    ensures Terms(v, doubleLast) == Terms(v[..|v| - 1], !doubleLast) + [Term(v[|v| - 1], doubleLast)]
  {
    var n := |v|;
    var whole := Terms(v, doubleLast);
    var split := Terms(v[..n - 1], !doubleLast) + [Term(v[n - 1], doubleLast)];
    forall j | 0 <= j < n
      ensures whole[j] == split[j]
    {
      if j < n - 1 {
        assert ((n - 1 - j) % 2 == 0) == !((n - 2 - j) % 2 == 0);
      }
    }
  }

  lemma ParityOfSum(x: nat, y: nat)
    ensures ((x + y) % 2 == 0) == ((x % 2 == 0) == (y % 2 == 0))
  {
  }

  /**
   * The contributions over a concatenation: the digits of `b` keep theirs, and
   * those of `a` are doubled as if `a` ended the number, shifted by the parity of |b|.
   */
  lemma TermsAppend(a: seq<nat>, b: seq<nat>, doubleLast: bool)
    requires Decimal(a) && Decimal(b)
    ensures Decimal(a + b)
    ensures Terms(a + b, doubleLast) == Terms(a, doubleLast == (|b| % 2 == 0)) + Terms(b, doubleLast)
  {
    var n := |a| + |b|;
    var whole := Terms(a + b, doubleLast);
    var split := Terms(a, doubleLast == (|b| % 2 == 0)) + Terms(b, doubleLast);
    forall j | 0 <= j < n
      ensures whole[j] == split[j]
    {
      if j < |a| {
        ParityOfSum(|a| - 1 - j, |b|);
      }
    }
  }

  lemma {:induction false} WeightedSumIsSumOfTerms(v: seq<nat>, doubleLast: bool)
    requires Decimal(v)
    ensures WeightedSum(v, doubleLast) == Sum(Terms(v, doubleLast))
  {
    if v != [] {
      var n := |v|;
      WeightedSumIsSumOfTerms(v[..n - 1], !doubleLast);
      TermsSnoc(v, doubleLast);
      SumSnoc(Terms(v[..n - 1], !doubleLast), Term(v[n - 1], doubleLast));
    }
  }

  /** The weighted sum over a concatenation: the doubling of `a` is shifted by the parity of |b|. */
  lemma {:induction false} WeightedSumAppend(a: seq<nat>, b: seq<nat>, doubleNext: bool)
    requires Decimal(a) && Decimal(b)
    ensures Decimal(a + b)
    ensures WeightedSum(a + b, doubleNext) == WeightedSum(a, doubleNext == (|b| % 2 == 0)) + WeightedSum(b, doubleNext)
  {
    if b == [] {
      assert a + b == a;
    } else {
      var m := |b| - 1;
      assert (a + b)[..|a + b| - 1] == a + b[..m];
      WeightedSumAppend(a, b[..m], !doubleNext);
    }
  }

  lemma Mod10Complement(total: nat, c: nat)
    requires c < 10
    ensures (10 - total % 10) % 10 == c <==> (total + c) % 10 == 0
  {
  }

  /**
   * The source's "check digit the payload calls for" test agrees with the
   * standard statement: a number passes iff its weighted sum, check digit
   * included with weight one, is a multiple of 10.
   */
  lemma LuhnValidIffMultipleOfTen(s: string)
    requires s != [] && AllDigits(s)
    ensures LuhnValid(s) <==> WeightedSum(DigitValues(s), false) % 10 == 0
  {
    var n := |s| - 1;
    var v := DigitValues(s);
    assert v[..n] == DigitValues(s[..n]);
    WeightedSumIsSumOfTerms(v[..n], true);
    Mod10Complement(Sum(Terms(v[..n], true)), v[n]);
  }

  // ---------------------------------------------------------------------
  // Single-digit errors are caught

  /** Replacing the digit at `i`, whose doubling is `doubled`, changes the weighted sum by the change in its contribution. */
  lemma {:induction false} WeightedSumUpdate(v: seq<nat>, doubleNext: bool, i: nat, x: nat, doubled: bool)
    requires Decimal(v) && i < |v| && x < 10
    requires doubled == (((|v| - 1 - i) % 2 == 0) == doubleNext)
    ensures Decimal(v[i := x])
    ensures WeightedSum(v[i := x], doubleNext) + Term(v[i], doubled) == WeightedSum(v, doubleNext) + Term(x, doubled)
  {
    var n := |v|;
    var w := v[i := x];
    if i == n - 1 {
      assert w[..n - 1] == v[..n - 1];
    } else {
      assert w[..n - 1] == v[..n - 1][i := x];
      WeightedSumUpdate(v[..n - 1], !doubleNext, i, x, doubled);
    }
  }

  lemma TermInjective(a: nat, b: nat, doubled: bool)
    requires a < 10 && b < 10 && a != b
    ensures Term(a, doubled) != Term(b, doubled)
  {
  }

  lemma ShiftBreaksMultipleOfTen(total: nat, a: nat, b: nat)
    requires a < 10 && b < 10 && a != b && total % 10 == 0 && total + b >= a
    ensures (total + b - a) % 10 != 0
  {
    var k := total / 10;
    assert total == 10 * k;
  }

  /** Changing any one digit of a passing number, the check digit included, makes it fail. */
  lemma SingleDigitErrorDetected(s: string, i: nat, c: char)
    requires s != [] && AllDigits(s) && LuhnValid(s)
    requires i < |s| && IsDigit(c) && c != s[i]
    ensures AllDigits(s[i := c])
    ensures !LuhnValid(s[i := c])
  {
    var t := s[i := c];
    var v := DigitValues(s);
    assert DigitValues(t) == v[i := DigitValue(c)];
    var p := ((|v| - 1 - i) % 2 == 0) == false;
    WeightedSumUpdate(v, false, i, DigitValue(c), p);
    TermInjective(v[i], DigitValue(c), p);
    LuhnValidIffMultipleOfTen(s);
    LuhnValidIffMultipleOfTen(t);
    ShiftBreaksMultipleOfTen(WeightedSum(v, false), Term(v[i], p), Term(DigitValue(c), p));
  }
}
