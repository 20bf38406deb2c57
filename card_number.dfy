/**
 * The three leading checks of the card pipeline in cc_service.py: normalising
 * the raw number (format_cc), classifying the issuer by its digit prefix
 * (validate_card_type) and checking the number's length against the issuer
 * (valid_card_length). Only the ASCII digits '0'..'9' count as digits.
 */
module CardNumber {
  import opened Wrappers

  predicate IsDigit(c: char) {
    '0' <= c <= '9'
  }

  predicate AllDigits(s: string) {
    forall i :: 0 <= i < |s| ==> IsDigit(s[i])
  }

  function DigitValue(c: char): (d: nat)
    requires IsDigit(c)
    ensures d < 10
  {
    c as int - '0' as int
  }

  function DigitChar(d: nat): (c: char)
    requires d < 10
    ensures IsDigit(c) && DigitValue(c) == d
  {
    ('0' as int + d) as char
  }

  /** The value Python's `int` gives a string of decimal digits. */
  function Number(s: string): nat
    requires AllDigits(s)
  {
    if s == [] then 0 else 10 * Number(s[..|s| - 1]) + DigitValue(s[|s| - 1])
  }

  // ---------------------------------------------------------------------
  // format_cc

  /** `re.sub(r"[^\d]", "", s)`: what is left of `s` once every non-digit is removed. */
  function Digits(s: string): (r: string)
    ensures AllDigits(r)
    ensures |r| <= |s|
  {
    if s == [] then []
    else (if IsDigit(s[0]) then [s[0]] else []) + Digits(s[1..])
  }

  /** format_cc: the digits of the raw number, or None (the source's -1) when there are none. */
  function FormatCc(s: string): (r: Option<string>)
    ensures r.None? <==> forall i :: 0 <= i < |s| ==> !IsDigit(s[i])
    ensures r.Some? ==> r.value != [] && AllDigits(r.value) && |r.value| <= |s|
  {
    DigitsEmptyIff(s);
    var clean := Digits(s);
    if clean == [] then None else Some(clean)
  }

  lemma {:induction false} DigitsEmptyIff(s: string)
    ensures Digits(s) == [] <==> forall i :: 0 <= i < |s| ==> !IsDigit(s[i])
  {
    if s != [] {
      DigitsEmptyIff(s[1..]);
      if !IsDigit(s[0]) {
        forall i | 0 <= i < |s| && IsDigit(s[i]) ensures 1 <= i && IsDigit(s[1..][i - 1]) {}
      }
    }
  }

  /** Removing non-digits distributes over concatenation: the digits keep their original order. */
  lemma {:induction false} DigitsAppend(a: string, b: string)
    ensures Digits(a + b) == Digits(a) + Digits(b)
  {
    if a == [] {
      assert a + b == b;
    } else {
      assert (a + b)[0] == a[0];
      assert (a + b)[1..] == a[1..] + b;
      DigitsAppend(a[1..], b);
    }
  }

  /** A string of digits is left as it is. */
  lemma {:induction false} DigitsOfDigitString(s: string)
    requires AllDigits(s)
    ensures Digits(s) == s
  {
    if s != [] {
      DigitsOfDigitString(s[1..]);
      assert [s[0]] + s[1..] == s;
    }
  }

  /** Every digit character occurs in the result exactly as often as in the input, and nothing else does. */
  lemma {:induction false} DigitsCount(s: string, c: char)
    ensures multiset(Digits(s))[c] == if IsDigit(c) then multiset(s)[c] else 0
  {
    if s != [] {
      DigitsCount(s[1..], c);
      assert s == [s[0]] + s[1..];
      assert multiset(s) == multiset([s[0]]) + multiset(s[1..]);
    }
  }

  /** format_cc applied to its own output changes nothing. */
  lemma FormatCcIdempotent(s: string)
    requires FormatCc(s).Some?
    ensures FormatCc(FormatCc(s).value) == FormatCc(s)
  {
    DigitsOfDigitString(Digits(s));
  }

  // ---------------------------------------------------------------------
  // validate_card_type

  datatype CardType = Visa | MC | AmEx

  /** The name the service reports for an issuer. */
  function TypeName(t: CardType): string {
    match t
    case Visa => "Visa"
    case MC => "MC"
    case AmEx => "AmEx"
  }

  /** `re.match(r"^4", s)` */
  predicate VisaPattern(s: string) {
    |s| >= 1 && s[0] == '4'
  }

  /** `re.match(r"^(5[1-5]|2(?:2(?:[2-9]\d|3\d)|[3-6]\d{2}|7(?:[01]\d|20)))", s)` */
  predicate McPattern(s: string) {
    || (|s| >= 2 && s[0] == '5' && '1' <= s[1] <= '5')
    || (|s| >= 4 && s[0] == '2' &&
        (|| (s[1] == '2' && (('2' <= s[2] <= '9' && IsDigit(s[3])) || (s[2] == '3' && IsDigit(s[3]))))
         || ('3' <= s[1] <= '6' && IsDigit(s[2]) && IsDigit(s[3]))
         || (s[1] == '7' && (('0' <= s[2] <= '1' && IsDigit(s[3])) || (s[2] == '2' && s[3] == '0')))))
  }

  /** `re.match(r"^3[47]", s)` */
  predicate AmExPattern(s: string) {
    |s| >= 2 && s[0] == '3' && (s[1] == '4' || s[1] == '7')
  }

  /** validate_card_type: the patterns are tried in the order Visa, MC, AmEx; None is the source's -1. */
  function CardTypeOf(s: string): Option<CardType> {
    if VisaPattern(s) then Some(Visa)
    else if McPattern(s) then Some(MC)
    else if AmExPattern(s) then Some(AmEx)
    else None
  }

  lemma NumberOfTwo(s: string)
    requires |s| >= 2 && AllDigits(s)
    ensures Number(s[..2]) == 10 * DigitValue(s[0]) + DigitValue(s[1])
  {
    var t := s[..2];
    assert t[..1][..0] == [];
    assert Number(t[..1]) == DigitValue(t[0]);
  }

  lemma NumberOfFour(s: string)
    requires |s| >= 4 && AllDigits(s)
    ensures Number(s[..4]) == 1000 * DigitValue(s[0]) + 100 * DigitValue(s[1]) + 10 * DigitValue(s[2]) + DigitValue(s[3])
  {
    NumberOfTwo(s);
    var t := s[..4];
    assert t[..3][..2] == s[..2];
    assert Number(t[..3]) == 10 * Number(s[..2]) + DigitValue(s[2]);
  }

  /**
   * The issuer in numeric terms: Visa iff the number starts with 4; MC iff its
   * first two digits are 51..55 or its first four form a number in 2220..2720;
   * AmEx iff it starts with 34 or 37; no issuer otherwise. The families are
   * disjoint, so the order in which the patterns are tried does not matter.
   */
  lemma CardTypeByPrefix(s: string)
    requires AllDigits(s)
    ensures CardTypeOf(s) == Some(Visa) <==> |s| >= 1 && DigitValue(s[0]) == 4
    ensures CardTypeOf(s) == Some(MC) <==>
              || (|s| >= 2 && 51 <= Number(s[..2]) <= 55)
              || (|s| >= 4 && 2220 <= Number(s[..4]) <= 2720)
    ensures CardTypeOf(s) == Some(AmEx) <==> |s| >= 2 && Number(s[..2]) in {34, 37}
  {
    if |s| >= 2 { NumberOfTwo(s); }
    if |s| >= 4 { NumberOfFour(s); }
  }

  /** Only the first four digits decide the issuer, whatever the length of the number. */
  lemma CardTypeByLeadingFour(s: string, rest: string)
    requires |s| == 4
    ensures CardTypeOf(s + rest) == CardTypeOf(s)
  {
    assert forall i :: 0 <= i < 4 ==> (s + rest)[i] == s[i];
  }

  /** The regex admits 2220 as a MasterCard prefix, one below the 2221 its docstring names. */
  lemma McAccepts2220(rest: string)
    ensures CardTypeOf("2220" + rest) == Some(MC)
  {
    CardTypeByLeadingFour("2220", rest);
  }

  // ---------------------------------------------------------------------
  // valid_card_length

  const ValidLengths: map<string, int> := map["Visa" := 16, "MC" := 16, "AmEx" := 15]

  /** valid_card_length: the length must equal the issuer's entry in the table, -1 for an unknown name. */
  function ValidCardLength(s: string, cardType: string): (ok: bool)
    ensures ok <==> || ((cardType == "Visa" || cardType == "MC") && |s| == 16)
                    || (cardType == "AmEx" && |s| == 15)
  {
    |s| == (if cardType in ValidLengths then ValidLengths[cardType] else -1)
  }
}
