/**
 * Worked examples of the checks on the number and the date, taken from the
 * unit tests of test_cc_service.py that do not depend on the clock and from
 * the requests the demonstration client client_test.py sends, each reduced to
 * a few small facts about literal strings.
 */
module CardExamples {
  import opened Wrappers
  import opened CardNumber
  import opened Luhn
  import opened Expiry
  import opened Pipeline

  lemma FormatOfDigitString(s: string)
    requires s != [] && AllDigits(s)
    ensures FormatCc(s) == Some(s)
  {
    DigitsOfDigitString(s);
  }

  // ---------------------------------------------------------------------
  // A number written in groups of four

  lemma DigitsSkipSeparator(sep: char, rest: string)
    requires !IsDigit(sep)
    ensures Digits([sep] + rest) == Digits(rest)
  {
    assert ([sep] + rest)[1..] == rest;
  }

  /** A group of digits followed by a separator keeps its digits and loses the separator. */
  lemma DigitsOfGroup(group: string, sep: char, rest: string)
    requires AllDigits(group) && !IsDigit(sep)
    ensures Digits(group + ([sep] + rest)) == group + Digits(rest)
  {
    DigitsAppend(group, [sep] + rest);
    DigitsOfDigitString(group);
    DigitsSkipSeparator(sep, rest);
  }

  lemma SpacedGroups()
    ensures "2333 7777 7777 7779" == "2333" + ([' '] + ("7777" + ([' '] + ("7777" + ([' '] + "7779")))))
    ensures "2333" + ("7777" + ("7777" + "7779")) == "2333777777777779"
  {
  }

  /**
   * A number written as four groups of digits joined by a separator that is
   * not a digit (a space or a dash) formats to the groups run together.
   */
  lemma FourGroups(a: string, b: string, c: string, d: string, sep: char)
    requires AllDigits(a) && AllDigits(b) && AllDigits(c) && AllDigits(d) && !IsDigit(sep)
    ensures Digits(a + ([sep] + (b + ([sep] + (c + ([sep] + d)))))) == a + (b + (c + d))
  {
    DigitsOfDigitString(d);
    DigitsOfGroup(c, sep, d);
    DigitsOfGroup(b, sep, c + ([sep] + d));
    DigitsOfGroup(a, sep, b + ([sep] + (c + ([sep] + d))));
  }

  lemma SpacedType()
    ensures AllDigits("2333777777777779") && CardTypeOf("2333777777777779") == Some(MC)
    ensures ValidCardLength("2333777777777779", "MC")
  {
  }

  /** The spaces are dropped, and the 16 digits that remain are a MasterCard number of the right length. */
  lemma SpacedNumber()
    ensures FormatCc("2333 7777 7777 7779") == Some("2333777777777779")
    ensures CardTypeOf("2333777777777779") == Some(MC) && ValidCardLength("2333777777777779", "MC")
  {
    SpacedGroups();
    FourGroups("2333", "7777", "7777", "7779", ' ');
    SpacedType();
  }

  lemma SpacedDigitValues()
    ensures AllDigits("2333777777777779")
    ensures DigitValues("2333777777777779") == [2, 3, 3, 3] + ([7, 7, 7, 7] + ([7, 7, 7, 7] + [7, 7, 7, 9]))
  {
  }

  lemma SpacedWeightedSum()
    ensures WeightedSum([2, 3, 3, 3] + ([7, 7, 7, 7] + ([7, 7, 7, 7] + [7, 7, 7, 9])), false) == 90
  {
    var a, b, c, d := [2, 3, 3, 3], [7, 7, 7, 7], [7, 7, 7, 7], [7, 7, 7, 9];
    WeightedSumAppend(c, d, false);
    WeightedSumAppend(b, c + d, false);
    WeightedSumAppend(a, b + (c + d), false);
    WeightedSumOfGroup(2, 3, 3, 3);
    WeightedSumOfGroup(7, 7, 7, 7);
    WeightedSumOfGroup(7, 7, 7, 9);
  }

  /** The 16 digits pass the checksum: their weighted sum is 90. */
  lemma SpacedChecksum()
    ensures LuhnValid("2333777777777779")
  {
    SpacedDigitValues();
    SpacedWeightedSum();
    LuhnValidIffMultipleOfTen("2333777777777779");
  }

  /** The weighted sum of a group of four digits when the group ends the number. */
  lemma WeightedSumOfGroup(w: nat, x: nat, y: nat, z: nat)
    requires w < 10 && x < 10 && y < 10 && z < 10
    ensures WeightedSum([w, x, y, z], false) == Term(w, true) + x + Term(y, true) + z
  {
    var g := [w, x, y, z];
    assert g[..3] == [w, x, y] && [w, x, y][..2] == [w, x] && [w, x][..1] == [w] && [w][..0] == [];
    assert WeightedSum([w], true) == Term(w, true);
    assert WeightedSum([w, x], false) == x + Term(w, true);
    assert WeightedSum([w, x, y], true) == Term(y, true) + x + Term(w, true);
  }

  /** A number that passes every check on its own is refused for a malformed date, with its issuer recorded. */
  lemma MalformedDateAfterPassingNumber(cardNumber: string, formatted: string, t: CardType, expDate: string, today: Date)
    requires FormatCc(cardNumber) == Some(formatted) && CardTypeOf(formatted) == Some(t)
    requires ValidCardLength(formatted, TypeName(t)) && LuhnValid(formatted)
    requires !DatePattern(expDate)
    ensures Validate(cardNumber, expDate, today) == Verdict(Some(t), Some(InvalidDateFormat))
  {
  }

  lemma MonthSeventySeven()
    ensures !DatePattern("77/12")
  {
    assert "77/12"[..2] == "77";
  }

  /**
   * The client_test.py request {"cc_number": "2333 7777 7777 7779", "exp_date": "77/12"},
   * labelled "Valid MC / Bad Date Format": the number passes every check, so the
   * error reported is the malformed date.
   */
  lemma SpacedRequest(today: Date)
    ensures Validate("2333 7777 7777 7779", "77/12", today) == Verdict(Some(MC), Some(InvalidDateFormat))
  {
    SpacedNumber();
    SpacedChecksum();
    MonthSeventySeven();
    MalformedDateAfterPassingNumber("2333 7777 7777 7779", "2333777777777779", MC, "77/12", today);
  }

  // ---------------------------------------------------------------------
  // Dates

  lemma Expired0199()
    ensures ValidateExpiration("01/99", Date(2026, 10)) == Some(false)
  {
    RenderParses(1, 99, true);
    assert Render(1, 99, true) == "01/99";
  }

  /**
   * "12/28" is good from 2009 to the end of 2028. Before 2009 the cutoff
   * (year % 100 + 20) is at most 28, so "28" is read as 1928.
   */
  lemma Good1228(today: Date)
    requires 2009 <= today.year <= 2028 && 1 <= today.month <= 12
    ensures ValidateExpiration("12/28", today) == Some(true)
  {
    RenderParses(12, 28, true);
    assert Render(12, 28, true) == "12/28";
  }

  // ---------------------------------------------------------------------
  // A number with no known prefix

  /**
   * test_type6: a number whose first digit is none of 2, 3, 4 and 5 is refused
   * before its length or checksum is looked at, whatever the date.
   */
  lemma UnknownLeadingDigit(cardNumber: string, expDate: string, today: Date)
    requires cardNumber != [] && AllDigits(cardNumber)
    requires cardNumber[0] !in {'2', '3', '4', '5'}
    ensures Validate(cardNumber, expDate, today) == Verdict(None, Some(UnknownCardHeader))
  {
    FormatOfDigitString(cardNumber);
  }
}
