/**
 * validate_card in cc_service.py: format, issuer, length, checksum, date
 * format and expiry, in that order, stopping at the first check that fails.
 * The verdict is a dictionary with "valid", "card_type" once the issuer is
 * known, and either "error" or the success marker "valid_exp".
 */
module Pipeline {
  import opened Wrappers
  import opened Json
  import opened CardNumber
  import opened Luhn
  import opened Expiry

  datatype Failure =
    | InvalidCardFormat
    | UnknownCardHeader
    | IncorrectLength
    | InvalidChecksum
    | InvalidDateFormat
    | CardExpired

  /** The reason the service reports for each failure. */
  function Message(f: Failure): string {
    match f
    case InvalidCardFormat => "Invalid card format"
    case UnknownCardHeader => "Unknown card header"
    case IncorrectLength => "Incorrect length"
    case InvalidChecksum => "Invalid checksum"
    case InvalidDateFormat => "Invalid date format"
    case CardExpired => "Card Expired"
  }

  /** What the checks found: the issuer, when classification got that far, and the first failure. */
  datatype Verdict = Verdict(cardType: Option<CardType>, failure: Option<Failure>)

  /** The checks on the card number alone: format, issuer, length and checksum. */
  function CardVerdict(cardNumber: string): Verdict {
    match FormatCc(cardNumber)
    case None => Verdict(None, Some(InvalidCardFormat))
    case Some(formatted) =>
      match CardTypeOf(formatted)
      case None => Verdict(None, Some(UnknownCardHeader))
      case Some(t) =>
        if !ValidCardLength(formatted, TypeName(t)) then Verdict(Some(t), Some(IncorrectLength))
        else if !LuhnValid(formatted) then Verdict(Some(t), Some(InvalidChecksum))
        else Verdict(Some(t), None)
  }

  /** The whole pipeline: the date is looked at only once the card number has passed. */
  function Validate(cardNumber: string, expDate: string, today: Date): Verdict {
    var card := CardVerdict(cardNumber);
    if card.failure.Some? then card
    else
      match ValidateExpiration(expDate, today)
      case None => card.(failure := Some(InvalidDateFormat))
      case Some(false) => card.(failure := Some(CardExpired))
      case Some(true) => card
  }

  /** The result dictionary validate_card returns for a verdict. */
  function Fields(v: Verdict): Envelope {
    map["valid" := Bool(v.failure.None?)]
    + (if v.cardType.Some? then map["card_type" := Str(TypeName(v.cardType.value))] else map[])
    + (if v.failure.Some? then map["error" := Str(Message(v.failure.value))]
       else map["valid_exp" := Str("Valid")])
  }

  /**
   * validate_card: starts from {"valid": True} and fills the dictionary in
   * step by step, returning as soon as a check fails.
   */
  method ValidateCard(cardNumber: string, expDate: string, today: Date) returns (results: Envelope)
    ensures results == Fields(Validate(cardNumber, expDate, today))
  {
    results := map["valid" := Bool(true)];

    var formatted := FormatCc(cardNumber);
    if formatted.None? {
      results := results["valid" := Bool(false)]["error" := Str(Message(InvalidCardFormat))];
      UnclassifiedFailure(InvalidCardFormat);
      return;
    }

    var cardType := CardTypeOf(formatted.value);
    if cardType.None? {
      results := results["valid" := Bool(false)]["error" := Str(Message(UnknownCardHeader))];
      UnclassifiedFailure(UnknownCardHeader);
      return;
    }
    results := results["card_type" := Str(TypeName(cardType.value))];

    if !ValidCardLength(formatted.value, TypeName(cardType.value)) {
      results := results["valid" := Bool(false)]["error" := Str(Message(IncorrectLength))];
      ClassifiedFailure(cardType.value, IncorrectLength);
      return;
    }

    var checksumOk := ValidateLuhn(formatted.value);
    if !checksumOk {
      results := results["valid" := Bool(false)]["error" := Str(Message(InvalidChecksum))];
      ClassifiedFailure(cardType.value, InvalidChecksum);
      return;
    }

    var validDate := ValidateExpiration(expDate, today);
    if validDate.None? {
      results := results["valid" := Bool(false)]["error" := Str(Message(InvalidDateFormat))];
      ClassifiedFailure(cardType.value, InvalidDateFormat);
      return;
    }
    if !validDate.value {
      results := results["valid" := Bool(false)]["error" := Str(Message(CardExpired))];
      ClassifiedFailure(cardType.value, CardExpired);
      return;
    }

    results := results["valid_exp" := Str("Valid")];
    ClassifiedSuccess(cardType.value);
  }

  lemma UnclassifiedFailure(f: Failure)
    ensures Fields(Verdict(None, Some(f))) == map["valid" := Bool(true)]["valid" := Bool(false)]["error" := Str(Message(f))]
  {
  }

  lemma ClassifiedFailure(t: CardType, f: Failure)
    ensures Fields(Verdict(Some(t), Some(f)))
         == map["valid" := Bool(true)]["card_type" := Str(TypeName(t))]["valid" := Bool(false)]["error" := Str(Message(f))]
  {
  }

  lemma ClassifiedSuccess(t: CardType)
    ensures Fields(Verdict(Some(t), None))
         == map["valid" := Bool(true)]["card_type" := Str(TypeName(t))]["valid_exp" := Str("Valid")]
  {
  }

  // ---------------------------------------------------------------------
  // The shape of the result

  /** The keys of a verdict's dictionary, for any verdict. */
  lemma FieldsKeys(v: Verdict)
    ensures var r := Fields(v);
            && "valid" in r && r["valid"] == Bool(v.failure.None?)
            && ("error" in r <==> v.failure.Some?)
            && ("valid_exp" in r <==> v.failure.None?)
            && ("valid_exp" in r ==> r["valid_exp"] == Str("Valid"))
            && ("card_type" in r <==> v.cardType.Some?)
            && ("card_type" in r ==> r["card_type"] == Str(TypeName(v.cardType.value)))
  {
  }

  /** "valid" is always present and false exactly when an "error" is; "valid_exp" appears only without one. */
  lemma ValidIffNoError(cardNumber: string, expDate: string, today: Date)
    ensures var r := Fields(Validate(cardNumber, expDate, today));
            && "valid" in r && r["valid"].Bool?
            && (r["valid"] == Bool(false) <==> "error" in r)
            && ("error" in r <==> "valid_exp" !in r)
  {
    FieldsKeys(Validate(cardNumber, expDate, today));
  }

  /** "card_type" is present iff the number was classified, even when a later check fails. */
  lemma CardTypeIffClassified(cardNumber: string, expDate: string, today: Date)
    ensures var r := Fields(Validate(cardNumber, expDate, today));
            ("card_type" in r <==> FormatCc(cardNumber).Some? && CardTypeOf(FormatCc(cardNumber).value).Some?)
            && ("card_type" in r ==> r["card_type"] == Str(TypeName(CardTypeOf(FormatCc(cardNumber).value).value)))
  {
    FieldsKeys(Validate(cardNumber, expDate, today));
    VerdictIssuer(cardNumber, expDate, today);
  }

  lemma VerdictIssuer(cardNumber: string, expDate: string, today: Date)
    ensures Validate(cardNumber, expDate, today).cardType
         == if FormatCc(cardNumber).Some? then CardTypeOf(FormatCc(cardNumber).value) else None
  {
  }

  // ---------------------------------------------------------------------
  // The order of the checks

  /** The position of each failure in the pipeline. */
  function Stage(f: Failure): nat {
    match f
    case InvalidCardFormat => 1
    case UnknownCardHeader => 2
    case IncorrectLength => 3
    case InvalidChecksum => 4
    case InvalidDateFormat => 5
    case CardExpired => 6
  }

  /**
   * Whether check `k` of the pipeline holds, each stated on its own over the
   * digits of the card number and the raw date, without reference to the others.
   */
  predicate Passes(k: nat, cardNumber: string, expDate: string, today: Date) {
    var digits := Digits(cardNumber);
    match k
    case 1 => digits != []
    case 2 => CardTypeOf(digits).Some?
    case 3 => || (CardTypeOf(digits) in {Some(Visa), Some(MC)} && |digits| == 16)
              || (CardTypeOf(digits) == Some(AmEx) && |digits| == 15)
    case 4 => digits != [] && LuhnValid(digits)
    case 5 => DatePattern(expDate)
    case _ => ValidateExpiration(expDate, today) == Some(true)
  }

  /**
   * The error reported is that of the first check that fails, and no error is
   * reported iff all six hold.
   */
  lemma ErrorIsFirstFailure(cardNumber: string, expDate: string, today: Date)
    ensures var v := Validate(cardNumber, expDate, today);
            && (v.failure.None? <==> forall k :: 1 <= k <= 6 ==> Passes(k, cardNumber, expDate, today))
            && (v.failure.Some? ==>
                  && !Passes(Stage(v.failure.value), cardNumber, expDate, today)
                  && forall k :: 1 <= k < Stage(v.failure.value) ==> Passes(k, cardNumber, expDate, today))
  {
    var v := Validate(cardNumber, expDate, today);
    if v.failure.None? {
      forall k | 1 <= k <= 6 ensures Passes(k, cardNumber, expDate, today) {}
    } else {
      forall k | 1 <= k < Stage(v.failure.value) ensures Passes(k, cardNumber, expDate, today) {}
      var stage := Stage(v.failure.value);
      assert 1 <= stage <= 6 && !Passes(stage, cardNumber, expDate, today);
    }
  }

  /** "valid_exp" is "Valid" only when every check has passed. */
  lemma SuccessMarkerIffAllPass(cardNumber: string, expDate: string, today: Date)
    ensures var r := Fields(Validate(cardNumber, expDate, today));
            ("valid_exp" in r <==> forall k :: 1 <= k <= 6 ==> Passes(k, cardNumber, expDate, today))
            && ("valid_exp" in r ==> r["valid_exp"] == Str("Valid") && r["valid"] == Bool(true))
  {
    FieldsKeys(Validate(cardNumber, expDate, today));
    ErrorIsFirstFailure(cardNumber, expDate, today);
  }

  /** Once a check on the card number fails, neither the date nor today's date is looked at. */
  lemma LaterChecksDoNotRun(cardNumber: string, expDate: string, today: Date, otherDate: string, otherToday: Date)
    requires CardVerdict(cardNumber).failure.Some?
    ensures Validate(cardNumber, expDate, today) == Validate(cardNumber, otherDate, otherToday)
    ensures Validate(cardNumber, expDate, today) == CardVerdict(cardNumber)
  {
  }

  /** A number of digits only, without any digit, fails at the first check. */
  lemma NoDigitsIsFormatError(cardNumber: string, expDate: string, today: Date)
    requires forall i :: 0 <= i < |cardNumber| ==> !IsDigit(cardNumber[i])
    ensures Validate(cardNumber, expDate, today) == Verdict(None, Some(InvalidCardFormat))
  {
  }

  /** A Visa-prefixed string of digits of any length but 16 fails the length check, with the issuer known. */
  lemma VisaWrongLength(digits: string, expDate: string, today: Date)
    requires AllDigits(digits) && |digits| >= 1 && digits[0] == '4' && |digits| != 16
    ensures Validate(digits, expDate, today) == Verdict(Some(Visa), Some(IncorrectLength))
  {
    DigitsOfDigitString(digits);
  }
}
