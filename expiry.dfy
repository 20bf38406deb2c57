/**
 * validate_expiration in cc_service.py, with today's date passed in rather
 * than read from the clock. A date is written M/YY or MM/YY; the century of
 * the two-digit year is inferred from a cutoff twenty years past the current
 * year's last two digits.
 */
module Expiry {
  import opened Wrappers
  import opened CardNumber

  /** The calendar year and month the service takes as "today". */
  datatype Date = Date(year: nat, month: nat)

  /** `0?[1-9]|1[0-2]` matched against the whole month field. */
  predicate MonthField(m: string) {
    || (|m| == 1 && '1' <= m[0] <= '9')
    || (|m| == 2 && m[0] == '0' && '1' <= m[1] <= '9')
    || (|m| == 2 && m[0] == '1' && '0' <= m[1] <= '2')
  }

  /** `re.fullmatch(r"^(0?[1-9]|1[0-2])\/\d{2}$", s)` */
  predicate DatePattern(s: string) {
    && |s| >= 4
    && MonthField(s[..|s| - 3])
    && s[|s| - 3] == '/'
    && IsDigit(s[|s| - 2]) && IsDigit(s[|s| - 1])
  }

  /** `int(s.split('/')[0])` */
  function MonthOf(s: string): nat
    requires DatePattern(s)
  {
    Number(s[..|s| - 3])
  }

  /** `int(s.split('/')[1])` */
  function YearOf(s: string): nat
    requires DatePattern(s)
  {
    Number(s[|s| - 2..])
  }

  /** The full year a two-digit year stands for, given the current year. */
  function CenturyYear(yy: nat, currentYear: nat): nat {
    if yy < currentYear % 100 + 20 then 2000 + yy else 1900 + yy
  }

  /**
   * validate_expiration: None (the source's -1) for a string that is not a date,
   * otherwise whether the card's year and month are not before today's.
   */
  function ValidateExpiration(exp: string, today: Date): Option<bool> {
    if !DatePattern(exp) then None
    else
      var month := MonthOf(exp);
      var year := CenturyYear(YearOf(exp), today.year);
      Some(year > today.year || (year == today.year && month >= today.month))
  }

  // ---------------------------------------------------------------------
  // The accepted formats

  /** Month `m` and two-digit year `yy` written out, the month zero-padded or not. */
  function Render(m: nat, yy: nat, padded: bool): string
    requires 1 <= m <= 12 && yy < 100
  {
    (if padded || m >= 10 then [DigitChar(m / 10), DigitChar(m % 10)] else [DigitChar(m)])
    + "/" + [DigitChar(yy / 10), DigitChar(yy % 10)]
  }

  lemma NumberOfOne(s: string)
    requires |s| == 1 && AllDigits(s)
    ensures Number(s) == DigitValue(s[0])
  {
    assert s[..0] == [];
  }

  lemma NumberOfPair(s: string)
    requires |s| == 2 && AllDigits(s)
    ensures Number(s) == 10 * DigitValue(s[0]) + DigitValue(s[1])
  {
    NumberOfOne(s[..1]);
  }

  /** Every rendering is accepted, and parses back to the month and year it was made from. */
  lemma RenderParses(m: nat, yy: nat, padded: bool)
    requires 1 <= m <= 12 && yy < 100
    ensures DatePattern(Render(m, yy, padded))
    ensures MonthOf(Render(m, yy, padded)) == m && YearOf(Render(m, yy, padded)) == yy
  {
    var s := Render(m, yy, padded);
    NumberOfPair(s[|s| - 2..]);
    if |s| == 5 {
      NumberOfPair(s[..2]);
    } else {
      NumberOfOne(s[..1]);
    }
  }

  /** Every accepted string is a rendering of a month 1..12 and a year 0..99: nothing else gets through. */
  lemma PatternIsRendering(s: string)
    requires DatePattern(s)
    ensures 1 <= MonthOf(s) <= 12 && YearOf(s) < 100
    ensures s == Render(MonthOf(s), YearOf(s), |s| == 5)
  {
    NumberOfPair(s[|s| - 2..]);
    if |s| == 5 {
      NumberOfPair(s[..2]);
    } else {
      NumberOfOne(s[..1]);
    }
  }

  lemma MalformedDatesRejected(today: Date)
    ensures ValidateExpiration("2/2027", today).None?
    ensures ValidateExpiration("8-25", today).None?
    ensures ValidateExpiration("13/25", today).None?
    ensures ValidateExpiration("00/25", today).None?
  {
  }

  // ---------------------------------------------------------------------
  // The century window

  /**
   * The first year of the hundred-year window the two-digit year is placed in:
   * 80 years before the current year's position in its century, but never
   * past 2000, since the cutoff stops mattering once it passes 99.
   */
  function WindowStart(currentYear: nat): nat {
    if currentYear % 100 < 80 then 1920 + currentYear % 100 else 2000
  }

  /** The inferred year is the one year ending in `yy` inside that window. */
  lemma CenturyWindow(yy: nat, currentYear: nat)
    requires yy < 100
    ensures WindowStart(currentYear) <= CenturyYear(yy, currentYear) < WindowStart(currentYear) + 100
    ensures CenturyYear(yy, currentYear) % 100 == yy
  {
  }

  /** Conversely every year of the window is recovered from its last two digits. */
  lemma CenturyYearRecovers(year: nat, currentYear: nat)
    requires WindowStart(currentYear) <= year < WindowStart(currentYear) + 100
    ensures CenturyYear(year % 100, currentYear) == year
  {
  }

  // ---------------------------------------------------------------------
  // Expiry against the calendar

  /** Months counted from year 0, so that calendar order is integer order. */
  function MonthIndex(year: int, month: int): int {
    12 * year + month - 1
  }

  /** A well-formed date passes iff its month is not before today's month on the calendar. */
  lemma ExpiryIsCalendarOrder(s: string, today: Date)
    requires DatePattern(s) && 1 <= today.month <= 12
    ensures ValidateExpiration(s, today)
         == Some(MonthIndex(CenturyYear(YearOf(s), today.year), MonthOf(s)) >= MonthIndex(today.year, today.month))
  {
    PatternIsRendering(s);
  }

  /** In this century the card is still good in its month of expiry. */
  lemma CurrentMonthValid(today: Date, padded: bool)
    requires 2000 <= today.year <= 2099 && 1 <= today.month <= 12
    ensures ValidateExpiration(Render(today.month, today.year % 100, padded), today) == Some(true)
  {
    RenderParses(today.month, today.year % 100, padded);
  }

  /** In this century a card that expired last month is reported expired. */
  lemma PreviousMonthExpired(today: Date, padded: bool)
    requires 2000 <= today.year <= 2099 && 1 <= today.month <= 12
    ensures var (year, month) := if today.month == 1 then (today.year - 1, 12) else (today.year, today.month - 1);
            ValidateExpiration(Render(month, year % 100, padded), today) == Some(false)
  {
    var (year, month) := if today.month == 1 then (today.year - 1, 12) else (today.year, today.month - 1);
    RenderParses(month, year % 100, padded);
    CenturyYearRecovers(year, today.year);
  }

  /** The limit of the heuristic: from the year 2100 on, every date reads as expired. */
  lemma EverythingExpiredFrom2100(s: string, today: Date)
    requires today.year >= 2100
    ensures ValidateExpiration(s, today) != Some(true)
  {
    if DatePattern(s) {
      PatternIsRendering(s);
    }
  }
}
