# Credit-card validation microservice, modelled in Dafny

The service in `cc_service.py` receives a JSON message holding a card number
(`cc_number`) and an expiry date (`exp_date`), and runs six checks on them in a
fixed order:

1. The number is normalised by removing every character that is not a digit (`format_cc`).
2. The issuer is classified by its digit prefix as Visa, MasterCard ("MC") or American Express ("AmEx") (`validate_card_type`).
3. The length is checked against the issuer: 16 digits for Visa and MC, 15 for AmEx (`valid_card_length`).
4. The Luhn mod-10 checksum is checked (`validate_luhn`).
5. The expiry date is parsed as `M/YY` or `MM/YY`.
6. The expiry date is compared with today (`validate_expiration`).

`validate_card` stops at the first failing check. It returns a dictionary with
`valid`, the `card_type` once the issuer is known, and either an `error` or the
success marker `valid_exp`. The server loop answers each message with the
inbound dictionary, with that verdict merged over it. The literal message `Q`
stops the loop.

The Dafny modules follow the source:

- `Wrappers`: `Option`. The source returns `-1` for "no result"; the model returns `None`.
- `Json`: the decoded JSON values, and the string-keyed envelope the service sends.
- `CardNumber`: `format_cc`, `validate_card_type` and `valid_card_length`. Each regular expression is written out as a predicate.
- `Luhn`: `validate_luhn` as an imperative method. It works on the list of digit values, doubling entries in place from the right. It is proved against a specification function. Lemmas relate that function to the standard statement of the Luhn scheme (ISO/IEC 7812-1, Annex B) and to its error-detecting property.
- `Expiry`: `validate_expiration`, with today's year and month passed in.
- `Pipeline`:
  - `Validate` is the verdict as a function.
  - `Fields` is the dictionary built from a verdict.
  - `ValidateCard` is the method that builds that dictionary step by step, with early returns, as `validate_card` does.
- `Server`: the dispatch step of the `start_server` loop. `Step` goes from the loop state and one message to the next state and an optional reply. `Run` is the loop over a sequence of messages. `Serve` is the imperative `while` loop that breaks on `Q`, proved equal to `Run`.
- `CardExamples`: worked examples from the unit tests in `test_cc_service.py` and from the requests of the demonstration client `client_test.py`, stated for all inputs of their shape where possible.

Where the source's documentation and its code disagree, the model follows the code:

- **MasterCard range.** The docstring at `cc_service.py:30` gives the MasterCard range as 2221–2720. The regular expression at `cc_service.py:35` also accepts 2220. The model follows the regular expression, and `CardNumber.McAccepts2220` states the difference.
- **`valid_card_length` result.** The function returns a boolean. `test_cc_service.py:62-102` expects it to return the type name or -1. The model returns the boolean.

## Model

| member | source | states |
|---|---|---|
| CardNumber.FormatCc | cc_service.py:16-22 | the result is absent exactly when the input has no digit character; otherwise it is a non-empty string of digits no longer than the input |
| CardNumber.DigitsEmptyIff | cc_service.py:21-22 | removing the non-digits leaves the empty string iff no character of the input is a digit |
| CardNumber.DigitsAppend | cc_service.py:21 | removing the non-digits distributes over concatenation, so the digits that remain keep their original order |
| CardNumber.DigitsCount | cc_service.py:21 | every digit character occurs in the result as often as in the input, and no other character occurs |
| CardNumber.DigitsOfDigitString | cc_service.py:21 | a string made only of digits is left unchanged |
| CardNumber.FormatCcIdempotent | cc_service.py:16-22 | applying format_cc to its own non-empty output gives the same output |
| CardNumber.CardTypeByPrefix | cc_service.py:25-43 | on digit strings: Visa iff the first digit is 4; MC iff the first two digits are 51–55 or the first four form a number in 2220–2720; AmEx iff the first two digits are 34 or 37; otherwise no issuer |
| CardNumber.CardTypeByLeadingFour | cc_service.py:39-43 | only the first four characters decide the issuer, whatever follows them |
| CardNumber.McAccepts2220 | cc_service.py:30-35 | every number starting 2220 is classified MC, although the docstring's range starts at 2221 |
| CardNumber.ValidCardLength | cc_service.py:46-55 | true iff the type is "Visa" or "MC" and the length is 16, or the type is "AmEx" and the length is 15; false for any other type name |
| Luhn.ValidateLuhn | cc_service.py:58-84 | the in-place doubling loop over the digit list, with the check digit popped off, returns exactly LuhnValid of the number: the check digit equals the one the doubled payload sum calls for |
| Luhn.CheckDigitUnique | cc_service.py:78-84 | of the ten digits that can be appended to a payload, exactly one makes the number pass: the computed check digit |
| Luhn.NextCheckDigitFails | random_test.py:76-90 | appending (check digit + 1) mod 10, as the random test generator does for invalid numbers, always fails the checksum |
| Luhn.TermsAppend | cc_service.py:69-76 | over a concatenation, the digits of the right part are doubled as they are alone, and those of the left part shift their doubling by the parity of the right part's length |
| Luhn.WeightedSumIsSumOfTerms | cc_service.py:69-80 | the source's in-place doubling followed by a sum equals the right-to-left alternating weighted sum of ISO/IEC 7812-1 Annex B |
| Luhn.WeightedSumAppend | cc_service.py:69-76 | over a concatenation, the weighted sum of the right part is unchanged, and the left part's doubling shifts by the parity of the right part's length |
| Luhn.LuhnValidIffMultipleOfTen | cc_service.py:78-84 | a number passes iff its weighted sum, check digit included with weight one, is a multiple of 10 |
| Luhn.SingleDigitErrorDetected | cc_service.py:58-84 | changing any single digit of a passing number, the check digit included, makes it fail |
| Expiry.RenderParses | cc_service.py:93-101 | every month 1–12 and two-digit year, written M/YY or MM/YY, is accepted and parses back to that month and year |
| Expiry.PatternIsRendering | cc_service.py:93-101 | every accepted string has a month 1–12 and a year 0–99 and is exactly the rendering of them, so nothing else is accepted |
| Expiry.MalformedDatesRejected | cc_service.py:93-96 | "2/2027", "8-25", "13/25" and "00/25" are rejected as malformed, whatever today is |
| Expiry.CenturyWindow | cc_service.py:111-116 | the inferred year ends in the two given digits and lies in the hundred-year window starting at WindowStart: 1920 + currentYear % 100, or 2000 when that remainder is 80 or more; from 2000 to 2079 the window ends 20 years past the current year |
| Expiry.CenturyYearRecovers | cc_service.py:111-116 | every year of that window is recovered from its last two digits |
| Expiry.ExpiryIsCalendarOrder | cc_service.py:95-119 | for a well-formed date, the result is true iff the inferred (year, month) is not before today's (year, month) on the calendar |
| Expiry.CurrentMonthValid | cc_service.py:118-119 | from 2000 to 2099, a card expiring in the current month is still valid |
| Expiry.PreviousMonthExpired | cc_service.py:118-119 | from 2000 to 2099, a card that expired in the previous month, across a year boundary too, is reported expired |
| Expiry.EverythingExpiredFrom2100 | cc_service.py:111-119 | from the year 2100 on no date is ever valid, which is the limit of the century heuristic |
| Pipeline.ValidateCard | cc_service.py:124-172 | the dictionary built step by step with early returns is exactly the dictionary of the verdict of the six checks |
| Pipeline.FieldsKeys | cc_service.py:127-171 | for any verdict: "valid" is present and true iff there is no failure; "error" is present iff there is a failure; "valid_exp" is present, with value "Valid", iff there is none; "card_type" is present, with the issuer's name, iff the issuer was classified |
| Pipeline.ErrorIsFirstFailure | cc_service.py:129-168 | the reported error belongs to a check that fails, and every earlier check passes; no error is reported iff all six checks pass, each check stated on its own |
| Pipeline.ValidIffNoError | cc_service.py:127-172 | "valid" is always present and boolean; it is false iff "error" is present, and "error" is present iff "valid_exp" is absent |
| Pipeline.CardTypeIffClassified | cc_service.py:136-143 | "card_type" is present iff the formatted number got an issuer, even when a later check fails, and it carries that issuer's name |
| Pipeline.SuccessMarkerIffAllPass | cc_service.py:170-172 | "valid_exp" is present iff all six checks pass, and then it is "Valid" and "valid" is true |
| Pipeline.LaterChecksDoNotRun | cc_service.py:129-156 | once a check on the number fails, neither the date string nor today's date affects the verdict |
| Pipeline.NoDigitsIsFormatError | cc_service.py:130-134 | a card number with no digit at all fails with "Invalid card format" and no issuer |
| Pipeline.VisaWrongLength | cc_service.py:145-150 | a digit string starting with 4 whose length is not 16 fails the length check, with Visa recorded as the issuer |
| Server.Serve | cc_service.py:190-239 | the loop that breaks on "Q" and sends at most one reply per message produces exactly the final state and the replies of Run |
| Server.OnlyQuitStops | cc_service.py:201-204 | a listening loop stops iff the message is "Q", and "Q" gets no reply |
| Server.StoppedIgnoresRest | cc_service.py:203-204 | once stopped, the loop sends nothing more, whatever is sent to it |
| Server.RunEndsAtQuit | cc_service.py:190-204 | the replies to a conversation are exactly those to the messages before the first "Q", and the loop ends stopped |
| Server.InvalidJsonAnswered | cc_service.py:206-212 | an undecodable message gets exactly {"valid": false, "error": "Invalid JSON format"}, and the loop keeps listening |
| Server.MissingFieldAnswered | cc_service.py:216-224 | an object missing "cc_number" or "exp_date" gets the headers error envelope, which differs from the JSON error; the pipeline is not run, since today's date makes no difference |
| Server.ReplyEchoesRequest | cc_service.py:225-239 | for string fields, the reply has the inbound keys plus the verdict's keys; inbound values are kept unless the verdict overwrites them, and the verdict's values are taken as they are |
| Server.WrongFieldTypes | cc_service.py:217-243 | a card number that is not a string gets no reply; a date that is not a string gets no reply only when the card number passes its checks |
| CardExamples.FourGroups | test_cc_service.py:12-20 | four groups of digits joined by any non-digit separator, such as a space or a dash, format to the groups run together |
| CardExamples.SpacedNumber | cc_service.py:16-55 | "2333 7777 7777 7779" formats to "2333777777777779", which is an MC number of the valid length |
| CardExamples.SpacedChecksum | cc_service.py:58-84 | "2333777777777779" passes the Luhn checksum |
| CardExamples.MalformedDateAfterPassingNumber | cc_service.py:158-163 | a number that passes its four checks, paired with a date that does not match the pattern, fails with "Invalid date format" and keeps its issuer |
| CardExamples.SpacedRequest | client_test.py:39-46 | the client's request "2333 7777 7777 7779" with "77/12", labelled "Valid MC / Bad Date Format", is classified MC and fails with "Invalid date format", whatever today is |
| CardExamples.UnknownLeadingDigit | test_cc_service.py:57-60 | a digit string whose first digit is not 2, 3, 4 or 5 fails with "Unknown card header", whatever its length and date |
| CardExamples.Expired0199 | client_test.py:39-44 | in October 2026, "01/99" is read as January 1999 and reported expired |
| CardExamples.Good1228 | client_test.py:39-45 | "12/28" is valid in every month from 2009 to 2028 |

## Left out

- The ZeroMQ transport is not modelled: the socket set-up, `recv`, `send_json` and the clean exit. Messages arrive as a sequence, and replies are collected as a sequence.
- `time.sleep` and the `print` logging are not modelled. They have no effect on the replies.
- `json.loads` is not modelled. Each request carries the value it decoded to, or `None` for a decoding error.
- The clock is not read. Each request carries the year and month that `datetime.today()` would give while it is handled.
- UTF-8 decoding of the raw bytes is not modelled. A message that is not valid UTF-8 raises inside the loop, and no reply is sent; the model takes messages as strings.
- The catch-all `except Exception` is modelled only by its effect: no reply is sent on the paths that raise. Those paths are a decoded value that is not an object, a `cc_number` that is not a string, and an `exp_date` that is not a string once the date is reached. A REP socket that sends no reply cannot receive the next message; that socket state is not modelled.
- Python's `\d` and `int` also accept non-ASCII Unicode digits. The model counts only `'0'`..`'9'` as digits.
- Dictionary key order, and with it the order of keys in a reply, is not modelled: envelopes are maps.
- JSON numbers are integers in the model. Floating-point values are not represented, and none of the checks uses a number.
- Luhn.ValidateLuhn: requires a non-empty string of digits. On an empty string `validate_luhn` raises in `pop`, and on a non-digit in `int`. `validate_card` only calls it with at least 15 digits.
- Checksum examples on literal numbers (`test_luhn1`–`test_luhn3`, `test_type1`–`test_type5`) are not restated. Their checksum and issuer follow from `Luhn.ValidateLuhn`, `CardNumber.CardTypeByPrefix` and `CardNumber.ValidCardLength`, stated for all inputs.
- Tests that depend on the date they are run on (`test_expiry1` to `test_expiry3`) are replaced by `Expiry.CurrentMonthValid`, `Expiry.PreviousMonthExpired` and the fixed-date examples.
- The socket code of the demonstration client `client_test.py` is not part of this model; only some of its requests are restated, in `CardExamples`.
