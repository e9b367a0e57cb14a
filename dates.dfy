/**
 * The `YYYY-MM-DD` strings of the date inputs on the new-project form, which
 * the form compares with `>` on strings and turns into ISO timestamps.
 */
module Dates {
  import opened Js

  /** Four digits, a dash, two digits, a dash, two digits. */
  predicate IsDateString(s: string) {
    |s| == 10 && IsDigits(s[..4]) && s[4] == '-' && IsDigits(s[5..7]) && s[7] == '-' && IsDigits(s[8..])
  }

  function Year(s: string): nat requires IsDateString(s) { DigitsValue(s[..4]) }
  function Month(s: string): nat requires IsDateString(s) { DigitsValue(s[5..7]) }
  function Day(s: string): nat requires IsDateString(s) { DigitsValue(s[8..]) }

  /** Chronological order of the dates the strings denote: year, then month, then day. */
  predicate Earlier(a: string, b: string)
    requires IsDateString(a) && IsDateString(b)
  {
    Year(a) < Year(b)
    || (Year(a) == Year(b) && Month(a) < Month(b))
    || (Year(a) == Year(b) && Month(a) == Month(b) && Day(a) < Day(b))
  }

  /** `new Date(s).toISOString()` for a date string: midnight UTC of that day; anything else is an invalid date. */
  function ToIsoString(s: string): (r: string)
    requires IsDateString(s)
    ensures |r| == 24 && r[..10] == s
  {
    s + "T00:00:00.000Z"
  }

  /** Compares p + q with p' + q' through the equal-length digit blocks p and p'. */
  lemma DigitBlock(p: string, q: string, p': string, q': string)
    requires |p| == |p'| && IsDigits(p) && IsDigits(p')
    ensures StringLess(p + q, p' + q') <==>
      DigitsValue(p) < DigitsValue(p') || (DigitsValue(p) == DigitsValue(p') && StringLess(q, q'))
  {
    StringLessAppend(p, q, p', q');
    StringLessDigits(p, p');
  }

  /** On date strings, `<` on strings is chronological order. */
  lemma {:induction false} StringOrderIsChronological(a: string, b: string)
    requires IsDateString(a) && IsDateString(b)
    ensures StringLess(a, b) <==> Earlier(a, b)
    ensures a == b <==> (Year(a) == Year(b) && Month(a) == Month(b) && Day(a) == Day(b))
  {
    assert a == a[..4] + ("-" + (a[5..7] + ("-" + a[8..])));
    assert b == b[..4] + ("-" + (b[5..7] + ("-" + b[8..])));
    DigitBlock(a[..4], "-" + (a[5..7] + ("-" + a[8..])), b[..4], "-" + (b[5..7] + ("-" + b[8..])));
    StringLessAppend("-", a[5..7] + ("-" + a[8..]), "-", b[5..7] + ("-" + b[8..]));
    DigitBlock(a[5..7], "-" + a[8..], b[5..7], "-" + b[8..]);
    StringLessAppend("-", a[8..], "-", b[8..]);
    StringLessDigits(a[8..], b[8..]);
    StringLessDigits(a[..4], b[..4]);
    StringLessDigits(a[5..7], b[5..7]);
  }

  /** The form's check `startDate > endDate` rejects exactly the end dates that come before the start. */
  lemma RejectsExactlyEarlierEnd(startDate: string, endDate: string)
    requires IsDateString(startDate) && IsDateString(endDate)
    ensures StringLess(endDate, startDate) <==> Earlier(endDate, startDate)
    ensures !StringLess(endDate, startDate) <==> (Earlier(startDate, endDate) || startDate == endDate)
  {
    StringOrderIsChronological(endDate, startDate);
    StringOrderIsChronological(startDate, endDate);
    StringLessTrichotomy(startDate, endDate);
  }
}
