/** The day-first date reading of the metrics, `parseBrDate`, and the
    same-day / same-month comparisons it feeds. A date is a
    (day, month, year) triple with the month counted from 1. */
module Dates {
  import opened Wrappers
  import opened Text
  import opened Decimal

  datatype Date = Date(day: int, month: int, year: int)

  /** A JavaScript `Date`: either a calendar day or the invalid date NaN
      produces. */
  datatype DateValue = Invalid | Valid(date: Date)

  /** `new Date(0)`, read in the local calendar of a zone at or east of UTC. */
  const Epoch := Date(1, 1, 1970)

  /** `new Date(y, …)` maps the years 0 to 99 onto 1900 to 1999. */
  function FullYear(y: int): (r: int)
    ensures 0 <= y <= 99 ==> r == 1900 + y
    ensures (y < 0 || y > 99) ==> r == y
  {
    if 0 <= y <= 99 then 1900 + y else y
  }

  /** `new Date(year, month - 1, day)` from three `parseInt` results: NaN
      in any of them gives the invalid date. */
  function MakeDate(year: Option<int>, month: Option<int>, day: Option<int>): (r: DateValue)
    ensures r.Valid? <==> year.Some? && month.Some? && day.Some?
  {
    if year.Some? && month.Some? && day.Some? then
      Valid(Date(day.value, month.value, FullYear(year.value)))
    else Invalid
  }

  /** `parseBrDate`: null or empty reads as the epoch; text with exactly
      two '/' is read as day/month/year; anything else goes to the ISO
      reader `iso`, which stands for date-fns `parseISO`. */
  function ParseBrDate(s: Option<string>, iso: string -> DateValue): (r: DateValue)
    ensures s.None? ==> r == Valid(Epoch)
    ensures s == Some("") ==> r == Valid(Epoch)
    ensures s.Some? && s.value != "" && Count(s.value, '/') != 2 ==> r == iso(s.value)
  {
    match s
    case None => Valid(Epoch)
    case Some(str) =>
      if str == "" then Valid(Epoch)
      else
        var parts := Split(str, '/');
        if |parts| == 3 then
          MakeDate(ParseInt(parts[2]), ParseInt(parts[1]), ParseInt(parts[0]))
        else iso(str)
  }

  /** A three-part string is read as year = third part, month = second,
      day = first. */
  lemma ParseBrDateParts(a: string, b: string, c: string, iso: string -> DateValue)
    requires '/' !in a && '/' !in b && '/' !in c
    ensures ParseBrDate(Some(a + "/" + b + "/" + c), iso)
         == MakeDate(ParseInt(c), ParseInt(b), ParseInt(a))
  {
    var s := a + "/" + b + "/" + c;
    assert Join([a, b, c], '/') == s by {
      assert [a, b, c][1..] == [b, c];
      assert [b, c][1..] == [c];
      assert Join([b, c], '/') == b + ['/'] + c;
      assert Join([a, b, c], '/') == a + ['/'] + (b + ['/'] + c);
    }
    SplitJoin([a, b, c], '/');
    assert |s| > 0;
  }

  /** With digits in every part, the date is exactly the triple written. */
  lemma ParseBrDateDigits(a: string, b: string, c: string, iso: string -> DateValue)
    requires |a| > 0 && |b| > 0 && |c| > 0
    requires AllDigits(a) && AllDigits(b) && AllDigits(c)
    ensures ParseBrDate(Some(a + "/" + b + "/" + c), iso)
         == Valid(Date(Value(a), Value(b), FullYear(Value(c))))
  {
    assert '/' !in a && '/' !in b && '/' !in c by {
      assert forall i :: 0 <= i < |a| ==> a[i] != '/';
      assert forall i :: 0 <= i < |b| ==> b[i] != '/';
      assert forall i :: 0 <= i < |c| ==> c[i] != '/';
    }
    ParseBrDateParts(a, b, c, iso);
    ParseIntOfDigits(a);
    ParseIntOfDigits(b);
    ParseIntOfDigits(c);
  }

  /** date-fns `isSameDay`; the invalid date is never the same day as anything. */
  predicate SameDay(d: DateValue, now: Date) {
    d.Valid? && d.date == now
  }

  /** date-fns `isSameMonth`: same month of the same year. */
  predicate SameMonth(d: DateValue, now: Date) {
    d.Valid? && d.date.month == now.month && d.date.year == now.year
  }

  /** Falling on today means falling in this month. */
  lemma SameDayIsSameMonth(d: DateValue, now: Date)
    ensures SameDay(d, now) ==> SameMonth(d, now)
  {
  }
}
