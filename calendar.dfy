/** Python's `datetime.date` and naive `datetime.datetime` on the proleptic
    Gregorian calendar, the one-day step `d + timedelta(days=1)`, and the
    `'%Y-%m-%d'` form (ISO 8601 calendar date, extended format) that
    `strftime` writes and `strptime` reads. */
module Calendar {
  import opened Py

  datatype Date = Date(year: int, month: int, day: int)

  predicate IsLeapYear(y: int) {
    y % 4 == 0 && (y % 100 != 0 || y % 400 == 0)
  }

  function DaysInMonth(y: int, m: int): (n: int)
    requires 1 <= m <= 12
    ensures 28 <= n <= 31
    ensures m == 2 ==> (n == 29 <==> IsLeapYear(y))
  {
    if m == 2 then (if IsLeapYear(y) then 29 else 28)
    else if m == 4 || m == 6 || m == 9 || m == 11 then 30
    else 31
  }

  /** A date Python can represent: year between MINYEAR 1 and MAXYEAR 9999. */
  predicate IsValid(d: Date) {
    1 <= d.year <= 9999 && 1 <= d.month <= 12 && 1 <= d.day <= DaysInMonth(d.year, d.month)
  }

  type PyDate = d: Date | IsValid(d) witness Date(2000, 1, 1)

  const LastDate: PyDate := Date(9999, 12, 31)

  /** `a < b` on dates: chronological order. */
  predicate Before(a: Date, b: Date) {
    a.year < b.year
    || (a.year == b.year && a.month < b.month)
    || (a.year == b.year && a.month == b.month && a.day < b.day)
  }

  predicate NotAfter(a: Date, b: Date) {
    a == b || Before(a, b)
  }

  /** `d + timedelta(days=1)`: the next calendar day; the step past MAXYEAR
      raises OverflowError. */
  function NextDay(d: PyDate): (r: Result<PyDate>)
    ensures r.Ok? <==> d != LastDate
    ensures r.Ok? ==> Before(d, r.value)
    ensures r.Ok? ==> forall e: PyDate :: Before(d, e) ==> NotAfter(r.value, e)
  {
    if d.day < DaysInMonth(d.year, d.month) then Ok(Date(d.year, d.month, d.day + 1))
    else if d.month < 12 then Ok(Date(d.year, d.month + 1, 1))
    else if d.year < 9999 then Ok(Date(d.year + 1, 1, 1))
    else Err(OverflowError)
  }

  lemma MonthEndRollsOver(d: PyDate)
    requires d.month < 12 && d.day == DaysInMonth(d.year, d.month)
    ensures NextDay(d) == Ok(Date(d.year, d.month + 1, 1))
  {
  }

  lemma YearEndRollsOver(y: int)
    requires 1 <= y < 9999
    ensures NextDay(Date(y, 12, 31)) == Ok(Date(y + 1, 1, 1))
  {
  }

  /** 28 February steps to 29 February exactly in leap years. */
  lemma LeapDay(y: int)
    requires 1 <= y <= 9999
    ensures NextDay(Date(y, 2, 28)) == (if IsLeapYear(y) then Ok(Date(y, 2, 29)) else Ok(Date(y, 3, 1)))
    ensures IsLeapYear(y) ==> NextDay(Date(y, 2, 29)) == Ok(Date(y, 3, 1))
  {
  }

  /** A naive `datetime.datetime`: a date and a time of day to the microsecond.
      Two naive datetimes are equal exactly when all their fields are. */
  datatype DateTime = DateTime(date: PyDate, hour: int, minute: int, second: int, microsecond: int)

  /** The datetime `strptime` returns for a date-only format. */
  function AtMidnight(d: PyDate): (t: DateTime)
    ensures t.date == d
  {
    DateTime(d, 0, 0, 0, 0)
  }

  // ---------------------------------------------------------------------------
  // strftime('%Y-%m-%d')

  function DigitChar(n: int): (c: char)
    requires 0 <= n <= 9
    ensures '0' <= c <= '9'
  {
    (('0' as int) + n) as char
  }

  predicate IsDigit(c: char) {
    '0' <= c <= '9'
  }

  function DigitValue(c: char): (n: int)
    requires IsDigit(c)
    ensures 0 <= n <= 9
  {
    (c as int) - ('0' as int)
  }

  function Pad2(n: int): (s: string)
    requires 0 <= n <= 99
    ensures |s| == 2 && IsDigit(s[0]) && IsDigit(s[1])
    ensures DigitValue(s[0]) * 10 + DigitValue(s[1]) == n
  {
    [DigitChar(n / 10), DigitChar(n % 10)]
  }

  function Pad4(n: int): (s: string)
    requires 0 <= n <= 9999
    ensures |s| == 4 && forall i :: 0 <= i < 4 ==> IsDigit(s[i])
    ensures FourDigitValue(s) == n
  {
    var hi, lo := Pad2(n / 100), Pad2(n % 100);
    assert (hi + lo)[0] == hi[0] && (hi + lo)[1] == hi[1] && (hi + lo)[2] == lo[0] && (hi + lo)[3] == lo[1];
    assert (n / 100) * 100 + n % 100 == n;
    hi + lo
  }

  /** `d.strftime('%Y-%m-%d')`, every field zero-padded. */
  function Format(d: PyDate): (s: string)
    ensures |s| == 10 && s[4] == '-' && s[7] == '-'
    ensures forall i :: 0 <= i < 10 && i != 4 && i != 7 ==> IsDigit(s[i])
  {
    Pad4(d.year) + "-" + Pad2(d.month) + "-" + Pad2(d.day)
  }

  /** `d.strftime('%Y-%m')`. */
  function FormatMonth(d: PyDate): (s: string)
    ensures |s| == 7 && s == Format(d)[..7]
  {
    Pad4(d.year) + "-" + Pad2(d.month)
  }

  /** `d.strftime('%d')`. */
  function FormatDay(d: PyDate): (s: string)
    ensures |s| == 2 && s == Format(d)[8..]
  {
    Pad2(d.day)
  }

  /** Two dates share their `'%Y-%m'` key exactly when they share year and
      month, and their `'%d'` key exactly when they share the day. */
  lemma KeysOfDates(a: PyDate, b: PyDate)
    ensures FormatMonth(a) == FormatMonth(b) <==> a.year == b.year && a.month == b.month
    ensures FormatDay(a) == FormatDay(b) <==> a.day == b.day
  {
    if FormatMonth(a) == FormatMonth(b) {
      assert Pad4(a.year) == FormatMonth(a)[..4] && Pad4(b.year) == FormatMonth(b)[..4];
      assert Pad2(a.month) == FormatMonth(a)[5..] && Pad2(b.month) == FormatMonth(b)[5..];
    }
  }

  // ---------------------------------------------------------------------------
  // strptime(s, '%Y-%m-%d')

  function FourDigitValue(s: string): int
    requires |s| == 4 && forall i :: 0 <= i < 4 ==> IsDigit(s[i])
  {
    ((DigitValue(s[0]) * 10 + DigitValue(s[1])) * 10 + DigitValue(s[2])) * 10 + DigitValue(s[3])
  }

  /** The texts the `%m` directive accepts: `1[0-2]|0[1-9]|[1-9]`. */
  function MonthField(t: string): (r: Option<int>)
    ensures r.Some? ==> 1 <= r.value <= 12
  {
    if |t| == 1 && '1' <= t[0] <= '9' then Some(DigitValue(t[0]))
    else if |t| == 2 && t[0] == '0' && '1' <= t[1] <= '9' then Some(DigitValue(t[1]))
    else if |t| == 2 && t[0] == '1' && '0' <= t[1] <= '2' then Some(10 + DigitValue(t[1]))
    else None
  }

  /** The texts the `%d` directive accepts: `3[01]|[12]\d|0[1-9]|[1-9]| [1-9]`
      (a single space may stand for the leading zero). */
  function DayField(t: string): (r: Option<int>)
    ensures r.Some? ==> 1 <= r.value <= 31
  {
    if |t| == 1 && '1' <= t[0] <= '9' then Some(DigitValue(t[0]))
    else if |t| == 2 && (t[0] == '0' || t[0] == ' ') && '1' <= t[1] <= '9' then Some(DigitValue(t[1]))
    else if |t| == 2 && (t[0] == '1' || t[0] == '2') && IsDigit(t[1]) then Some(DigitValue(t[0]) * 10 + DigitValue(t[1]))
    else if |t| == 2 && t[0] == '3' && (t[1] == '0' || t[1] == '1') then Some(30 + DigitValue(t[1]))
    else None
  }

  /** Index of the first occurrence of `c` in `s`, or `|s|` when there is none. */
  function IndexOf(s: string, c: char): (i: nat)
    ensures i <= |s|
    ensures i < |s| ==> s[i] == c
    ensures forall k :: 0 <= k < i ==> s[k] != c
  {
    if s == [] then 0 else if s[0] == c then 0 else 1 + IndexOf(s[1..], c)
  }

  /** `datetime.strptime(s, '%Y-%m-%d').date()`: four digits, a dash, a month
      field, a dash and a day field, nothing else, naming a day that exists in
      a year from 1 to 9999; otherwise ValueError. The month field is the text
      up to the second dash, since no month text contains one. */
  function Parse(s: string): (r: Result<PyDate>)
    ensures r.Err? ==> r.exc == ValueError
  {
    if |s| < 5 || s[4] != '-' || !(forall i :: 0 <= i < 4 ==> IsDigit(s[i])) then Err(ValueError)
    else
      var rest := s[5..];
      var dash := IndexOf(rest, '-');
      if dash == |rest| then Err(ValueError)
      else
        var year := FourDigitValue(s[..4]);
        match (MonthField(rest[..dash]), DayField(rest[dash + 1..]))
        case (Some(m), Some(dd)) =>
          if 1 <= year && dd <= DaysInMonth(year, m) then Ok(Date(year, m, dd)) else Err(ValueError)
        case _ => Err(ValueError)
  }

  /** What strftime writes, strptime reads back. */
  lemma ParseFormat(d: PyDate)
    ensures Parse(Format(d)) == Ok(d)
  {
    var s := Format(d);
    var y, m, dd := Pad4(d.year), Pad2(d.month), Pad2(d.day);
    assert s[..4] == y;
    var rest := s[5..];
    assert rest == m + "-" + dd;
    assert IndexOf(rest, '-') == 2 by {
      assert rest[0] == m[0] && rest[1] == m[1] && rest[2] == '-';
    }
    assert rest[..2] == m && rest[3..] == dd;
    assert MonthField(m) == Some(d.month);
    assert DayField(dd) == Some(d.day);
  }

  /** Distinct dates are written as distinct strings. */
  lemma FormatInjective(a: PyDate, b: PyDate)
    requires Format(a) == Format(b)
    ensures a == b
  {
    ParseFormat(a);
    ParseFormat(b);
  }

  /** strptime is lenient: it also reads unpadded fields. */
  lemma ParseAcceptsUnpadded()
    ensures Parse("2024-1-5") == Ok(Date(2024, 1, 5))
  {
    var s := "2024-1-5";
    assert s[..4] == "2024" && s[5..] == "1-5";
    assert IndexOf("1-5", '-') == 1;
    assert "1-5"[..1] == "1" && "1-5"[2..] == "5";
  }

  /** 29 February parses only in a leap year. */
  lemma ParseLeapDayInCommonYear()
    ensures Parse("2023-02-29") == Err(ValueError)
  {
    var a := "2023-02-29";
    assert a[..4] == "2023" && a[5..] == "02-29";
    assert IndexOf("02-29", '-') == 2;
    assert "02-29"[..2] == "02" && "02-29"[3..] == "29";
  }

  lemma ParseLeapDayInLeapYear()
    ensures Parse("2024-02-29") == Ok(Date(2024, 2, 29))
  {
    var b := "2024-02-29";
    assert b[..4] == "2024" && b[5..] == "02-29";
    assert IndexOf("02-29", '-') == 2;
    assert "02-29"[..2] == "02" && "02-29"[3..] == "29";
  }
}
