/**
 * Go's time layout "01/02/2006", as used by the entry popup: formatting
 * today's date for the date field, and parsing the date field in its
 * validator.
 *
 * Parsing with that layout accepts exactly: two digits naming a month
 * 01..12, '/', two digits naming a day that exists in that month,
 * '/', four digits naming the year, and nothing more.  Formatting pads
 * month and day to two digits and the year to at least four.
 */
module DateLayout {
  import opened Common

  datatype Date = Date(year: nat, month: nat, day: nat)

  /** Gregorian leap years, as Go's time package counts them (year 0 is one). */
  predicate IsLeap(year: nat) {
    year % 4 == 0 && (year % 100 != 0 || year % 400 == 0)
  }

  function DaysIn(month: nat, year: nat): (n: nat)
    requires 1 <= month <= 12
    ensures 28 <= n <= 31
    ensures month == 2 ==> (n == 29 <==> IsLeap(year))
  {
    if month == 2 then (if IsLeap(year) then 29 else 28)
    else if month == 4 || month == 6 || month == 9 || month == 11 then 30
    else 31
  }

  /** A day that exists in the Gregorian calendar. */
  predicate IsCalendarDay(d: Date) {
    1 <= d.month <= 12 && 1 <= d.day <= DaysIn(d.month, d.year)
  }

  predicate IsDigit(c: char) {
    '0' <= c <= '9'
  }

  predicate AllDigits(s: string) {
    forall i :: 0 <= i < |s| ==> IsDigit(s[i])
  }

  function DigitChar(n: nat): (c: char)
    requires n < 10
    ensures IsDigit(c)
  {
    (('0' as int) + n) as char
  }

  function DigitValue(c: char): (n: nat)
    requires IsDigit(c)
    ensures n < 10 && DigitChar(n) == c
  {
    (c as int) - ('0' as int)
  }

  function Pow10(k: nat): (p: nat)
    ensures p >= 1
  {
    if k == 0 then 1 else 10 * Pow10(k - 1)
  }

  /** The number a string of decimal digits denotes. */
  function ValueOf(s: string): nat
    requires AllDigits(s)
  {
    if s == [] then 0 else ValueOf(s[..|s| - 1]) * 10 + DigitValue(s[|s| - 1])
  }

  /** The last `width` decimal digits of `n`, zero-padded on the left. */
  function Fixed(n: nat, width: nat): (s: string)
    ensures |s| == width && AllDigits(s)
  {
    if width == 0 then [] else Fixed(n / 10, width - 1) + [DigitChar(n % 10)]
  }

  /** All decimal digits of `n`, without padding. */
  function Decimal(n: nat): (s: string)
    ensures |s| >= 1 && AllDigits(s)
  {
    if n < 10 then [DigitChar(n)] else Decimal(n / 10) + [DigitChar(n % 10)]
  }

  /** The "2006" element: at least four digits, zero-padded. */
  function FormatYear(year: nat): string {
    if year < 10000 then Fixed(year, 4) else Decimal(year)
  }

  /**
   * time.Time.Format with layout "01/02/2006": the text is ten characters
   * long exactly when the year has at most four digits.
   */
  function Format(d: Date): (s: string)
    ensures |s| >= 10 && s[2] == '/' && s[5] == '/'
    ensures |s| == 10 <==> d.year < 10000
  {
    var text := Fixed(d.month, 2) + "/" + Fixed(d.day, 2) + "/" + FormatYear(d.year);
    if d.year < 10000 then text
    else
      assert Pow10(4) == 10000;
      DecimalLength(d.year, 4);
      text
  }

  /**
   * time.Parse with layout "01/02/2006"; None stands for a parse error.
   * Only ten-character texts can parse, and what they denote is a real
   * calendar day with a four-digit year.
   */
  function ParseDate(s: string): (p: Option<Date>)
    ensures p.Some? ==> |s| == 10 && IsCalendarDay(p.value) && p.value.year < 10000
  {
    if |s| == 10 && AllDigits(s[0..2]) && s[2] == '/' && AllDigits(s[3..5])
       && s[5] == '/' && AllDigits(s[6..10])
    then
      ValueOfBound(s[6..10]);
      assert Pow10(4) == 10000;
      var d := Date(ValueOf(s[6..10]), ValueOf(s[0..2]), ValueOf(s[3..5]));
      if IsCalendarDay(d) then Some(d) else None
    else None
  }

  lemma {:induction false} ValueOfBound(s: string)
    requires AllDigits(s)
    ensures ValueOf(s) < Pow10(|s|)
  {
    if s != [] {
      ValueOfBound(s[..|s| - 1]);
    }
  }

  lemma {:induction false} ValueOfFixed(n: nat, width: nat)
    requires n < Pow10(width)
    ensures ValueOf(Fixed(n, width)) == n
  {
    if width > 0 {
      var s := Fixed(n, width);
      assert s[..|s| - 1] == Fixed(n / 10, width - 1);
      ValueOfFixed(n / 10, width - 1);
    }
  }

  lemma {:induction false} FixedValueOf(s: string)
    requires AllDigits(s)
    ensures Fixed(ValueOf(s), |s|) == s
  {
    if s != [] {
      var init := s[..|s| - 1];
      var v := ValueOf(init);
      var d := DigitValue(s[|s| - 1]);
      assert (v * 10 + d) / 10 == v && (v * 10 + d) % 10 == d;
      FixedValueOf(init);
      assert s == init + [s[|s| - 1]];
    }
  }

  lemma {:induction false} DecimalLength(n: nat, k: nat)
    requires n >= Pow10(k)
    ensures |Decimal(n)| >= k + 1
  {
    if k > 0 {
      DecimalLength(n / 10, k - 1);
    }
  }

  /** A formatted calendar day with a four-digit year parses back to itself. */
  lemma FormatThenParse(d: Date)
    requires IsCalendarDay(d) && d.year < 10000
    ensures ParseDate(Format(d)) == Some(d)
  {
    var m, dd, y := Fixed(d.month, 2), Fixed(d.day, 2), Fixed(d.year, 4);
    var s := Format(d);
    assert s == m + "/" + dd + "/" + y;
    assert s[0..2] == m && s[3..5] == dd && s[6..10] == y;
    ValueOfFixed(d.month, 2);
    ValueOfFixed(d.day, 2);
    ValueOfFixed(d.year, 4);
  }

  /** Whatever parses is a calendar day with a four-digit year, and is its own formatting. */
  lemma ParseThenFormat(s: string)
    requires ParseDate(s).Some?
    ensures var d := ParseDate(s).value;
            IsCalendarDay(d) && d.year < 10000 && Format(d) == s
  {
    var d := ParseDate(s).value;
    var m, dd, y := s[0..2], s[3..5], s[6..10];
    assert d == Date(ValueOf(y), ValueOf(m), ValueOf(dd));
    ValueOfBound(y);
    assert Pow10(4) == 10000;
    FixedValueOf(m);
    FixedValueOf(dd);
    FixedValueOf(y);
    assert Format(d) == m + "/" + dd + "/" + y;
    assert s == m + "/" + dd + "/" + y;
  }

  /** Formatting a year of five or more digits gives text the layout rejects. */
  lemma LongYearDoesNotParse(d: Date)
    requires d.year >= 10000
    ensures ParseDate(Format(d)) == None
  {
    DecimalLength(d.year, 4);
  }

  lemma FormatExample()
    ensures Format(Date(2025, 1, 2)) == "01/02/2025"
  {
  }

  /** The accepted strings are exactly the formatted calendar days with a four-digit year. */
  lemma ParseDateExact(s: string)
    ensures ParseDate(s).Some? <==> exists d :: IsCalendarDay(d) && d.year < 10000 && s == Format(d)
  {
    if ParseDate(s).Some? {
      ParseThenFormat(s);
    } else if d :| IsCalendarDay(d) && d.year < 10000 && s == Format(d) {
      FormatThenParse(d);
    }
  }
}
