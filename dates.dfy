/**
 * Date checks of the search-criteria helper: isDateValid with its default
 * format "Y-m-d H:i:s", and the guard of getLocalDate.
 *
 * PHP's DateTime::createFromFormat is modelled by Parse, which reads the six
 * fixed-width fields of a "YYYY-MM-DD HH:MM:SS" string, and DateTime::format
 * by Format, which prints them back zero-padded. Parse gives no instant where
 * PHP would roll an out-of-range field over, and for fields PHP reads without
 * their leading zeros (Y with fewer than four digits, m, d or H with one); in
 * both cases the formatted text differs from the input, so isDateValid's
 * verdict is the same. PHP's default timezone is taken to be UTC, as Magento's
 * bootstrap sets it, so every in-range local time exists and the verdict
 * depends on the text alone.
 */
module Dates {
  import opened Wrappers

  /** A calendar date and time of day, to the second. */
  datatype DateTime = DateTime(year: int, month: int, day: int, hour: int, minute: int, second: int)

  /** The Gregorian leap-year rule. */
  predicate IsLeapYear(year: int) {
    year % 4 == 0 && (year % 100 != 0 || year % 400 == 0)
  }

  function DaysInMonth(year: int, month: int): (n: int)
    requires 1 <= month <= 12
  {
    if month == 2 then (if IsLeapYear(year) then 29 else 28)
    else if month == 4 || month == 6 || month == 9 || month == 11 then 30
    else 31
  }

  /** A real instant whose year fits the four digits of "Y". */
  predicate Valid(dt: DateTime) {
    && 0 <= dt.year <= 9999
    && 1 <= dt.month <= 12
    && 1 <= dt.day <= DaysInMonth(dt.year, dt.month)
    && 0 <= dt.hour < 24
    && 0 <= dt.minute < 60
    && 0 <= dt.second < 60
  }

  // ---------------------------------------------------------------- digits

  predicate IsDigit(c: char) {
    '0' <= c <= '9'
  }

  function DigitChar(d: int): (c: char)
    requires 0 <= d <= 9
    ensures IsDigit(c)
  {
    ('0' as int + d) as char
  }

  function DigitValue(c: char): (d: int)
    requires IsDigit(c)
    ensures 0 <= d <= 9 && DigitChar(d) == c
  {
    c as int - '0' as int
  }

  /** Decimal digits at positions i and i + 1 of s. */
  predicate DigitPair(s: string, i: nat) {
    i + 1 < |s| && IsDigit(s[i]) && IsDigit(s[i + 1])
  }

  /** The number the two digits at positions i and i + 1 denote. */
  function PairValue(s: string, i: nat): (n: int)
    requires DigitPair(s, i)
    ensures 0 <= n <= 99
  {
    10 * DigitValue(s[i]) + DigitValue(s[i + 1])
  }

  /** Two zero-padded digits, as "m", "d", "H", "i" and "s" print. */
  function Pad2(n: int): (t: string)
    requires 0 <= n <= 99
    ensures |t| == 2 && DigitPair(t, 0)
  {
    [DigitChar(n / 10), DigitChar(n % 10)]
  }

  /** Four zero-padded digits, as "Y" prints a year below 10000. */
  function Pad4(n: int): (t: string)
    requires 0 <= n <= 9999
    ensures |t| == 4 && DigitPair(t, 0) && DigitPair(t, 2)
  {
    Pad2(n / 100) + Pad2(n % 100)
  }

  // ------------------------------------------------------ format and parse

  /** DateTime::format("Y-m-d H:i:s"). */
  function Format(dt: DateTime): (s: string)
    requires Valid(dt)
    ensures |s| == 19
  {
    Pad4(dt.year) + "-" + Pad2(dt.month) + "-" + Pad2(dt.day) + " "
      + Pad2(dt.hour) + ":" + Pad2(dt.minute) + ":" + Pad2(dt.second)
  }

  /** The layout "Y-m-d H:i:s" prints: digits with separators at fixed places. */
  predicate Shaped(s: string) {
    && |s| == 19
    && s[4] == '-' && s[7] == '-' && s[10] == ' ' && s[13] == ':' && s[16] == ':'
    && DigitPair(s, 0) && DigitPair(s, 2) && DigitPair(s, 5) && DigitPair(s, 8)
    && DigitPair(s, 11) && DigitPair(s, 14) && DigitPair(s, 17)
  }

  /** The six numeric fields of a shaped string, not yet range-checked. */
  function Fields(s: string): (dt: DateTime)
    requires Shaped(s)
  {
    DateTime(100 * PairValue(s, 0) + PairValue(s, 2), PairValue(s, 5), PairValue(s, 8),
             PairValue(s, 11), PairValue(s, 14), PairValue(s, 17))
  }

  /**
   * DateTime::createFromFormat("Y-m-d H:i:s", s). Where PHP would roll an
   * out-of-range field over into a neighbouring one (30 February becomes
   * 2 March), and for fields PHP reads without their leading zeros
   * ("2023-1-5 7:00:00", "987-01-01 00:00:00"), this gives None: such an instant never prints back
   * as s, because the roll-over changes a field and Format pads every field.
   */
  function Parse(s: string): (r: Option<DateTime>)
  {
    if Shaped(s) && Valid(Fields(s)) then Some(Fields(s)) else None
  }

  /** isDateValid: s parses and prints back as exactly s. */
  predicate IsDateValid(s: string)
    ensures IsDateValid(s) ==> Shaped(s) && Valid(Fields(s))
  {
    match Parse(s)
    case None => false
    case Some(dt) => Format(dt) == s
  }

  // ---------------------------------------------------------- digit lemmas

  /** Two padded digits read back as the number they print. */
  lemma Pad2Value(n: int)
    requires 0 <= n <= 99
    ensures PairValue(Pad2(n), 0) == n
  {
    assert DigitValue(DigitChar(n / 10)) == n / 10;
    assert DigitValue(DigitChar(n % 10)) == n % 10;
  }

  /** Two digits print back, padded, as themselves. */
  lemma ValuePad2(s: string, i: nat)
    requires DigitPair(s, i)
    ensures Pad2(PairValue(s, i)) == s[i..i + 2]
  {
    var n := PairValue(s, i);
    assert n / 10 == DigitValue(s[i]) && n % 10 == DigitValue(s[i + 1]);
  }

  /** A shaped string is its digit pairs joined by the separators of "Y-m-d H:i:s". */
  lemma ShapedLayout(s: string)
    requires Shaped(s)
    ensures s == s[0..2] + s[2..4] + "-" + s[5..7] + "-" + s[8..10] + " "
               + s[11..13] + ":" + s[14..16] + ":" + s[17..19]
  {
    assert s == s[0..2] + s[2..4] + [s[4]] + s[5..7] + [s[7]] + s[8..10] + [s[10]]
              + s[11..13] + [s[13]] + s[14..16] + [s[16]] + s[17..19];
  }

  // ---------------------------------------------------- round-trip lemmas

  /** Every valid instant prints as a string that parses back to it. */
  lemma ParseFormat(dt: DateTime)
    requires Valid(dt)
    ensures Parse(Format(dt)) == Some(dt)
  {
    var s := Format(dt);
    var hi, lo := Pad2(dt.year / 100), Pad2(dt.year % 100);
    var mo, d, h, mi, se := Pad2(dt.month), Pad2(dt.day), Pad2(dt.hour), Pad2(dt.minute), Pad2(dt.second);
    assert s == hi + lo + "-" + mo + "-" + d + " " + h + ":" + mi + ":" + se;
    assert s[0] == hi[0] && s[1] == hi[1] && s[2] == lo[0] && s[3] == lo[1];
    assert s[5] == mo[0] && s[6] == mo[1] && s[8] == d[0] && s[9] == d[1];
    assert s[11] == h[0] && s[12] == h[1] && s[14] == mi[0] && s[15] == mi[1];
    assert s[17] == se[0] && s[18] == se[1];
    assert Shaped(s);
    Pad2Value(dt.year / 100);
    Pad2Value(dt.year % 100);
    Pad2Value(dt.month);
    Pad2Value(dt.day);
    Pad2Value(dt.hour);
    Pad2Value(dt.minute);
    Pad2Value(dt.second);
    assert Fields(s) == dt;
  }

  /** The text of a shaped string's fields: each field's digits, printed back padded. */
  lemma FormatFields(s: string)
    requires Shaped(s) && Valid(Fields(s))
    ensures Format(Fields(s))
         == Pad2(PairValue(s, 0)) + Pad2(PairValue(s, 2)) + "-" + Pad2(PairValue(s, 5)) + "-"
          + Pad2(PairValue(s, 8)) + " " + Pad2(PairValue(s, 11)) + ":" + Pad2(PairValue(s, 14)) + ":"
          + Pad2(PairValue(s, 17))
  {
    var dt := Fields(s);
    assert dt.year / 100 == PairValue(s, 0) && dt.year % 100 == PairValue(s, 2);
  }

  /** Whatever parses prints back as the very string it was read from. */
  lemma FormatParse(s: string)
    requires Parse(s).Some?
    ensures Format(Parse(s).value) == s
  {
    FormatFields(s);
    ValuePad2(s, 0);
    ValuePad2(s, 2);
    ValuePad2(s, 5);
    ValuePad2(s, 8);
    ValuePad2(s, 11);
    ValuePad2(s, 14);
    ValuePad2(s, 17);
    ShapedLayout(s);
  }

  /**
   * isDateValid accepts exactly the canonical "YYYY-MM-DD HH:MM:SS" strings
   * whose fields name a real calendar instant.
   */
  lemma IsDateValidExactly(s: string)
    ensures IsDateValid(s) <==> Shaped(s) && Valid(Fields(s))
  {
    if Parse(s).Some? {
      FormatParse(s);
    }
  }

  /** Every valid instant's text passes isDateValid. */
  lemma FormattedIsDateValid(dt: DateTime)
    requires Valid(dt)
    ensures IsDateValid(Format(dt))
  {
    ParseFormat(dt);
  }

  /** Day 30 of February does not survive the round trip. */
  lemma RejectsFebruary30()
    ensures !IsDateValid("2023-02-30 10:00:00")
  {
    var s := "2023-02-30 10:00:00";
    assert Shaped(s);
    assert PairValue(s, 0) == 20 && PairValue(s, 2) == 23;
    assert PairValue(s, 5) == 2 && PairValue(s, 8) == 30;
    assert DaysInMonth(2023, 2) == 28;
    IsDateValidExactly(s);
  }

  /** 2024 is a leap year, so its 29 February passes. */
  lemma LeapDayIn2024()
    ensures IsDateValid("2024-02-29 00:00:00")
  {
    var s := "2024-02-29 00:00:00";
    assert Shaped(s);
    assert PairValue(s, 0) == 20 && PairValue(s, 2) == 24;
    assert PairValue(s, 5) == 2 && PairValue(s, 8) == 29;
    assert PairValue(s, 11) == 0 && PairValue(s, 14) == 0 && PairValue(s, 17) == 0;
    IsDateValidExactly(s);
  }

  /** 2023 is not a leap year, so its 29 February fails. */
  lemma NoLeapDayIn2023()
    ensures !IsDateValid("2023-02-29 00:00:00")
  {
    var s := "2023-02-29 00:00:00";
    assert Shaped(s);
    assert PairValue(s, 0) == 20 && PairValue(s, 2) == 23;
    assert PairValue(s, 5) == 2 && PairValue(s, 8) == 29;
    assert DaysInMonth(2023, 2) == 28;
    IsDateValidExactly(s);
  }

  /** 29 February exists in 2024 but not in 2023. */
  lemma LeapDayOnlyInLeapYears()
    ensures IsDateValid("2024-02-29 00:00:00")
    ensures !IsDateValid("2023-02-29 00:00:00")
  {
    LeapDayIn2024();
    NoLeapDayIn2023();
  }

  /** A date without a time of day does not match the default format. */
  lemma RejectsDateOnly()
    ensures !IsDateValid("2023-02-28")
  {
  }

  // ----------------------------------------------------------- getLocalDate

  /**
   * getLocalDate: null, empty ("" and "0" are both empty in PHP) and invalid
   * dates come back unchanged; a valid date is handed to the store-timezone
   * conversion `localize`, whose None stands for the exception that makes
   * getLocalDate fall back to the input.
   */
  function LocalDate(date: Option<string>, localize: string -> Option<string>): (r: Option<string>)
    ensures r != date ==> date.Some? && IsDateValid(date.value) && r == localize(date.value)
    ensures date.Some? && IsDateValid(date.value) && localize(date.value).Some?
            ==> r == localize(date.value)
  {
    if date.None? || date.value == "" || date.value == "0" || !IsDateValid(date.value) then date
    else
      match localize(date.value)
      case None => date
      case Some(local) => Some(local)
  }
}
