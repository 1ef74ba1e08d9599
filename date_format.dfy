/** `format_date`, the date normaliser that the PDF and the HTML exporters
  * share (the two copies are identical). It maps "still ongoing" markers to
  * `至今`, rewrites dates that `datetime.strptime` accepts under one of the
  * formats `%Y-%m`, `%Y/%m`, `%Y.%m` and `%Y` as `YYYY.MM`, and returns
  * anything else stripped but otherwise unchanged. */
module DateFormat {
  import opened Wrappers
  import opened Text

  /** The texts that mean "up to now", compared exactly (so case-sensitively). */
  const OngoingTexts: seq<String> := ["至今", "现在", "Present", "Current"]

  const Ongoing: String := "至今"

  function DigitValue(c: char): (v: nat)
    requires IsDigit(c)
    ensures v < 10 && DigitChar(v) == c
  {
    c as int - '0' as int
  }

  /** What `%Y` matches in `strptime`: exactly four ASCII digits. */
  predicate IsYearText(t: String) {
    |t| == 4 && IsDigit(t[0]) && IsDigit(t[1]) && IsDigit(t[2]) && IsDigit(t[3])
  }

  function YearValue(t: String): (y: nat)
    requires IsYearText(t)
    ensures y <= 9999
  {
    1000 * DigitValue(t[0]) + 100 * DigitValue(t[1]) + 10 * DigitValue(t[2]) + DigitValue(t[3])
  }

  /** What `%m` matches in `strptime` when nothing may follow it: `1[0-2]`,
    * `0[1-9]` or `[1-9]`. */
  predicate IsMonthText(t: String) {
    || (|t| == 1 && '1' <= t[0] <= '9')
    || (|t| == 2 && t[0] == '0' && '1' <= t[1] <= '9')
    || (|t| == 2 && t[0] == '1' && '0' <= t[1] <= '2')
  }

  function MonthValue(t: String): (m: nat)
    requires IsMonthText(t)
    ensures 1 <= m <= 12
  {
    if |t| == 1 then DigitValue(t[0]) else 10 * DigitValue(t[0]) + DigitValue(t[1])
  }

  /** A `datetime` as far as `strftime('%Y.%m')` looks at it. */
  datatype Date = Date(year: nat, month: nat)

  predicate ValidDate(d: Date) {
    1 <= d.year <= 9999 && 1 <= d.month <= 12
  }

  /** `datetime.strptime(s, fmt)` for `fmt` = `%Y<sep>%m` (`sep` present) or
    * `%Y` (`sep` absent); `None` where it raises `ValueError`, which includes
    * the year 0 that `datetime` refuses. A missing month is January. */
  function ParseWith(s: String, sep: Option<char>): (r: Option<Date>)
    ensures r.Some? ==> ValidDate(r.value)
    ensures r.Some? ==> |s| >= 4 && IsYearText(s[..4]) && r.value.year == YearValue(s[..4])
    ensures sep.None? ==> (r.Some? <==> |s| == 4 && IsYearText(s) && YearValue(s) != 0)
    ensures sep.None? && r.Some? ==> r.value.month == 1
    ensures sep.Some? ==>
      (r.Some? <==> |s| >= 5 && IsYearText(s[..4]) && YearValue(s[..4]) != 0 && s[4] == sep.value && IsMonthText(s[5..]))
    ensures sep.Some? && r.Some? ==> r.value.month == MonthValue(s[5..])
  {
    if |s| < 4 || !IsYearText(s[..4]) || YearValue(s[..4]) == 0 then None
    else
      match sep
      case None => if |s| == 4 then Some(Date(YearValue(s[..4]), 1)) else None
      case Some(c) =>
        if |s| >= 5 && s[4] == c && IsMonthText(s[5..]) then Some(Date(YearValue(s[..4]), MonthValue(s[5..])))
        else None
  }

  /** The formats `format_date` tries, in order. */
  const Formats: seq<Option<char>> := [Some('-'), Some('/'), Some('.'), None]

  /** The result of the first format in `fmts` under which `s` parses. */
  function ParseFirst(s: String, fmts: seq<Option<char>>): (r: Option<Date>)
    ensures r.Some? ==> exists k :: 0 <= k < |fmts| && ParseWith(s, fmts[k]) == r
    ensures r.None? ==> forall k :: 0 <= k < |fmts| ==> ParseWith(s, fmts[k]).None?
  {
    if fmts == [] then None
    else
      var d := ParseWith(s, fmts[0]);
      if d.Some? then d else ParseFirst(s, fmts[1..])
  }

  /** `n` with two digits, zero-padded (`%m`, and each half of `%Y`). */
  function TwoDigits(n: nat): (r: String)
    requires n < 100
    ensures |r| == 2 && IsDigit(r[0]) && IsDigit(r[1])
  {
    [DigitChar(n / 10), DigitChar(n % 10)]
  }

  /** `dt.strftime('%Y.%m')` with a four-digit year. */
  function Strftime(d: Date): (r: String)
    requires ValidDate(d)
    ensures IsYearMonth(r)
  {
    TwoDigits(d.year / 100) + TwoDigits(d.year % 100) + "." + TwoDigits(d.month)
  }

  /** The shape of every date that `format_date` rewrites: `YYYY.MM` with a
    * month from 01 to 12. */
  predicate IsYearMonth(r: String) {
    |r| == 7 && IsYearText(r[..4]) && r[4] == '.' && |r[5..]| == 2 && IsMonthText(r[5..])
  }

  /** `format_date(date_str)` */
  function FormatDate(d: String): (r: String)
    ensures d == "" ==> r == ""
    ensures r == Ongoing || IsYearMonth(r) || r == Strip(d)
  {
    if d == "" then ""
    else
      var t := Strip(d);
      if t in OngoingTexts then Ongoing
      else
        match ParseFirst(t, Formats)
        case Some(dt) => Strftime(dt)
        case None => t
  }

  /** An empty date stays empty, an ongoing marker becomes `至今`, and any
    * other date is either rewritten as `YYYY.MM` or, when no format reads it,
    * kept stripped. */
  lemma FormatDateCases(d: String)
    ensures d == "" ==> FormatDate(d) == ""
    ensures d != "" && Strip(d) in OngoingTexts ==> FormatDate(d) == Ongoing
    ensures d != "" && Strip(d) !in OngoingTexts ==>
              (FormatDate(d) == Strip(d) && ParseFirst(Strip(d), Formats).None?) || IsYearMonth(FormatDate(d))
    ensures d != "" && Strip(d) !in OngoingTexts && ParseFirst(Strip(d), Formats).Some? ==>
              FormatDate(d) == Strftime(ParseFirst(Strip(d), Formats).value)
    ensures d != "" && Strip(d) !in OngoingTexts && ParseFirst(Strip(d), Formats).None? ==>
              FormatDate(d) == Strip(d)
  {
    if d != "" && Strip(d) !in OngoingTexts {
      match ParseFirst(Strip(d), Formats)
      case Some(dt) =>
      case None =>
    }
  }

  /** Surrounding whitespace never matters: a padded date such as ` 2024-3 `
    * is normalised like its stripped text, and a blank one becomes `""`. */
  lemma FormatDateIgnoresPadding(d: String)
    ensures FormatDate(d) == FormatDate(Strip(d))
    ensures Strip(d) == "" ==> FormatDate(d) == ""
  {
    StripIdempotent(d);
    if Strip(d) == "" {
      assert ParseFirst(Strip(d), Formats).None?;
    }
  }

  /** The `%m` text written with two digits. */
  function PadMonth(m: String): String {
    if |m| == 1 then "0" + m else m
  }

  lemma DivMod100(a: nat, b: nat)
    requires b < 100
    ensures (100 * a + b) / 100 == a && (100 * a + b) % 100 == b
  {
  }

  /** Two digits read as a number print as themselves. */
  lemma TwoDigitsOfDigits(a: char, b: char)
    requires IsDigit(a) && IsDigit(b)
    ensures TwoDigits(10 * DigitValue(a) + DigitValue(b)) == [a, b]
  {
  }

  /** Printing a parsed year and month gives back the year's digits and the
    * month's digits, padded to two. */
  lemma StrftimeOfTexts(y: String, m: String)
    requires IsYearText(y) && YearValue(y) >= 1 && IsMonthText(m)
    ensures Strftime(Date(YearValue(y), MonthValue(m))) == y + "." + PadMonth(m)
  {
    var hi := 10 * DigitValue(y[0]) + DigitValue(y[1]);
    var lo := 10 * DigitValue(y[2]) + DigitValue(y[3]);
    assert YearValue(y) == 100 * hi + lo;
    DivMod100(hi, lo);
    TwoDigitsOfDigits(y[0], y[1]);
    TwoDigitsOfDigits(y[2], y[3]);
    assert y == [y[0], y[1]] + [y[2], y[3]];
    MonthDigits(m);
  }

  lemma MonthDigits(m: String)
    requires IsMonthText(m)
    ensures TwoDigits(MonthValue(m)) == PadMonth(m)
  {
    if |m| == 1 {
      TwoDigitsOfDigits('0', m[0]);
    } else {
      TwoDigitsOfDigits(m[0], m[1]);
    }
  }

  /** The first of the formats `%Y-%m`, `%Y/%m`, `%Y.%m`, `%Y` that parses. */
  lemma FormatsInOrder(s: String)
    ensures ParseFirst(s, Formats) ==
      if ParseWith(s, Some('-')).Some? then ParseWith(s, Some('-'))
      else if ParseWith(s, Some('/')).Some? then ParseWith(s, Some('/'))
      else if ParseWith(s, Some('.')).Some? then ParseWith(s, Some('.'))
      else ParseWith(s, None)
  {
    var f1, f2, f3 := Formats[1..], Formats[2..], Formats[3..];
    assert f1[1..] == f2 && f2[1..] == f3 && f3[1..] == [];
    assert ParseFirst(s, f3) == ParseWith(s, None);
    assert ParseFirst(s, f2) == if ParseWith(s, Some('.')).Some? then ParseWith(s, Some('.')) else ParseFirst(s, f3);
    assert ParseFirst(s, f1) == if ParseWith(s, Some('/')).Some? then ParseWith(s, Some('/')) else ParseFirst(s, f2);
  }

  /** A date written `YYYY<sep>M` or `YYYY<sep>MM` with `sep` one of `-`, `/`
    * and `.` is normalised to `YYYY.MM`. */
  lemma FormatYearMonth(y: String, sep: char, m: String)
    requires IsYearText(y) && YearValue(y) >= 1 && IsMonthText(m)
    requires sep == '-' || sep == '/' || sep == '.'
    ensures FormatDate(y + [sep] + m) == y + "." + PadMonth(m)
  {
    var s := y + [sep] + m;
    assert s[..4] == y && s[4] == sep && s[5..] == m;
    DigitIsNotSpace(s[0]);
    DigitIsNotSpace(s[|s| - 1]);
    StripOfTrimmed(s);
    NotOngoing(s);
    FormatsInOrder(s);
    assert ParseFirst(s, Formats) == Some(Date(YearValue(y), MonthValue(m)));
    StrftimeOfTexts(y, m);
  }

  /** A bare year `YYYY` is normalised to `YYYY.01`. */
  lemma FormatYear(y: String)
    requires IsYearText(y) && YearValue(y) >= 1
    ensures FormatDate(y) == y + ".01"
  {
    DigitIsNotSpace(y[0]);
    DigitIsNotSpace(y[3]);
    StripOfTrimmed(y);
    NotOngoing(y);
    assert y[..4] == y;
    FormatsInOrder(y);
    assert ParseFirst(y, Formats) == Some(Date(YearValue(y), 1));
    StrftimeOfTexts(y, "1");
  }

  /** A text that starts with an ASCII digit is none of the ongoing markers. */
  lemma NotOngoing(s: String)
    requires s != [] && IsDigit(s[0])
    ensures s !in OngoingTexts
  {
    assert forall k :: 0 <= k < |OngoingTexts| ==> !IsDigit(OngoingTexts[k][0]);
  }

  /** Normalising a second time changes nothing. */
  lemma FormatDateIdempotent(d: String)
    ensures FormatDate(FormatDate(d)) == FormatDate(d)
  {
    var r := FormatDate(d);
    if d == "" {
    } else if Strip(d) in OngoingTexts {
      OngoingIsFixed();
    } else if ParseFirst(Strip(d), Formats).None? {
      StripIdempotent(d);
      KeptIsFixed(Strip(d));
    } else {
      var dt := ParseFirst(Strip(d), Formats).value;
      StrftimeIsFixed(dt);
    }
  }

  lemma OngoingIsFixed()
    ensures FormatDate(Ongoing) == Ongoing
  {
    StripOfTrimmed(Ongoing);
  }

  /** A stripped text that no format accepts is its own normal form. */
  lemma KeptIsFixed(t: String)
    requires t == Strip(t) && t !in OngoingTexts && ParseFirst(t, Formats).None?
    ensures FormatDate(t) == t
  {
  }

  /** A printed date is its own normal form. */
  lemma StrftimeIsFixed(dt: Date)
    requires ValidDate(dt)
    ensures FormatDate(Strftime(dt)) == Strftime(dt)
  {
    var r := Strftime(dt);
    YearOfStrftime(dt);
    assert r == r[..4] + ['.'] + r[5..];
    FormatYearMonth(r[..4], '.', r[5..]);
  }

  /** The year printed by `Strftime` reads back as the same year. */
  lemma YearOfStrftime(d: Date)
    requires ValidDate(d)
    ensures YearValue(Strftime(d)[..4]) == d.year
  {
    var r := Strftime(d);
    var hi := d.year / 100;
    var lo := d.year % 100;
    assert r[..4] == TwoDigits(hi) + TwoDigits(lo);
    assert YearValue(r[..4]) == 100 * hi + lo;
  }

  /** The markers are compared case-sensitively: `present` is kept as it is. */
  lemma LowercasePresentIsKept()
    ensures FormatDate("present") == "present"
  {
    var t := "present";
    StripOfTrimmed(t);
    assert !IsDigit(t[0]);
    assert forall sep :: ParseWith(t, sep).None?;
    FormatsInOrder(t);
    KeptIsFixed(t);
  }

  /** A month outside 1..12 is not a date: `2024-13` is kept as it is. */
  lemma MonthThirteenIsKept()
    ensures FormatDate("2024-13") == "2024-13"
  {
    var t := "2024-13";
    StripOfTrimmed(t);
    NotOngoing(t);
    assert ParseWith(t, Some('-')).None? by {
      assert t[5..] == "13" && !IsMonthText("13");
    }
    assert ParseWith(t, Some('/')).None? && ParseWith(t, Some('.')).None? by {
      assert t[4] == '-';
    }
    assert ParseWith(t, None).None?;
    FormatsInOrder(t);
    KeptIsFixed(t);
  }
}
