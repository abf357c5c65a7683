/** Calendar dates and the three fixed date patterns the formatters parse
    with `datetime.strptime`, plus the single `DD-MM-YYYY` rendering they
    produce with `strftime("%d-%m-%Y")`. */
module Calendar {
  import opened Exceptions
  import opened Text

  /** A Gregorian calendar date; `month` and `day` count from 1. */
  datatype Date = Date(day: int, month: int, year: int)

  predicate IsLeapYear(year: int)
  {
    year % 4 == 0 && (year % 100 != 0 || year % 400 == 0)
  }

  function DaysInMonth(month: int, year: int): int
    requires 1 <= month <= 12
  {
    if month == 2 then (if IsLeapYear(year) then 29 else 28)
    else if month == 4 || month == 6 || month == 9 || month == 11 then 30
    else 31
  }

  /** A date `datetime` accepts, restricted to four-digit years. */
  predicate ValidDate(d: Date)
  {
    1000 <= d.year <= 9999 && 1 <= d.month <= 12 && 1 <= d.day <= DaysInMonth(d.month, d.year)
  }

  /** The three strptime patterns, one per input format. */
  datatype Pattern =
    | MonthNameFirst   // '%b %d %Y', as in "Oct 1 2019"
    | Numeric          // '%d-%m-%Y', as in "03-10-2019"
    | MonthNameSecond  // '%d %b %Y', as in "5 Oct 2019"

  /** The literal between the three fields of a pattern. */
  function Separator(p: Pattern): char
  {
    if p == Numeric then '-' else ' '
  }

  /** The English month abbreviation that %b reads. */
  function MonthName(m: int): string
    requires 1 <= m <= 12
  {
    if m == 1 then "Jan" else if m == 2 then "Feb" else if m == 3 then "Mar"
    else if m == 4 then "Apr" else if m == 5 then "May" else if m == 6 then "Jun"
    else if m == 7 then "Jul" else if m == 8 then "Aug" else if m == 9 then "Sep"
    else if m == 10 then "Oct" else if m == 11 then "Nov" else "Dec"
  }

  /** %b: the month number of an abbreviation. */
  function ParseMonthName(t: string): (r: Option<int>)
    ensures r.Some? ==> 1 <= r.value <= 12 && MonthName(r.value) == t
    ensures forall m :: 1 <= m <= 12 && t == MonthName(m) ==> r == Some(m)
  {
    if t == "Jan" then Some(1) else if t == "Feb" then Some(2) else if t == "Mar" then Some(3)
    else if t == "Apr" then Some(4) else if t == "May" then Some(5) else if t == "Jun" then Some(6)
    else if t == "Jul" then Some(7) else if t == "Aug" then Some(8) else if t == "Sep" then Some(9)
    else if t == "Oct" then Some(10) else if t == "Nov" then Some(11) else if t == "Dec" then Some(12)
    else None
  }

  /** %d and %m: one or two decimal digits. */
  function ParseNumberField(t: string): Option<int>
  {
    if 1 <= |t| <= 2 && AllDigits(t) then Some(DigitsValue(t)) else None
  }

  /** %Y: four decimal digits. */
  function ParseYearField(t: string): Option<int>
  {
    if |t| == 4 && AllDigits(t) then Some(DigitsValue(t)) else None
  }

  /** The date the pattern's three fields name, if each field has its
      directive's form; the date is not yet checked for validity. */
  function FieldsDate(p: Pattern, a: string, b: string, c: string): Option<Date>
  {
    var day := ParseNumberField(if p == MonthNameFirst then b else a);
    var month :=
      if p == Numeric then ParseNumberField(b)
      else ParseMonthName(if p == MonthNameFirst then a else b);
    var year := ParseYearField(c);
    if day.Some? && month.Some? && year.Some? then Some(Date(day.value, month.value, year.value)) else None
  }

  /** `datetime.strptime(s, p)`: the string must consist of exactly the
      pattern's three fields, and they must name a valid date. */
  function Strptime(s: string, p: Pattern): (r: Result<Date>)
    ensures r.Ok? ==> ValidDate(r.value)
    ensures r.Err? ==> r.error == ValueError(s)
  {
    var f := Split(s, Separator(p));
    if |f| != 3 then Err(ValueError(s))
    else
      match FieldsDate(p, f[0], f[1], f[2])
      case Some(d) => if ValidDate(d) then Ok(d) else Err(ValueError(s))
      case None => Err(ValueError(s))
  }

  /** `t` is a %d or %m field strptime reads as `n`. */
  predicate SpellsNumber(t: string, n: int)
  {
    1 <= |t| <= 2 && AllDigits(t) && DigitsValue(t) == n
  }

  /** `t` is a %Y field strptime reads as `n`. */
  predicate SpellsYear(t: string, n: int)
  {
    |t| == 4 && AllDigits(t) && DigitsValue(t) == n
  }

  /** `t` is the month field of pattern `p` for month `m`. */
  predicate SpellsMonth(p: Pattern, t: string, m: int)
  {
    if p == Numeric then SpellsNumber(t, m) else 1 <= m <= 12 && t == MonthName(m)
  }

  /** `a`, `b`, `c` are the three fields of pattern `p`, in order, naming `d`. */
  predicate Spells(p: Pattern, d: Date, a: string, b: string, c: string)
  {
    SpellsYear(c, d.year) &&
    if p == MonthNameFirst then SpellsMonth(p, a, d.month) && SpellsNumber(b, d.day)
    else SpellsNumber(a, d.day) && SpellsMonth(p, b, d.month)
  }

  lemma Join3(a: string, b: string, c: string, sep: char)
    ensures Join([a, b, c], sep) == a + [sep] + b + [sep] + c
  {
    assert [a, b, c][1..] == [b, c];
    assert [b, c][1..] == [c];
    assert Join([b, c], sep) == b + [sep] + c;
  }

  lemma SeparatorNotInField(p: Pattern, t: string, n: int)
    requires SpellsNumber(t, n) || SpellsYear(t, n) || SpellsMonth(p, t, n)
    ensures Separator(p) !in t
  {
    assert !IsDigit(Separator(p));
    if SpellsNumber(t, n) || SpellsYear(t, n) {
      assert forall i :: 0 <= i < |t| ==> t[i] != Separator(p);
    }
  }

  /** The fields that spell a date are read as that date. */
  lemma FieldsDateSpelled(p: Pattern, d: Date, a: string, b: string, c: string)
    requires Spells(p, d, a, b, c)
    ensures FieldsDate(p, a, b, c) == Some(d)
  {
  }

  /** Fields a pattern reads back are its spelling of the date they name. */
  lemma FieldsDateSound(p: Pattern, a: string, b: string, c: string)
    requires FieldsDate(p, a, b, c).Some?
    ensures Spells(p, FieldsDate(p, a, b, c).value, a, b, c)
  {
  }

  /** Completeness and date check: every spelling of a date in the pattern's
      fields is parsed to that date when the date is valid and rejected when
      it is not (day 31 in a 30-day month, 29 February outside a leap year). */
  lemma StrptimeSpelled(p: Pattern, d: Date, a: string, b: string, c: string)
    requires Spells(p, d, a, b, c)
    ensures Strptime(a + [Separator(p)] + b + [Separator(p)] + c, p) ==
      if ValidDate(d) then Ok(d) else Err(ValueError(a + [Separator(p)] + b + [Separator(p)] + c))
  {
    var sep := Separator(p);
    if p == MonthNameFirst {
      SeparatorNotInField(p, a, d.month);
      SeparatorNotInField(p, b, d.day);
    } else {
      SeparatorNotInField(p, a, d.day);
      SeparatorNotInField(p, b, d.month);
    }
    SeparatorNotInField(p, c, d.year);
    Join3(a, b, c, sep);
    SplitJoin([a, b, c], sep);
    FieldsDateSpelled(p, d, a, b, c);
  }

  /** Soundness: a string strptime accepts is the pattern's three fields,
      joined by its separator, spelling the returned date. */
  lemma StrptimeSound(s: string, p: Pattern)
    requires Strptime(s, p).Ok?
    ensures var f := Split(s, Separator(p));
      |f| == 3 && s == f[0] + [Separator(p)] + f[1] + [Separator(p)] + f[2] &&
      Spells(p, Strptime(s, p).value, f[0], f[1], f[2])
  {
    var f := Split(s, Separator(p));
    JoinSplit(s, Separator(p));
    assert f == [f[0], f[1], f[2]];
    Join3(f[0], f[1], f[2], Separator(p));
    FieldsDateSound(p, f[0], f[1], f[2]);
  }

  /** `date.strftime("%d-%m-%Y")`. */
  function Strftime(d: Date): (s: string)
    requires ValidDate(d)
    ensures |s| == 10 && s[2] == '-' && s[5] == '-'
    ensures AllDigits(s[..2]) && AllDigits(s[3..5]) && AllDigits(s[6..])
  {
    var s := Pad2(d.day) + "-" + Pad2(d.month) + "-" + Digits4(d.year);
    assert s[..2] == Pad2(d.day) && s[3..5] == Pad2(d.month) && s[6..] == Digits4(d.year);
    s
  }

  /** Rendering then parsing with the `DD-MM-YYYY` pattern gives the date back. */
  lemma StrptimeStrftime(d: Date)
    requires ValidDate(d)
    ensures Strptime(Strftime(d), Numeric) == Ok(d)
  {
    StrptimeSpelled(Numeric, d, Pad2(d.day), Pad2(d.month), Digits4(d.year));
  }

  /** A zero-padded `DD-MM-YYYY` string that parses is rendered back unchanged. */
  lemma StrftimeStrptime(s: string)
    requires Strptime(s, Numeric).Ok? && |s| == 10
    ensures Strftime(Strptime(s, Numeric).value) == s
  {
    StrptimeSound(s, Numeric);
    var f := Split(s, '-');
    var d := Strptime(s, Numeric).value;
    assert |f[0]| == 2 && |f[1]| == 2;
    Pad2OfDigits(f[0]);
    Pad2OfDigits(f[1]);
    Digits4OfDigits(f[2]);
  }

  /** The sort key: larger for later dates. */
  function Ordinal(d: Date): int
  {
    d.year * 10000 + d.month * 100 + d.day
  }

  /** Calendar order: by year, then month, then day. */
  predicate Before(a: Date, b: Date)
  {
    a.year < b.year || (a.year == b.year && (a.month < b.month || (a.month == b.month && a.day < b.day)))
  }

  /** On valid dates the sort key orders exactly as the calendar does, and
      distinct dates get distinct keys. */
  lemma OrdinalOrder(a: Date, b: Date)
    requires ValidDate(a) && ValidDate(b)
    ensures Ordinal(a) < Ordinal(b) <==> Before(a, b)
    ensures Ordinal(a) == Ordinal(b) <==> a == b
  {
  }

  /** The field spellings of the example dates below. */
  lemma ExampleSpellings()
    ensures Spells(MonthNameFirst, Date(1, 10, 2019), "Oct", "1", "2019")
    ensures Spells(Numeric, Date(3, 10, 2019), "03", "10", "2019")
    ensures Spells(MonthNameSecond, Date(5, 10, 2019), "5", "Oct", "2019")
    ensures Spells(Numeric, Date(31, 9, 2019), "31", "09", "2019")
    ensures Spells(Numeric, Date(29, 2, 2019), "29", "02", "2019")
    ensures Spells(Numeric, Date(29, 2, 2020), "29", "02", "2020")
  {
    DigitsExamples();
  }

  /** Helper: the values of the example dates' digit fields. */
  lemma DigitsExamples()
    ensures DigitsValue("1") == 1 && DigitsValue("5") == 5
    ensures DigitsValue("02") == 2 && DigitsValue("03") == 3 && DigitsValue("09") == 9
    ensures DigitsValue("10") == 10 && DigitsValue("29") == 29 && DigitsValue("31") == 31
    ensures DigitsValue("2019") == 2019 && DigitsValue("2020") == 2020
  {
    assert "1"[..0] == [] && "5"[..0] == [];
    TwoDigitExamples();
    DigitsValue4("2019");
    DigitsValue4("2020");
  }

  /** Helper for `DigitsExamples`: the two-digit fields. */
  lemma TwoDigitExamples()
    ensures DigitsValue("02") == 2 && DigitsValue("03") == 3 && DigitsValue("09") == 9
    ensures DigitsValue("10") == 10 && DigitsValue("29") == 29 && DigitsValue("31") == 31
  {
    DigitsValue2("02");
    DigitsValue2("03");
    DigitsValue2("09");
    DigitsValue2("10");
    DigitsValue2("29");
    DigitsValue2("31");
  }

  /** Helper: the example strings as their fields joined by the separator. */
  lemma ExampleJoins()
    ensures "Oct 1 2019" == "Oct" + [' '] + "1" + [' '] + "2019"
    ensures "03-10-2019" == "03" + ['-'] + "10" + ['-'] + "2019"
    ensures "5 Oct 2019" == "5" + [' '] + "Oct" + [' '] + "2019"
    ensures "31-09-2019" == "31" + ['-'] + "09" + ['-'] + "2019"
    ensures "29-02-2019" == "29" + ['-'] + "02" + ['-'] + "2019"
    ensures "29-02-2020" == "29" + ['-'] + "02" + ['-'] + "2020"
  {
  }

  /** FormatterType1's test date, `Oct 1 2019`. */
  lemma MonthNameFirstExample()
    ensures Strptime("Oct 1 2019", MonthNameFirst) == Ok(Date(1, 10, 2019))
  {
    ExampleSpellings();
    ExampleJoins();
    StrptimeSpelled(MonthNameFirst, Date(1, 10, 2019), "Oct", "1", "2019");
  }

  /** FormatterType2's test date, `03-10-2019`. */
  lemma NumericExample()
    ensures Strptime("03-10-2019", Numeric) == Ok(Date(3, 10, 2019))
  {
    ExampleSpellings();
    ExampleJoins();
    StrptimeSpelled(Numeric, Date(3, 10, 2019), "03", "10", "2019");
  }

  /** FormatterType3's test date, `5 Oct 2019`. */
  lemma MonthNameSecondExample()
    ensures Strptime("5 Oct 2019", MonthNameSecond) == Ok(Date(5, 10, 2019))
  {
    ExampleSpellings();
    ExampleJoins();
    StrptimeSpelled(MonthNameSecond, Date(5, 10, 2019), "5", "Oct", "2019");
  }

  /** The canonical renderings of the unit tests' first and third dates. */
  lemma StrftimeExamples()
    ensures Strftime(Date(1, 10, 2019)) == "01-10-2019"
    ensures Strftime(Date(5, 10, 2019)) == "05-10-2019"
  {
  }

  /** No fallback pattern: FormatterType1's date is rejected by the
      `DD-MM-YYYY` pattern. */
  lemma NoFallbackExample()
    ensures Strptime("Oct 1 2019", Numeric).Err?
  {
    assert Split("Oct 1 2019", '-') == ["Oct 1 2019"] by {
      assert forall i :: 0 <= i < |"Oct 1 2019"| ==> "Oct 1 2019"[i] != '-';
    }
  }

  /** Day 31 of a 30-day month is rejected. */
  lemma ShortMonthExample()
    ensures Strptime("31-09-2019", Numeric).Err?
  {
    ExampleSpellings();
    ExampleJoins();
    StrptimeSpelled(Numeric, Date(31, 9, 2019), "31", "09", "2019");
  }

  /** 29 February is rejected outside a leap year... */
  lemma NonLeapDayExample()
    ensures Strptime("29-02-2019", Numeric).Err?
  {
    ExampleSpellings();
    ExampleJoins();
    assert !ValidDate(Date(29, 2, 2019)) by {
      assert 2019 % 4 == 3;
    }
    StrptimeSpelled(Numeric, Date(29, 2, 2019), "29", "02", "2019");
  }

  /** ...and accepted in one. */
  lemma LeapDayExample()
    ensures Strptime("29-02-2020", Numeric) == Ok(Date(29, 2, 2020))
  {
    ExampleSpellings();
    ExampleJoins();
    assert ValidDate(Date(29, 2, 2020)) by {
      assert 2020 % 4 == 0 && 2020 % 100 == 20;
    }
    StrptimeSpelled(Numeric, Date(29, 2, 2020), "29", "02", "2020");
  }
}
