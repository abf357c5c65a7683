/** The three row formatters. Each builds the five-key output dict
    (`date`, `transaction`, `amount`, `from`, `to`) from one CSV row of its
    input format, re-rendering the date as `DD-MM-YYYY`. */
module Formatter {
  import opened Exceptions
  import opened Text
  import opened Calendar

  /** A CSV row: column name to cell text. */
  type Row = map<string, string>

  /** A value stored in the output dict: text copied from the row or
      rendered, or the float FormatterType3 computes. */
  datatype Value = Str(text: string) | Float(number: real)

  /** The five keys a formatter writes into its output dict. */
  datatype Field = DateField | TransactionField | AmountField | FromField | ToField

  /** The dict key each field is stored under. */
  function Name(f: Field): (name: string)
    ensures |name| >= 2
  {
    match f
    case DateField => "date"
    case TransactionField => "transaction"
    case AmountField => "amount"
    case FromField => "from"
    case ToField => "to"
  }

  /** Distinct fields are stored under distinct keys. */
  lemma NameInjective(f: Field, g: Field)
    requires Name(f) == Name(g)
    ensures f == g
  {
    assert Name(f)[0] == Name(g)[0];
    if Name(f)[0] == 't' {
      assert Name(f)[1] == Name(g)[1];
    }
  }

  /** A dict as its entries in insertion order. */
  type Entries = seq<(Field, Value)>

  /** The keys of a dict, in insertion order. */
  function Keys(e: Entries): (ks: seq<Field>)
    ensures |ks| == |e|
  {
    if e == [] then [] else [e[0].0] + Keys(e[1..])
  }

  lemma {:induction false} KeysAppend(e: Entries, x: (Field, Value))
    ensures Keys(e + [x]) == Keys(e) + [x.0]
  {
    if e != [] {
      assert (e + [x])[1..] == e[1..] + [x];
      KeysAppend(e[1..], x);
    }
  }

  /** `d[key]`: the value stored under `key`, if any. */
  function Lookup(e: Entries, key: Field): (r: Option<Value>)
    ensures r.Some? <==> key in Keys(e)
  {
    if e == [] then None else if e[0].0 == key then Some(e[0].1) else Lookup(e[1..], key)
  }

  /** `d[key] = v`: an existing key keeps its place and takes the new value;
      a new key is appended. */
  function Assign(e: Entries, key: Field, v: Value): (r: Entries)
    ensures Lookup(e, key).None? ==> r == e + [(key, v)]
    ensures Lookup(e, key).Some? ==> Keys(r) == Keys(e)
    ensures Lookup(r, key) == Some(v)
  {
    if e == [] then [(key, v)]
    else if e[0].0 == key then [(key, v)] + e[1..]
    else
      var rest := Assign(e[1..], key, v);
      assert ([e[0]] + rest)[1..] == rest;
      assert (e + [(key, v)])[1..] == e[1..] + [(key, v)];
      [e[0]] + rest
  }

  /** Assigning one key leaves every other key's value as it was. */
  lemma {:induction false} AssignOthers(e: Entries, key: Field, v: Value, other: Field)
    requires other != key
    ensures Lookup(Assign(e, key, v), other) == Lookup(e, other)
  {
    if e != [] && e[0].0 != key {
      AssignOthers(e[1..], key, v, other);
    }
  }

  /** The keys every formatter writes, in the order it writes them. */
  const OutputKeys: seq<Field> := [DateField, TransactionField, AmountField, FromField, ToField]

  /** A formatter's finished output. */
  datatype Record = Record(date: string, transaction: string, amount: Value, fromAccount: string, toAccount: string)

  /** The record as the dict a formatter builds. */
  function AsEntries(r: Record): Entries
  {
    [(DateField, Str(r.date)), (TransactionField, Str(r.transaction)), (AmountField, r.amount),
     (FromField, Str(r.fromAccount)), (ToField, Str(r.toAccount))]
  }

  /** The output dict has exactly the five output keys, in order, and
      `date` holds the rendered date. */
  lemma OutputKeyOrder(r: Record)
    ensures Keys(AsEntries(r)) == OutputKeys
    ensures Lookup(AsEntries(r), DateField) == Some(Str(r.date))
  {
    var e0 := [(DateField, Str(r.date))];
    var e1 := e0 + [(TransactionField, Str(r.transaction))];
    var e2 := e1 + [(AmountField, r.amount)];
    var e3 := e2 + [(FromField, Str(r.fromAccount))];
    KeysAppend(e0, (TransactionField, Str(r.transaction)));
    KeysAppend(e1, (AmountField, r.amount));
    KeysAppend(e2, (FromField, Str(r.fromAccount)));
    KeysAppend(e3, (ToField, Str(r.toAccount)));
    assert e3 + [(ToField, Str(r.toAccount))] == AsEntries(r);
  }

  /** Looking a key up in a dict with one more entry at the end. */
  lemma {:induction false} LookupAppend(e: Entries, x: (Field, Value), key: Field)
    ensures Lookup(e + [x], key) ==
      if Lookup(e, key).Some? then Lookup(e, key) else if x.0 == key then Some(x.1) else None
  {
    if e != [] {
      assert (e + [x])[1..] == e[1..] + [x];
      LookupAppend(e[1..], x, key);
    }
  }

  /** Assigning `date`, `transaction`, `amount`, `from` and `to`, in that
      order, to an empty dict builds exactly the record's dict. */
  lemma BuildOutput(r: Record)
    ensures Assign(Assign(Assign(Assign(Assign([], DateField, Str(r.date)), TransactionField, Str(r.transaction)),
                  AmountField, r.amount), FromField, Str(r.fromAccount)), ToField, Str(r.toAccount))
      == AsEntries(r)
  {
    var e0: Entries := [];
    var e1 := e0 + [(DateField, Str(r.date))];
    var e2 := e1 + [(TransactionField, Str(r.transaction))];
    var e3 := e2 + [(AmountField, r.amount)];
    var e4 := e3 + [(FromField, Str(r.fromAccount))];
    LookupAppend(e0, (DateField, Str(r.date)), TransactionField);
    LookupAppend(e0, (DateField, Str(r.date)), AmountField);
    LookupAppend(e0, (DateField, Str(r.date)), FromField);
    LookupAppend(e0, (DateField, Str(r.date)), ToField);
    LookupAppend(e1, (TransactionField, Str(r.transaction)), AmountField);
    LookupAppend(e1, (TransactionField, Str(r.transaction)), FromField);
    LookupAppend(e1, (TransactionField, Str(r.transaction)), ToField);
    LookupAppend(e2, (AmountField, r.amount), FromField);
    LookupAppend(e2, (AmountField, r.amount), ToField);
    LookupAppend(e3, (FromField, Str(r.fromAccount)), ToField);
    calc {
      Assign(Assign(Assign(Assign(Assign(e0, DateField, Str(r.date)), TransactionField, Str(r.transaction)),
        AmountField, r.amount), FromField, Str(r.fromAccount)), ToField, Str(r.toAccount));
      Assign(Assign(Assign(Assign(e1, TransactionField, Str(r.transaction)),
        AmountField, r.amount), FromField, Str(r.fromAccount)), ToField, Str(r.toAccount));
      Assign(Assign(Assign(e2, AmountField, r.amount), FromField, Str(r.fromAccount)), ToField, Str(r.toAccount));
      Assign(Assign(e3, FromField, Str(r.fromAccount)), ToField, Str(r.toAccount));
      Assign(e4, ToField, Str(r.toAccount));
      e4 + [(ToField, Str(r.toAccount))];
      AsEntries(r);
    }
  }

  /** The input formats, one per formatter class. */
  datatype Kind = Type1 | Type2 | Type3

  /** `row[key]`. */
  function Get(row: Row, key: string): Result<string>
  {
    if key in row then Ok(row[key]) else Err(KeyError(key))
  }

  /** `datetime.strptime(text, p).strftime("%d-%m-%Y")`. */
  function Reformat(text: string, p: Pattern): (r: Result<string>)
    ensures r.Ok? ==> |r.value| == 10
    ensures r.Err? ==> r.error == ValueError(text)
  {
    var d :- Strptime(text, p);
    Ok(Strftime(d))
  }

  /** Re-rendering fails exactly when parsing does, with the parser's
      ValueError, and otherwise yields a canonical ten-character
      `DD-MM-YYYY` string naming the same date. */
  lemma ReformatCanonical(text: string, p: Pattern)
    ensures Reformat(text, p).Ok? <==> Strptime(text, p).Ok?
    ensures Reformat(text, p).Err? ==> Reformat(text, p).error == ValueError(text)
    ensures Reformat(text, p).Ok? ==>
      |Reformat(text, p).value| == 10 && Strptime(Reformat(text, p).value, Numeric) == Strptime(text, p)
  {
    if Strptime(text, p).Ok? {
      StrptimeStrftime(Strptime(text, p).value);
    }
  }

  /** The column holding the date, and its pattern. */
  function DateColumn(k: Kind): string
  {
    match k
    case Type1 => "timestamp"
    case Type2 => "date"
    case Type3 => "date_readable"
  }

  function DatePattern(k: Kind): Pattern
  {
    match k
    case Type1 => MonthNameFirst
    case Type2 => Numeric
    case Type3 => MonthNameSecond
  }

  /** The column copied to `transaction`. */
  function TransactionColumn(k: Kind): string
  {
    if k == Type2 then "transaction" else "type"
  }

  /** The columns the amount is read from. */
  function AmountColumns(k: Kind): seq<string>
  {
    match k
    case Type1 => ["amount"]
    case Type2 => ["amounts"]
    case Type3 => ["euro", "cents"]
  }

  /** Every column a formatter reads, in the order it reads them. */
  function SourceColumns(k: Kind): seq<string>
  {
    [DateColumn(k), TransactionColumn(k)] + AmountColumns(k) + ["from", "to"]
  }

  /** The `amount` value: copied text for Types 1 and 2,
      `float(euro) + float(cents)/100` for Type 3. */
  function Amount(k: Kind, row: Row): (r: Result<Value>)
    ensures k != Type3 ==> r.Ok? || r.error.KeyError?
    ensures r.Err? && r.error.KeyError? ==> r.error.key in AmountColumns(k) && r.error.key !in row
    ensures r.Err? ==> r.error.KeyError? || (k == Type3 && r.error.ValueError?)
  {
    match k
    case Type1 => var a :- Get(row, "amount"); Ok(Str(a))
    case Type2 => var a :- Get(row, "amounts"); Ok(Str(a))
    case Type3 =>
      var euro :- Get(row, "euro");
      var e :- ParseFloat(euro);
      var cents :- Get(row, "cents");
      var c :- ParseFloat(cents);
      Ok(Float(e + c / 100.0))
  }

  /** The `date` value: the date column re-rendered. */
  function ReadDate(k: Kind, row: Row): (r: Result<string>)
    ensures r.Ok? ==> |r.value| == 10
    ensures r.Err? ==> r.error == KeyError(DateColumn(k)) || r.error.ValueError?
  {
    var raw :- Get(row, DateColumn(k));
    Reformat(raw, DatePattern(k))
  }

  /** What constructing the formatter of kind `k` on `row` produces: the
      finished record, or the exception the first failing step raises. */
  function Normalize(k: Kind, row: Row): (r: Result<Record>)
    ensures r.Ok? ==> |r.value.date| == 10
    ensures r.Err? ==> r.error.KeyError? || r.error.ValueError?
  {
    var date :- ReadDate(k, row);
    var transaction :- Get(row, TransactionColumn(k));
    var amount :- Amount(k, row);
    var fromAccount :- Get(row, "from");
    var toAccount :- Get(row, "to");
    Ok(Record(date, transaction, amount, fromAccount, toAccount))
  }

  /** Helper: Normalize succeeds exactly when each of its steps does. */
  lemma NormalizeSteps(k: Kind, row: Row)
    ensures Normalize(k, row).Ok? <==>
      ReadDate(k, row).Ok? && TransactionColumn(k) in row && Amount(k, row).Ok? && "from" in row && "to" in row
    ensures Normalize(k, row).Ok? ==>
      Normalize(k, row).value ==
        Record(ReadDate(k, row).value, row[TransactionColumn(k)], Amount(k, row).value, row["from"], row["to"])
    ensures Normalize(k, row).Err? ==>
      var e := Normalize(k, row).error;
      (ReadDate(k, row).Err? && e == ReadDate(k, row).error) ||
      (TransactionColumn(k) !in row && e == KeyError(TransactionColumn(k))) ||
      (Amount(k, row).Err? && e == Amount(k, row).error) ||
      ("from" !in row && e == KeyError("from")) || ("to" !in row && e == KeyError("to"))
  {
  }

  /** Helper: the date is read exactly when its column is present and parses. */
  lemma ReadDateSteps(k: Kind, row: Row)
    ensures ReadDate(k, row).Ok? <==> DateColumn(k) in row && Strptime(row[DateColumn(k)], DatePattern(k)).Ok?
    ensures ReadDate(k, row).Ok? ==> ReadDate(k, row).value == Strftime(Strptime(row[DateColumn(k)], DatePattern(k)).value)
    ensures ReadDate(k, row).Err? ==>
      (DateColumn(k) !in row && ReadDate(k, row).error == KeyError(DateColumn(k))) ||
      (DateColumn(k) in row && ReadDate(k, row).error == ValueError(row[DateColumn(k)]))
  {
  }

  /** Helper: the amount is read exactly when its columns are present and, for Type 3, parse. */
  lemma AmountSteps(k: Kind, row: Row)
    ensures Amount(k, row).Ok? <==>
      (forall c :: c in AmountColumns(k) ==> c in row) &&
      (k == Type3 ==> ParseFloat(row["euro"]).Ok? && ParseFloat(row["cents"]).Ok?)
    ensures Amount(k, row).Ok? ==>
      (k == Type1 ==> Amount(k, row).value == Str(row["amount"])) &&
      (k == Type2 ==> Amount(k, row).value == Str(row["amounts"])) &&
      (k == Type3 ==>
        Amount(k, row).value == Float(ParseFloat(row["euro"]).value + ParseFloat(row["cents"]).value / 100.0))
    ensures Amount(k, row).Err? ==>
      var e := Amount(k, row).error;
      (e.KeyError? && e.key in AmountColumns(k) && e.key !in row) ||
      (k == Type3 && e.ValueError? && (("euro" in row && e.text == row["euro"]) || ("cents" in row && e.text == row["cents"])))
  {
    match k
    case Type1 =>
    case Type2 =>
    case Type3 =>
      assert AmountColumns(k) == ["euro", "cents"];
  }

  /** Helper: the source columns are present exactly when each named column is. */
  lemma ColumnsPresent(k: Kind, row: Row)
    ensures (forall c :: c in SourceColumns(k) ==> c in row) <==>
      DateColumn(k) in row && TransactionColumn(k) in row &&
      (forall c :: c in AmountColumns(k) ==> c in row) && "from" in row && "to" in row
  {
    var cols := SourceColumns(k);
    assert cols == [DateColumn(k), TransactionColumn(k)] + AmountColumns(k) + ["from", "to"];
    assert forall c :: c in AmountColumns(k) ==> c in cols;
  }

  /** A formatter succeeds exactly when every column it reads is present,
      the date matches its one pattern and is a real date, and, for Type 3,
      `euro` and `cents` are numbers. */
  lemma NormalizeSucceeds(k: Kind, row: Row)
    ensures Normalize(k, row).Ok? <==>
      (forall c :: c in SourceColumns(k) ==> c in row) &&
      Strptime(row[DateColumn(k)], DatePattern(k)).Ok? &&
      (k == Type3 ==> ParseFloat(row["euro"]).Ok? && ParseFloat(row["cents"]).Ok?)
  {
    NormalizeSteps(k, row);
    ReadDateSteps(k, row);
    AmountSteps(k, row);
    ColumnsPresent(k, row);
  }

  /** The exceptions a formatter can raise: a KeyError naming a column it
      reads that the row lacks, or a ValueError carrying the date text or,
      for Type 3, the `euro` or `cents` text. */
  lemma NormalizeErrors(k: Kind, row: Row)
    requires Normalize(k, row).Err?
    ensures var e := Normalize(k, row).error;
      (e.KeyError? && e.key in SourceColumns(k) && e.key !in row) ||
      (e.ValueError? && DateColumn(k) in row && e.text == row[DateColumn(k)]) ||
      (e.ValueError? && k == Type3 && (("euro" in row && e.text == row["euro"]) || ("cents" in row && e.text == row["cents"])))
  {
    NormalizeSteps(k, row);
    ReadDateSteps(k, row);
    AmountSteps(k, row);
    var cols := SourceColumns(k);
    assert cols == [DateColumn(k), TransactionColumn(k)] + AmountColumns(k) + ["from", "to"];
    assert forall c :: c in AmountColumns(k) ==> c in cols;
  }

  /** Where each field of a successful result comes from: the date parsed
      with the format's pattern and re-rendered, `transaction`, `from` and
      `to` copied, and the amount copied (Types 1, 2) or computed (Type 3). */
  lemma NormalizeFields(k: Kind, row: Row)
    requires Normalize(k, row).Ok?
    ensures var r := Normalize(k, row).value;
      DateColumn(k) in row && Strptime(row[DateColumn(k)], DatePattern(k)).Ok? &&
      r.date == Strftime(Strptime(row[DateColumn(k)], DatePattern(k)).value) &&
      r.transaction == row[TransactionColumn(k)] &&
      r.fromAccount == row["from"] && r.toAccount == row["to"] &&
      (k == Type1 ==> r.amount == Str(row["amount"])) &&
      (k == Type2 ==> r.amount == Str(row["amounts"])) &&
      (k == Type3 ==>
        ParseFloat(row["euro"]).Ok? && ParseFloat(row["cents"]).Ok? &&
        r.amount == Float(ParseFloat(row["euro"]).value + ParseFloat(row["cents"]).value / 100.0))
  {
    NormalizeSteps(k, row);
    ReadDateSteps(k, row);
    AmountSteps(k, row);
  }

  /** Every formatter writes a canonical date: ten characters that the
      `%d-%m-%Y` pattern reads back as the date it parsed from the row. */
  lemma NormalizeDateCanonical(k: Kind, row: Row)
    requires Normalize(k, row).Ok?
    ensures DateColumn(k) in row
    ensures |Normalize(k, row).value.date| == 10
    ensures Strptime(Normalize(k, row).value.date, Numeric) == Strptime(row[DateColumn(k)], DatePattern(k))
  {
    NormalizeSteps(k, row);
    ReadDateSteps(k, row);
    StrptimeStrftime(Strptime(row[DateColumn(k)], DatePattern(k)).value);
  }

  /** FormatterType2 reproduces a zero-padded `DD-MM-YYYY` date unchanged. */
  lemma Type2DateUnchanged(row: Row)
    requires Normalize(Type2, row).Ok? && |row["date"]| == 10
    ensures Normalize(Type2, row).value.date == row["date"]
  {
    NormalizeSteps(Type2, row);
    ReadDateSteps(Type2, row);
    StrftimeStrptime(row["date"]);
  }

  /** With whole-number `euro` and `cents`, the Type 3 amount is
      `euro * 100 + cents` hundredths; `cents` is not limited to 0..99. */
  lemma Type3AmountInHundredths(row: Row)
    requires Normalize(Type3, row).Ok?
    requires |row["euro"]| >= 1 && AllDigits(row["euro"])
    requires |row["cents"]| >= 1 && AllDigits(row["cents"])
    ensures Normalize(Type3, row).value.amount ==
      Float((DigitsValue(row["euro"]) * 100 + DigitsValue(row["cents"])) as real / 100.0)
  {
    NormalizeFields(Type3, row);
    ParseFloatDigits(row["euro"]);
    ParseFloatDigits(row["cents"]);
  }

  /** The first rows of the FormatterType1 and FormatterType3 unit tests. */
  const Type1TestRow: Row :=
    map["timestamp" := "Oct 1 2019", "type" := "add", "amount" := "2000.10", "from" := "188", "to" := "198"]
  const Type3TestRow: Row :=
    map["date_readable" := "5 Oct 2019", "type" := "add", "euro" := "2000", "cents" := "1", "from" := "188", "to" := "198"]

  /** The unit-test rows hold every column their formatter reads. This and
      the test-value lemmas below are helpers: they split the example proofs
      into small steps. */
  lemma TestRowColumns()
    ensures forall c :: c in SourceColumns(Type1) ==> c in Type1TestRow
    ensures forall c :: c in SourceColumns(Type3) ==> c in Type3TestRow
  {
    assert SourceColumns(Type1) == ["timestamp", "type", "amount", "from", "to"];
    assert SourceColumns(Type3) == ["date_readable", "type", "euro", "cents", "from", "to"];
  }

  /** Helper: the cells of the Type 1 test row. */
  lemma Type1TestValues()
    ensures Type1TestRow["timestamp"] == "Oct 1 2019" && Type1TestRow["type"] == "add"
    ensures Type1TestRow["amount"] == "2000.10" && Type1TestRow["from"] == "188" && Type1TestRow["to"] == "198"
  {
  }

  /** Helper: the cells of the Type 3 test row. */
  lemma Type3TestValues()
    ensures Type3TestRow["date_readable"] == "5 Oct 2019" && Type3TestRow["type"] == "add"
    ensures Type3TestRow["euro"] == "2000" && Type3TestRow["cents"] == "1"
    ensures Type3TestRow["from"] == "188" && Type3TestRow["to"] == "198"
  {
  }

  lemma Type1TestDate()
    ensures Strptime(Type1TestRow["timestamp"], MonthNameFirst) == Ok(Date(1, 10, 2019))
  {
    Type1TestValues();
    MonthNameFirstExample();
  }

  lemma Type3TestDate()
    ensures Strptime(Type3TestRow["date_readable"], MonthNameSecond) == Ok(Date(5, 10, 2019))
  {
    Type3TestValues();
    MonthNameSecondExample();
  }

  lemma Type3TestAmounts()
    ensures ParseFloat(Type3TestRow["euro"]) == Ok(2000.0) && ParseFloat(Type3TestRow["cents"]) == Ok(1.0)
  {
    Type3TestValues();
    DigitsValue4("2000");
    ParseFloatDigits("2000");
    assert DigitsValue("1") == 1 by {
      assert "1"[..0] == [];
    }
    ParseFloatDigits("1");
  }

  lemma Type1TestRowSucceeds()
    ensures Normalize(Type1, Type1TestRow).Ok?
  {
    TestRowColumns();
    Type1TestDate();
    NormalizeSucceeds(Type1, Type1TestRow);
  }

  lemma Type3TestRowSucceeds()
    ensures Normalize(Type3, Type3TestRow).Ok?
  {
    TestRowColumns();
    Type3TestDate();
    Type3TestAmounts();
    NormalizeSucceeds(Type3, Type3TestRow);
  }

  /** FormatterType1's unit test: `Oct 1 2019` becomes `01-10-2019`, and the
      other fields are copied. */
  lemma Type1Example()
    ensures Normalize(Type1, Type1TestRow) == Ok(Record("01-10-2019", "add", Str("2000.10"), "188", "198"))
  {
    Type1TestRowSucceeds();
    Type1TestDate();
    Type1TestValues();
    NormalizeFields(Type1, Type1TestRow);
    StrftimeExamples();
  }

  /** FormatterType3's unit test: `5 Oct 2019` becomes `05-10-2019`, and
      2000 euro and 1 cent make 2000.01. */
  lemma Type3Example()
    ensures Normalize(Type3, Type3TestRow) == Ok(Record("05-10-2019", "add", Float(2000.01), "188", "198"))
  {
    Type3TestRowSucceeds();
    Type3TestDate();
    Type3TestAmounts();
    Type3TestValues();
    NormalizeFields(Type3, Type3TestRow);
    StrftimeExamples();
  }

  class BaseFormatter {
    /** `_output`: the dict under construction. */
    var output: Entries

    /** `BaseFormatter.__init__`: an empty dict. */
    constructor ()
      ensures output == []
    {
      output := [];
    }

    /** `self._output[key] = v`. */
    method Put(key: Field, v: Value)
      modifies this
      ensures output == Assign(old(output), key, v)
    {
      output := Assign(output, key, v);
    }

    /** The constructor of the subclass `FormatterType1`, called as
        `FormatterType1(row)`: a new formatter whose dict is filled as lines
        14-18 of formatter.py fill it, or the exception those lines raise.
        The three subclasses differ only in their constructors, so each
        stands here as a static factory of `BaseFormatter`. */
    static method FormatterType1(row: Row) returns (r: Result<BaseFormatter>)
      ensures r.Ok? ==>
        fresh(r.value) && Normalize(Type1, row).Ok? && r.value.output == AsEntries(Normalize(Type1, row).value)
      ensures r.Err? ==> Normalize(Type1, row) == Err(r.error)
    {
      NormalizeSteps(Type1, row);
      ReadDateSteps(Type1, row);
      AmountSteps(Type1, row);
      var f := new BaseFormatter();
      var raw :- Get(row, "timestamp");
      var date :- Reformat(raw, MonthNameFirst);
      f.Put(DateField, Str(date));
      var transaction :- Get(row, "type");
      f.Put(TransactionField, Str(transaction));
      var amountText :- Get(row, "amount");
      var amount := Str(amountText);
      f.Put(AmountField, amount);
      var fromAccount :- Get(row, "from");
      f.Put(FromField, Str(fromAccount));
      var toAccount :- Get(row, "to");
      f.Put(ToField, Str(toAccount));
      BuildOutput(Record(date, transaction, amount, fromAccount, toAccount));
      return Ok(f);
    }

    /** The constructor of the subclass `FormatterType2`, as a static factory. */
    static method FormatterType2(row: Row) returns (r: Result<BaseFormatter>)
      ensures r.Ok? ==>
        fresh(r.value) && Normalize(Type2, row).Ok? && r.value.output == AsEntries(Normalize(Type2, row).value)
      ensures r.Err? ==> Normalize(Type2, row) == Err(r.error)
    {
      NormalizeSteps(Type2, row);
      ReadDateSteps(Type2, row);
      AmountSteps(Type2, row);
      var f := new BaseFormatter();
      var raw :- Get(row, "date");
      var date :- Reformat(raw, Numeric);
      f.Put(DateField, Str(date));
      var transaction :- Get(row, "transaction");
      f.Put(TransactionField, Str(transaction));
      var amountText :- Get(row, "amounts");
      var amount := Str(amountText);
      f.Put(AmountField, amount);
      var fromAccount :- Get(row, "from");
      f.Put(FromField, Str(fromAccount));
      var toAccount :- Get(row, "to");
      f.Put(ToField, Str(toAccount));
      BuildOutput(Record(date, transaction, amount, fromAccount, toAccount));
      return Ok(f);
    }

    /** The constructor of the subclass `FormatterType3`, as a static factory. */
    static method FormatterType3(row: Row) returns (r: Result<BaseFormatter>)
      ensures r.Ok? ==>
        fresh(r.value) && Normalize(Type3, row).Ok? && r.value.output == AsEntries(Normalize(Type3, row).value)
      ensures r.Err? ==> Normalize(Type3, row) == Err(r.error)
    {
      var f := new BaseFormatter();
      var raw :- Get(row, "date_readable");
      var date :- Reformat(raw, MonthNameSecond);
      f.Put(DateField, Str(date));
      var transaction :- Get(row, "type");
      f.Put(TransactionField, Str(transaction));
      var amount :- Amount(Type3, row);
      f.Put(AmountField, amount);
      var fromAccount :- Get(row, "from");
      f.Put(FromField, Str(fromAccount));
      var toAccount :- Get(row, "to");
      f.Put(ToField, Str(toAccount));
      BuildOutput(Record(date, transaction, amount, fromAccount, toAccount));
      return Ok(f);
    }

    /** `formatter(row)` for the formatter class of kind `k`. */
    static method Create(k: Kind, row: Row) returns (r: Result<BaseFormatter>)
      ensures r.Ok? ==>
        fresh(r.value) && Normalize(k, row).Ok? && r.value.output == AsEntries(Normalize(k, row).value)
      ensures r.Err? ==> Normalize(k, row) == Err(r.error)
    {
      match k
      case Type1 => r := FormatterType1(row);
      case Type2 => r := FormatterType2(row);
      case Type3 => r := FormatterType3(row);
    }
  }
}
