/** The merge script: the table of formatter classes, matching a file's
    columns against the known input formats, converting a file's rows,
    sorting the unified output by date, and the loop over the input files. */
module Script {
  import opened Exceptions
  import opened Calendar
  import opened Formatter
  import opened StableSort

  /** Applying `f` to each element front to back and collecting the results,
      as a Python loop that appends `f(x)` does; the first exception `f`
      raises ends the loop and is the outcome. */
  function Traverse<A, B>(f: A -> Result<B>, s: seq<A>): Result<seq<B>>
  {
    if s == [] then Ok([])
    else
      var init :- Traverse(f, s[..|s| - 1]);
      var y :- f(s[|s| - 1]);
      Ok(init + [y])
  }

  /** The loop completes exactly when `f` succeeds on every element, and
      then collects one result per element, in order. */
  lemma {:induction false} TraverseOk<A, B>(f: A -> Result<B>, s: seq<A>)
    ensures Traverse(f, s).Ok? <==> forall i :: 0 <= i < |s| ==> f(s[i]).Ok?
    ensures Traverse(f, s).Ok? ==>
      |Traverse(f, s).value| == |s| && forall i :: 0 <= i < |s| ==> Traverse(f, s).value[i] == f(s[i]).value
  {
    if s != [] {
      var init := s[..|s| - 1];
      TraverseOk(f, init);
      assert forall i :: 0 <= i < |init| ==> init[i] == s[i];
    }
  }

  /** When the loop fails, the exception is that of the first failing element. */
  lemma {:induction false} TraverseFirstError<A, B>(f: A -> Result<B>, s: seq<A>, i: nat)
    requires i < |s| && f(s[i]).Err?
    requires forall j :: 0 <= j < i ==> f(s[j]).Ok?
    ensures Traverse(f, s) == Err(f(s[i]).error)
  {
    var init := s[..|s| - 1];
    if i < |s| - 1 {
      TraverseFirstError(f, init, i);
    } else {
      TraverseOk(f, init);
    }
  }

  /** One more turn of the loop appends one more result. */
  lemma TraverseStep<A, B>(f: A -> Result<B>, s: seq<A>, i: nat)
    requires i < |s| && Traverse(f, s[..i]).Ok? && f(s[i]).Ok?
    ensures Traverse(f, s[..i + 1]) == Ok(Traverse(f, s[..i]).value + [f(s[i]).value])
  {
    assert s[..i + 1][..i] == s[..i];
  }

  /** The position of the first element on which `f` raises, or `|s|`. */
  function FirstError<A, B>(f: A -> Result<B>, s: seq<A>): (i: nat)
    ensures i <= |s|
    ensures i < |s| ==> f(s[i]).Err?
    ensures forall j :: 0 <= j < i ==> f(s[j]).Ok?
  {
    if s == [] then 0
    else if f(s[0]).Err? then 0
    else 1 + FirstError(f, s[1..])
  }

  /** A failed loop failed on some element, all before it succeeding, and
      raised that element's exception. */
  lemma TraverseFails<A, B>(f: A -> Result<B>, s: seq<A>)
    requires Traverse(f, s).Err?
    ensures exists i :: 0 <= i < |s| && f(s[i]).Err? && Traverse(f, s).error == f(s[i]).error &&
                        (forall j :: 0 <= j < i ==> f(s[j]).Ok?)
  {
    TraverseOk(f, s);
    var i := FirstError(f, s);
    TraverseFirstError(f, s, i);
  }

  /** Like `Traverse`, for a loop that extends its list by a whole list of
      results per element. */
  function FlatTraverse<A, B>(f: A -> Result<seq<B>>, s: seq<A>): Result<seq<B>>
  {
    if s == [] then Ok([])
    else
      var init :- FlatTraverse(f, s[..|s| - 1]);
      var ys :- f(s[|s| - 1]);
      Ok(init + ys)
  }

  /** The results for `a + b` are those for `a` followed by those for `b`,
      and the first exception, in `a` or else in `b`, ends the loop. */
  lemma {:induction false} FlatTraverseAppend<A, B>(f: A -> Result<seq<B>>, a: seq<A>, b: seq<A>)
    ensures FlatTraverse(f, a).Err? ==> FlatTraverse(f, a + b) == FlatTraverse(f, a)
    ensures FlatTraverse(f, a).Ok? && FlatTraverse(f, b).Err? ==> FlatTraverse(f, a + b) == FlatTraverse(f, b)
    ensures FlatTraverse(f, a).Ok? && FlatTraverse(f, b).Ok? ==>
      FlatTraverse(f, a + b) == Ok(FlatTraverse(f, a).value + FlatTraverse(f, b).value)
    decreases |b|
  {
    if b == [] {
      assert a + b == a;
      if FlatTraverse(f, a).Ok? {
        assert FlatTraverse(f, a).value + [] == FlatTraverse(f, a).value;
      }
    } else {
      var init := b[..|b| - 1];
      FlatTraverseAppend(f, a, init);
      assert (a + b)[..|a + b| - 1] == a + init;
      assert (a + b)[|a + b| - 1] == b[|b| - 1];
      if FlatTraverse(f, a).Ok? && FlatTraverse(f, init).Ok? && f(b[|b| - 1]).Ok? {
        var x, y, z := FlatTraverse(f, a).value, FlatTraverse(f, init).value, f(b[|b| - 1]).value;
        assert x + y + z == x + (y + z);
      }
    }
  }

  /** One more turn of the loop extends the list by the element's results. */
  lemma FlatTraverseStep<A, B>(f: A -> Result<seq<B>>, s: seq<A>, i: nat)
    requires i < |s| && FlatTraverse(f, s[..i]).Ok?
    ensures FlatTraverse(f, s[..i + 1]) == (var ys :- f(s[i]); Ok(FlatTraverse(f, s[..i]).value + ys))
  {
    assert s[..i + 1][..i] == s[..i];
  }

  // ---------------------------------------------------------------------------
  // formatter_type

  /** The `formatter_type` key each formatter class is registered under. */
  function KindName(k: Kind): string
  {
    match k
    case Type1 => "TYPE_1"
    case Type2 => "TYPE_2"
    case Type3 => "TYPE_3"
  }

  /** `formatter_type[name]`: the class registered under `name`, or a
      KeyError for a name nothing is registered under. */
  function FormatterKind(name: string): (r: Result<Kind>)
    ensures r.Ok? ==> KindName(r.value) == name
    ensures r.Err? ==> r.error == KeyError(name) && forall k :: KindName(k) != name
  {
    if name == "TYPE_1" then Ok(Type1)
    else if name == "TYPE_2" then Ok(Type2)
    else if name == "TYPE_3" then Ok(Type3)
    else Err(KeyError(name))
  }

  // ---------------------------------------------------------------------------
  // identify_file_format

  /** One entry of the input format table: a format key and the set of
      column names listed under its `fields`. */
  datatype FormatSpec = FormatSpec(key: string, fields: set<string>)

  /** The position of the first format whose fields are exactly `columns`,
      or `|formats|` when there is none. */
  function FirstMatch(columns: set<string>, formats: seq<FormatSpec>): (i: nat)
    ensures i <= |formats|
    ensures i < |formats| ==> formats[i].fields == columns
    ensures forall j :: 0 <= j < i ==> formats[j].fields != columns
  {
    if formats == [] then 0
    else if formats[0].fields == columns then 0
    else 1 + FirstMatch(columns, formats[1..])
  }

  /** `identify_file_format(format_type, input_formats)`. `columns` is `None`
      for a file without data rows, whose column set `read_csv` leaves as
      the empty string; no set equals it. */
  function IdentifyFileFormat(columns: Option<set<string>>, formats: seq<FormatSpec>): (r: Option<string>)
    ensures r.None? <==> columns.None? || forall i :: 0 <= i < |formats| ==> formats[i].fields != columns.value
    ensures r.Some? ==> exists i :: 0 <= i < |formats| && formats[i].fields == columns.value && formats[i].key == r.value
  {
    if columns.None? then None
    else
      var i := FirstMatch(columns.value, formats);
      if i < |formats| then Some(formats[i].key) else None
  }

  /** The first format whose field set equals the file's columns wins, even
      when later formats have the same field set. */
  lemma IdentifyFirstMatch(columns: set<string>, formats: seq<FormatSpec>, i: nat)
    requires i < |formats| && formats[i].fields == columns
    requires forall j :: 0 <= j < i ==> formats[j].fields != columns
    ensures IdentifyFileFormat(Some(columns), formats) == Some(formats[i].key)
  {
  }

  // ---------------------------------------------------------------------------
  // convert_to_output_format

  /** The output dict the formatter of kind `k` builds from `row`. */
  function ConvertRow(k: Kind, row: Row): Result<Entries>
  {
    var record :- Normalize(k, row);
    Ok(AsEntries(record))
  }

  /** The loop of `convert_to_output_format` once the class is chosen. */
  function Convert(rows: seq<Row>, k: Kind): Result<seq<Entries>>
  {
    Traverse(row => ConvertRow(k, row), rows)
  }

  /** `convert_to_output_format(data, format)` as a value. */
  function ConvertOutput(data: seq<Row>, format: string): Result<seq<Entries>>
  {
    var k :- FormatterKind(format);
    Convert(data, k)
  }

  /** An unregistered format raises KeyError before any row is read. */
  lemma ConvertUnknownFormat(data: seq<Row>, format: string)
    requires forall k :: KindName(k) != format
    ensures ConvertOutput(data, format) == Err(KeyError(format))
  {
  }

  /** Conversion succeeds exactly when every row's formatter does; then
      dict `i` is the one formatter `k` builds from row `i`. */
  lemma ConvertRows(rows: seq<Row>, k: Kind)
    ensures Convert(rows, k).Ok? <==> forall i :: 0 <= i < |rows| ==> Normalize(k, rows[i]).Ok?
    ensures Convert(rows, k).Ok? ==>
      |Convert(rows, k).value| == |rows| &&
      forall i :: 0 <= i < |rows| ==> Convert(rows, k).value[i] == AsEntries(Normalize(k, rows[i]).value)
  {
    TraverseOk(row => ConvertRow(k, row), rows);
  }

  /** A failed conversion raises the exception of the first failing row. */
  lemma ConvertFirstError(rows: seq<Row>, k: Kind, i: nat)
    requires i < |rows| && Normalize(k, rows[i]).Err?
    requires forall j :: 0 <= j < i ==> Normalize(k, rows[j]).Ok?
    ensures Convert(rows, k) == Err(Normalize(k, rows[i]).error)
  {
    TraverseFirstError(row => ConvertRow(k, row), rows, i);
  }

  /** The loop invariant of `convert_to_output_format` carried over one
      more row: a successful row appends its dict... */
  lemma ConvertExtends(data: seq<Row>, k: Kind, i: nat, output: Entries)
    requires i < |data| && Convert(data[..i], k).Ok?
    requires Normalize(k, data[i]).Ok? && output == AsEntries(Normalize(k, data[i]).value)
    ensures Convert(data[..i + 1], k) == Ok(Convert(data[..i], k).value + [output])
  {
    TraverseStep(row => ConvertRow(k, row), data, i);
  }

  /** ...and a failing row's exception ends the conversion. */
  lemma ConvertStops(data: seq<Row>, k: Kind, i: nat)
    requires i < |data| && Convert(data[..i], k).Ok? && Normalize(k, data[i]).Err?
    ensures Convert(data, k) == Err(Normalize(k, data[i]).error)
  {
    ConvertRows(data[..i], k);
    assert forall j :: 0 <= j < i ==> data[..i][j] == data[j];
    ConvertFirstError(data, k, i);
  }

  /** `convert_to_output_format(data, format)`: look the class up, then
      append each row's output dict. */
  method ConvertToOutputFormat(data: seq<Row>, format: string) returns (r: Result<seq<Entries>>)
    ensures r == ConvertOutput(data, format)
  {
    var k :- FormatterKind(format);
    var outputList: seq<Entries> := [];
    var i := 0;
    while i < |data|
      invariant 0 <= i <= |data|
      invariant Convert(data[..i], k) == Ok(outputList)
    {
      var f := BaseFormatter.Create(k, data[i]);
      if f.Err? {
        ConvertStops(data, k, i);
        return Err(f.error);
      }
      ConvertExtends(data, k, i, f.value.output);
      outputList := outputList + [f.value.output];
      i := i + 1;
    }
    assert data[..i] == data;
    return Ok(outputList);
  }

  /** A dict as the formatters leave it: the five output keys in order and
      a `date` that the `DD-MM-YYYY` pattern accepts. */
  predicate WellFormed(e: Entries)
  {
    Keys(e) == OutputKeys && EntryDate(e).Ok?
  }

  /** Every dict a conversion produces is well formed. */
  lemma ConvertWellFormed(rows: seq<Row>, k: Kind)
    requires Convert(rows, k).Ok?
    ensures forall i :: 0 <= i < |Convert(rows, k).value| ==> WellFormed(Convert(rows, k).value[i])
  {
    ConvertRows(rows, k);
    forall i | 0 <= i < |rows|
      ensures WellFormed(Convert(rows, k).value[i])
    {
      RowWellFormed(k, rows[i]);
    }
  }

  /** The dict a formatter builds is well formed. */
  lemma RowWellFormed(k: Kind, row: Row)
    requires Normalize(k, row).Ok?
    ensures WellFormed(AsEntries(Normalize(k, row).value))
  {
    var record := Normalize(k, row).value;
    OutputKeyOrder(record);
    NormalizeFields(k, row);
    NormalizeDateCanonical(k, row);
  }

  // ---------------------------------------------------------------------------
  // sort_output

  /** The sort key of one dict: `datetime.strptime(item['date'], '%d-%m-%Y')`.
      A dict without `date` raises KeyError, a float there TypeError, and
      text the pattern rejects ValueError. */
  function EntryDate(e: Entries): (r: Result<Date>)
    ensures r.Ok? ==> ValidDate(r.value)
  {
    match Lookup(e, DateField)
    case None => Err(KeyError("date"))
    case Some(v) => if v.Float? then Err(TypeError) else Strptime(v.text, Numeric)
  }

  /** The key as an integer that orders as the calendar does. */
  function DateKey(e: Entries): Result<int>
  {
    var d :- EntryDate(e);
    Ok(Ordinal(d))
  }

  /** A dict paired with its key. */
  function KeyPair(e: Entries): Result<(int, Entries)>
  {
    var key :- DateKey(e);
    Ok((key, e))
  }

  /** The keys of all dicts, computed front to back before anything is
      compared, as `list.sort(key=...)` does. */
  function Keyed(list: seq<Entries>): Result<seq<(int, Entries)>>
  {
    Traverse(KeyPair, list)
  }

  /** The dicts of a sequence of keyed pairs. */
  function Items(s: seq<(int, Entries)>): (r: seq<Entries>)
    ensures |r| == |s| && forall i :: 0 <= i < |s| ==> r[i] == s[i].1
  {
    seq(|s|, i requires 0 <= i < |s| => s[i].1)
  }

  /** `sort_output(output_list)` as a value: the dicts stably sorted by date,
      or the exception of the first key that raises. */
  function SortByDate(list: seq<Entries>): Result<seq<Entries>>
  {
    var keyed :- Keyed(list);
    Ok(Items(Sort(keyed)))
  }

  /** Every pair holds its own dict's key. */
  predicate WellKeyed(s: seq<(int, Entries)>)
  {
    forall i :: 0 <= i < |s| ==> DateKey(s[i].1) == Ok(s[i].0)
  }

  lemma KeyedPairs(list: seq<Entries>)
    ensures Keyed(list).Ok? <==> forall i :: 0 <= i < |list| ==> EntryDate(list[i]).Ok?
    ensures Keyed(list).Ok? ==> Items(Keyed(list).value) == list && WellKeyed(Keyed(list).value)
  {
    TraverseOk(KeyPair, list);
  }

  /** `sort_output` raises exactly when some dict's date does, and then the
      exception of the first such dict. */
  lemma SortByDateErrors(list: seq<Entries>)
    ensures SortByDate(list).Ok? <==> forall i :: 0 <= i < |list| ==> EntryDate(list[i]).Ok?
    ensures SortByDate(list).Err? ==>
      exists i :: 0 <= i < |list| && EntryDate(list[i]).Err? && SortByDate(list).error == EntryDate(list[i]).error &&
        forall j :: 0 <= j < i ==> EntryDate(list[j]).Ok?
  {
    KeyedPairs(list);
    if SortByDate(list).Err? {
      TraverseFails(KeyPair, list);
    }
  }

  /** A permutation of pairs keeps every pair's key its dict's own. */
  lemma WellKeyedPermutation(a: seq<(int, Entries)>, b: seq<(int, Entries)>)
    requires WellKeyed(a) && multiset(a) == multiset(b)
    ensures WellKeyed(b)
  {
    forall i | 0 <= i < |b|
      ensures DateKey(b[i].1) == Ok(b[i].0)
    {
      assert b[i] in multiset(a);
      var j :| 0 <= j < |a| && a[j] == b[i];
    }
  }

  lemma ItemsCons(p: (int, Entries), s: seq<(int, Entries)>)
    ensures Items([p] + s) == [p.1] + Items(s)
  {
  }

  lemma {:induction false} ItemsInsert(x: (int, Entries), s: seq<(int, Entries)>)
    ensures multiset(Items(Insert(x, s))) == multiset(Items(s)) + multiset{x.1}
  {
    if s != [] && s[0].0 <= x.0 {
      ItemsInsert(x, s[1..]);
      ItemsCons(s[0], Insert(x, s[1..]));
      ItemsCons(s[0], s[1..]);
      assert s == [s[0]] + s[1..];
    } else if s != [] {
      ItemsCons(x, s);
    } else {
      ItemsCons(x, []);
    }
  }

  /** Sorting the pairs permutes their dicts. */
  lemma {:induction false} ItemsSort(s: seq<(int, Entries)>)
    ensures multiset(Items(Sort(s))) == multiset(Items(s))
  {
    if s != [] {
      var init := s[..|s| - 1];
      ItemsSort(init);
      ItemsInsert(s[|s| - 1], Sort(init));
      assert Items(s) == Items(init) + [s[|s| - 1].1];
    }
  }

  /** On success `sort_output` returns a permutation of its input in which
      no dict is dated after a dict that follows it. */
  lemma SortByDateSorted(list: seq<Entries>)
    requires SortByDate(list).Ok?
    ensures var r := SortByDate(list).value;
      multiset(r) == multiset(list) &&
      (forall i :: 0 <= i < |r| ==> EntryDate(r[i]).Ok?) &&
      forall i, j :: 0 <= i < j < |r| ==> !Before(EntryDate(r[j]).value, EntryDate(r[i]).value)
  {
    KeyedPairs(list);
    var keyed := Keyed(list).value;
    var sorted := Sort(keyed);
    SortSorted(keyed);
    ItemsSort(keyed);
    WellKeyedPermutation(keyed, sorted);
    var r := Items(sorted);
    forall i, j | 0 <= i < j < |r|
      ensures !Before(EntryDate(r[j]).value, EntryDate(r[i]).value)
    {
      OrdinalOrder(EntryDate(r[j]).value, EntryDate(r[i]).value);
    }
  }

  /** The dicts of `list` dated `d`, in their order in `list`. */
  function OnDate(list: seq<Entries>, d: Date): seq<Entries>
  {
    if list == [] then []
    else (if EntryDate(list[0]) == Ok(d) then [list[0]] else []) + OnDate(list[1..], d)
  }

  /** Selecting the pairs with `d`'s key selects the dicts dated `d`. */
  lemma {:induction false} ItemsWithKey(s: seq<(int, Entries)>, d: Date)
    requires WellKeyed(s) && ValidDate(d)
    ensures Items(WithKey(s, Ordinal(d))) == OnDate(Items(s), d)
  {
    if s != [] {
      var k := Ordinal(d);
      var e := s[0].1;
      assert WellKeyed(s[1..]);
      ItemsWithKey(s[1..], d);
      assert DateKey(e) == Ok(s[0].0);
      OrdinalOrder(EntryDate(e).value, d);
      var items := Items(s);
      assert items[0] == e && items[1..] == Items(s[1..]);
      assert OnDate(items, d) == (if EntryDate(e) == Ok(d) then [e] else []) + OnDate(Items(s[1..]), d);
      if s[0].0 == k {
        assert WithKey(s, k) == [s[0]] + WithKey(s[1..], k);
        ItemsCons(s[0], WithKey(s[1..], k));
      } else {
        assert WithKey(s, k) == [] + WithKey(s[1..], k);
        assert [] + WithKey(s[1..], k) == WithKey(s[1..], k);
        assert [] + OnDate(Items(s[1..]), d) == OnDate(Items(s[1..]), d);
      }
    }
  }

  /** Stability: dicts of the same date keep their input order. */
  lemma SortByDateStable(list: seq<Entries>, d: Date)
    requires SortByDate(list).Ok? && ValidDate(d)
    ensures OnDate(SortByDate(list).value, d) == OnDate(list, d)
  {
    KeyedPairs(list);
    var keyed := Keyed(list).value;
    SortSorted(keyed);
    WellKeyedPermutation(keyed, Sort(keyed));
    SortStable(keyed, Ordinal(d));
    ItemsWithKey(keyed, d);
    ItemsWithKey(Sort(keyed), d);
  }

  /** The first key that raises ends the key loop... */
  lemma KeyedStops(list: seq<Entries>, i: nat)
    requires i < |list| && KeyPair(list[i]).Err?
    requires forall j :: 0 <= j < i ==> KeyPair(list[j]).Ok?
    ensures Keyed(list) == Err(KeyPair(list[i]).error)
  {
    TraverseFirstError(KeyPair, list, i);
  }

  /** ...and when none does, the loop yields every dict's pair. */
  lemma KeyedAll(list: seq<Entries>, keyed: seq<(int, Entries)>)
    requires |keyed| == |list|
    requires forall t :: 0 <= t < |list| ==> KeyPair(list[t]) == Ok(keyed[t])
    ensures Keyed(list) == Ok(keyed)
  {
    TraverseOk(KeyPair, list);
    assert Keyed(list).value == keyed;
  }

  /** The key loop of `list.sort(key=...)`: every dict's key, front to back,
      in a new array; the list itself is not touched. */
  method ComputeKeys(a: array<Entries>) returns (r: Result<array<(int, Entries)>>)
    ensures r.Ok? ==> fresh(r.value) && r.value.Length == a.Length && Keyed(a[..]) == Ok(r.value[..])
    ensures r.Err? ==> Keyed(a[..]) == Err(r.error)
  {
    var keyed := new (int, Entries)[a.Length](_ => (0, []));
    var i := 0;
    while i < a.Length
      modifies keyed
      invariant 0 <= i <= a.Length
      invariant forall t :: 0 <= t < i ==> KeyPair(a[t]) == Ok(keyed[t])
    {
      var pair := KeyPair(a[i]);
      if pair.Err? {
        KeyedStops(a[..], i);
        return Err(pair.error);
      }
      keyed[i] := pair.value;
      i := i + 1;
    }
    KeyedAll(a[..], keyed[..]);
    return Ok(keyed);
  }

  /** Copying the sorted dicts back into the list. */
  method WriteBack(a: array<Entries>, keyed: array<(int, Entries)>)
    requires a.Length == keyed.Length
    modifies a
    ensures a[..] == Items(keyed[..])
  {
    var i := 0;
    while i < a.Length
      invariant 0 <= i <= a.Length
      invariant forall t :: 0 <= t < i ==> a[t] == keyed[t].1
    {
      a[i] := keyed[i].1;
      i := i + 1;
    }
  }

  /** What `sort_output` makes of the key loop's outcome. */
  lemma SortByDateOfKeys(list: seq<Entries>)
    ensures Keyed(list).Err? ==> SortByDate(list) == Err(Keyed(list).error)
    ensures Keyed(list).Ok? ==> SortByDate(list) == Ok(Items(Sort(Keyed(list).value)))
  {
  }

  /** `sort_output(output_list)`: sorts the list in place. The keys are all
      computed first; when one raises, the list is left as it was. */
  method SortOutput(a: array<Entries>) returns (err: Option<Error>)
    modifies a
    ensures err.Some? ==> SortByDate(old(a[..])) == Err(err.value) && a[..] == old(a[..])
    ensures err.None? ==> SortByDate(old(a[..])) == Ok(a[..])
  {
    SortByDateOfKeys(a[..]);
    var keys := ComputeKeys(a);
    if keys.Err? {
      return Some(keys.error);
    }
    var keyed := keys.value;
    InsertionSort(keyed);
    WriteBack(a, keyed);
    return None;
  }

  /** An output dict of the unit tests: an `add` transaction. */
  function AddEntry(date: string, amount: real, fromAccount: string, toAccount: string): Entries
  {
    AsEntries(Record(date, "add", Float(amount), fromAccount, toAccount))
  }

  /** The dates of the `sort_output` unit test, read back. */
  lemma SortExampleDates()
    ensures Strptime("05-11-2019", Numeric) == Ok(Date(5, 11, 2019))
    ensures Strptime("06-10-2019", Numeric) == Ok(Date(6, 10, 2019))
    ensures Strptime("03-07-2019", Numeric) == Ok(Date(3, 7, 2019))
  {
    assert Strftime(Date(5, 11, 2019)) == "05-11-2019";
    assert Strftime(Date(6, 10, 2019)) == "06-10-2019";
    assert Strftime(Date(3, 7, 2019)) == "03-07-2019";
    StrptimeStrftime(Date(5, 11, 2019));
    StrptimeStrftime(Date(6, 10, 2019));
    StrptimeStrftime(Date(3, 7, 2019));
  }

  /** The key of a formatter's dict is its date's ordinal. */
  lemma RecordKey(r: Record, d: Date)
    requires Strptime(r.date, Numeric) == Ok(d)
    ensures KeyPair(AsEntries(r)) == Ok((Ordinal(d), AsEntries(r)))
  {
    OutputKeyOrder(r);
  }

  lemma SortThree<T>(p1: (int, T), p2: (int, T), p3: (int, T))
    requires p1.0 > p2.0 > p3.0
    ensures Sort([p1, p2, p3]) == [p3, p2, p1]
  {
    assert [p1, p2, p3][..2] == [p1, p2] && [p1, p2][..1] == [p1] && [p1][..0] == [];
    assert Sort([p1]) == [p1];
    assert Sort([p1, p2]) == Insert(p2, [p1]) == [p2, p1];
    assert Insert(p3, [p2, p1]) == [p3, p2, p1];
  }

  lemma KeyedThree(e1: Entries, e2: Entries, e3: Entries, p1: (int, Entries), p2: (int, Entries), p3: (int, Entries))
    requires KeyPair(e1) == Ok(p1) && KeyPair(e2) == Ok(p2) && KeyPair(e3) == Ok(p3)
    ensures Keyed([e1, e2, e3]) == Ok([p1, p2, p3])
  {
    var list, pairs := [e1, e2, e3], [p1, p2, p3];
    forall t | 0 <= t < 3
      ensures KeyPair(list[t]) == Ok(pairs[t])
    {
    }
    KeyedAll(list, pairs);
  }

  /** Three dicts with strictly decreasing keys come out reversed. */
  lemma SortReversed(e1: Entries, e2: Entries, e3: Entries, k1: int, k2: int, k3: int)
    requires KeyPair(e1) == Ok((k1, e1)) && KeyPair(e2) == Ok((k2, e2)) && KeyPair(e3) == Ok((k3, e3))
    requires k1 > k2 > k3
    ensures SortByDate([e1, e2, e3]) == Ok([e3, e2, e1])
  {
    var p1, p2, p3 := (k1, e1), (k2, e2), (k3, e3);
    var list := [e1, e2, e3];
    KeyedThree(e1, e2, e3, p1, p2, p3);
    SortByDateOfKeys(list);
    SortThree(p1, p2, p3);
    ItemsThree(p3, p2, p1);
  }

  /** Helper for `SortReversed`: the dicts of three pairs. */
  lemma ItemsThree(p1: (int, Entries), p2: (int, Entries), p3: (int, Entries))
    ensures Items([p1, p2, p3]) == [p1.1, p2.1, p3.1]
  {
  }

  /** The `sort_output` unit test: November, October and July dicts come
      out July, October, November. */
  lemma SortOutputExample()
    ensures SortByDate([AddEntry("05-11-2019", 2000.10, "188", "198"),
                        AddEntry("06-10-2019", 123.79, "178", "188"),
                        AddEntry("03-07-2019", 2000.10, "188", "198")]) ==
            Ok([AddEntry("03-07-2019", 2000.10, "188", "198"),
                AddEntry("06-10-2019", 123.79, "178", "188"),
                AddEntry("05-11-2019", 2000.10, "188", "198")])
  {
    SortExampleDates();
    RecordKey(Record("05-11-2019", "add", Float(2000.10), "188", "198"), Date(5, 11, 2019));
    RecordKey(Record("06-10-2019", "add", Float(123.79), "178", "188"), Date(6, 10, 2019));
    RecordKey(Record("03-07-2019", "add", Float(2000.10), "188", "198"), Date(3, 7, 2019));
    SortReversed(AddEntry("05-11-2019", 2000.10, "188", "198"),
                 AddEntry("06-10-2019", 123.79, "178", "188"),
                 AddEntry("03-07-2019", 2000.10, "188", "198"),
                 Ordinal(Date(5, 11, 2019)), Ordinal(Date(6, 10, 2019)), Ordinal(Date(3, 7, 2019)));
  }

  // ---------------------------------------------------------------------------
  // main

  /** One input file named on the command line: absent, or present with its
      column set (`None` when it has no data rows) and its rows. */
  datatype InputFile = Missing | Present(columns: Option<set<string>>, rows: seq<Row>)

  /** The dicts one file adds to the unified output. A missing file and a
      file whose format is unknown (or whose key is the empty string, which
      `if format_key:` treats as false) add nothing. */
  function FileOutput(file: InputFile, formats: seq<FormatSpec>): Result<seq<Entries>>
  {
    match file
    case Missing => Ok([])
    case Present(columns, rows) =>
      match IdentifyFileFormat(columns, formats)
      case None => Ok([])
      case Some(key) => if key == "" then Ok([]) else ConvertOutput(rows, key)
  }

  /** `unified_output` after the loop over the input files. */
  function Unified(files: seq<InputFile>, formats: seq<FormatSpec>): Result<seq<Entries>>
  {
    FlatTraverse(file => FileOutput(file, formats), files)
  }

  /** The list `main` writes: the unified output sorted by date. */
  function Merge(files: seq<InputFile>, formats: seq<FormatSpec>): Result<seq<Entries>>
  {
    var unified :- Unified(files, formats);
    SortByDate(unified)
  }

  /** The files' outputs are concatenated in command-line order: the output
      for `a + b` is `a`'s followed by `b`'s, and the first exception, in `a`
      or else in `b`, ends the loop. */
  lemma UnifiedAppend(a: seq<InputFile>, b: seq<InputFile>, formats: seq<FormatSpec>)
    ensures Unified(a, formats).Err? ==> Unified(a + b, formats) == Unified(a, formats)
    ensures Unified(a, formats).Ok? && Unified(b, formats).Err? ==> Unified(a + b, formats) == Unified(b, formats)
    ensures Unified(a, formats).Ok? && Unified(b, formats).Ok? ==>
      Unified(a + b, formats) == Ok(Unified(a, formats).value + Unified(b, formats).value)
  {
    FlatTraverseAppend(file => FileOutput(file, formats), a, b);
  }

  /** One more turn of the loop over the files. */
  lemma UnifiedStep(files: seq<InputFile>, i: nat, formats: seq<FormatSpec>)
    requires i < |files| && Unified(files[..i], formats).Ok?
    ensures Unified(files[..i + 1], formats) ==
      (var output :- FileOutput(files[i], formats); Ok(Unified(files[..i], formats).value + output))
  {
    FlatTraverseStep(file => FileOutput(file, formats), files, i);
  }

  /** An exception raised while reading the first `i` files ends the loop. */
  lemma UnifiedStops(files: seq<InputFile>, i: nat, formats: seq<FormatSpec>)
    requires i <= |files| && Unified(files[..i], formats).Err?
    ensures Unified(files, formats) == Unified(files[..i], formats)
  {
    UnifiedAppend(files[..i], files[i..], formats);
    assert files[..i] + files[i..] == files;
  }

  /** A missing or unrecognised file leaves the unified output unchanged. */
  lemma SkippedFile(files: seq<InputFile>, file: InputFile, formats: seq<FormatSpec>)
    requires file.Missing? ||
      IdentifyFileFormat(file.columns, formats).None? || IdentifyFileFormat(file.columns, formats) == Some("")
    ensures Unified(files + [file], formats) == Unified(files, formats)
  {
    assert (files + [file])[..|files|] == files;
    assert (files + [file])[|files|] == file;
    if Unified(files, formats).Ok? {
      assert Unified(files, formats).value + [] == Unified(files, formats).value;
    }
  }

  /** A recognised file appends its converted rows, or raises what converting it raises
      (a `KeyError` when the registry names a format the formatter table lacks). */
  lemma RecognisedFile(files: seq<InputFile>, file: InputFile, formats: seq<FormatSpec>, key: string)
    requires file.Present? && IdentifyFileFormat(file.columns, formats) == Some(key) && key != ""
    requires Unified(files, formats).Ok?
    ensures Unified(files + [file], formats) ==
      (var output :- ConvertOutput(file.rows, key); Ok(Unified(files, formats).value + output))
  {
    assert (files + [file])[..|files|] == files;
    assert (files + [file])[|files|] == file;
  }

  /** Every dict in the unified output is well formed. */
  lemma {:induction false} UnifiedWellFormed(files: seq<InputFile>, formats: seq<FormatSpec>)
    requires Unified(files, formats).Ok?
    ensures forall i :: 0 <= i < |Unified(files, formats).value| ==> WellFormed(Unified(files, formats).value[i])
  {
    if files != [] {
      var init := files[..|files| - 1];
      UnifiedWellFormed(init, formats);
      var file := files[|files| - 1];
      if file.Present? {
        var key := IdentifyFileFormat(file.columns, formats);
        if key.Some? && key.value != "" {
          var k := FormatterKind(key.value).value;
          ConvertWellFormed(file.rows, k);
        }
      }
    }
  }

  /** Sorting the formatters' output never raises: `main` fails exactly
      when a formatter (or the format table) does. */
  lemma MergeSucceeds(files: seq<InputFile>, formats: seq<FormatSpec>)
    ensures Merge(files, formats).Ok? <==> Unified(files, formats).Ok?
  {
    if Unified(files, formats).Ok? {
      UnifiedWellFormed(files, formats);
      SortByDateErrors(Unified(files, formats).value);
    }
  }

  /** The list `main` writes is the unified output reordered by ascending
      date, and every dict in it has the five output keys in order, as the
      CSV header taken from the first dict requires. */
  lemma MergeSorted(files: seq<InputFile>, formats: seq<FormatSpec>)
    requires Merge(files, formats).Ok?
    ensures var r := Merge(files, formats).value;
      multiset(r) == multiset(Unified(files, formats).value) &&
      (forall i :: 0 <= i < |r| ==> WellFormed(r[i])) &&
      forall i, j :: 0 <= i < j < |r| ==> !Before(EntryDate(r[j]).value, EntryDate(r[i]).value)
  {
    var u := Unified(files, formats).value;
    UnifiedWellFormed(files, formats);
    SortByDateSorted(u);
    var r := Merge(files, formats).value;
    forall i | 0 <= i < |r|
      ensures WellFormed(r[i])
    {
      assert r[i] in multiset(u);
    }
  }

  /** Dicts of the same date keep the order of the files, and within a file
      the order of its rows. */
  lemma MergeStable(files: seq<InputFile>, formats: seq<FormatSpec>, d: Date)
    requires Merge(files, formats).Ok? && ValidDate(d)
    ensures OnDate(Merge(files, formats).value, d) == OnDate(Unified(files, formats).value, d)
  {
    SortByDateStable(Unified(files, formats).value, d);
  }

  /** `main` after reading its inputs: the loop over the files, then the
      in-place sort. Writing the CSV is not part of this model. */
  method MergeFiles(files: seq<InputFile>, formats: seq<FormatSpec>) returns (r: Result<seq<Entries>>)
    ensures r == Merge(files, formats)
  {
    var unifiedOutput: seq<Entries> := [];
    var i := 0;
    while i < |files|
      invariant 0 <= i <= |files|
      invariant Unified(files[..i], formats) == Ok(unifiedOutput)
    {
      UnifiedStep(files, i, formats);
      assert unifiedOutput + [] == unifiedOutput;
      if files[i].Present? {
        var formatKey := IdentifyFileFormat(files[i].columns, formats);
        if formatKey.Some? && formatKey.value != "" {
          var output := ConvertToOutputFormat(files[i].rows, formatKey.value);
          if output.Err? {
            UnifiedStops(files, i + 1, formats);
            return Err(output.error);
          }
          unifiedOutput := unifiedOutput + output.value;
        }
      }
      i := i + 1;
    }
    assert files[..i] == files;
    var a := new Entries[|unifiedOutput|](t requires 0 <= t < |unifiedOutput| => unifiedOutput[t]);
    assert a[..] == unifiedOutput;
    var err := SortOutput(a);
    if err.Some? {
      return Err(err.value);
    }
    return Ok(a[..]);
  }
}
