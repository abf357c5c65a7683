# bankformat in Dafny

bankformat merges bank-transaction CSV files written in three different
layouts into one list sorted by date. Each input file is recognised by its
set of column names. Every row of a recognised file is normalised by the
formatter class for its layout into a dict with the five keys `date`,
`transaction`, `amount`, `from` and `to`. The dates are rewritten as
`DD-MM-YYYY`. The dicts of all files are then concatenated in command-line
order and sorted by calendar date with Python's stable `list.sort`.

This project models that pipeline once the files have been read:

- `exceptions.dfy` (module `Exceptions`) holds the Python exceptions the
  pipeline can raise (`KeyError`, `ValueError`, `TypeError`) and the
  `Result` and `Option` types that carry them.
- `text.dfy` (module `Text`) holds decimal digits, `str.split` and
  `str.join` on one character, and the plain decimal subset of `float()`.
- `calendar.dfy` (module `Calendar`) holds Gregorian dates and
  `datetime.strptime` for the three fixed patterns `%b %d %Y`, `%d-%m-%Y`
  and `%d %b %Y`. It also holds `strftime("%d-%m-%Y")` and an integer sort
  key that orders as the calendar does.
- `formatter.dfy` (module `Formatter`) holds the formatter classes.
  - `Normalize` states what each constructor produces, or which exception
    it raises, as a value.
  - The class `BaseFormatter` fills its `output` dict one key at a time, as
    the constructors do, and is proved to build exactly that value.
  - A dict is a sequence of (key, value) entries in insertion order.
- `stable_sort.dfy` (module `StableSort`) holds a stable insertion sort on
  keyed pairs, both as a function and as an in-place array method.
  - It proves the sort ordered, a permutation of its input, and stable.
  - It proves that only one sequence is ordered and keeps each key's
    elements in input order. So any stable sort, CPython's timsort
    included, gives the same list.
- `script.dfy` (module `Script`) holds the rest of the script:
  - the `formatter_type` table;
  - `identify_file_format`;
  - `convert_to_output_format`, as a function and as the loop method;
  - `sort_output`, as a function and as an in-place method on an array;
  - the loop in `main` that skips missing or unrecognised files, appends
    the rest and sorts the result.

Each imperative operation (the formatter constructors, the conversion
loop, the in-place sort, the merge loop) is a method. Its `ensures` ties
it to a specification function. The properties the script promises are
proved about those functions as lemmas.

## Model

| member | source | states |
|---|---|---|
| Text.ParseFloat | formatter.py:34 | `float(t)` on a cell: when it fails, it raises `ValueError` for that exact text |
| Text.ParseFloatDigits | formatter.py:34 | `float()` of a non-empty digit string is exactly the integer the digits spell |
| Text.Pad2 | formatter.py:14 | `%d`/`%m` rendering: two digits, zero-padded, reading back as the number |
| Text.Digits4 | formatter.py:14 | `%Y` rendering: four digits reading back as the year |
| Text.JoinSplit | formatter.py:14 | splitting a date string on its separator and re-joining the pieces gives the string back |
| Text.SplitJoin | formatter.py:14 | joining separator-free fields and splitting again gives the same fields |
| Calendar.ParseMonthName | formatter.py:14 | `%b` accepts exactly the twelve English abbreviations, each as its own month |
| Calendar.IsLeapYear | formatter.py:14-32 | defines the Gregorian leap-year rule `datetime` applies: divisible by 4, except centuries not divisible by 400 |
| Calendar.DaysInMonth | formatter.py:14-32 | defines the month lengths `datetime` checks the day against, February having 29 days in a leap year |
| Calendar.ValidDate | formatter.py:14-32 | defines the dates `datetime` accepts: month 1..12, day within the month's length, year 1000..9999 |
| Calendar.Strptime | formatter.py:14-32 | `strptime` with one fixed pattern: on success the date is a valid calendar date; on failure it is a `ValueError` naming the input |
| Calendar.FieldsDateSpelled | formatter.py:14-32 | fields that spell a date in a pattern's directives are read as that date |
| Calendar.FieldsDateSound | formatter.py:14-32 | fields a pattern reads are that pattern's spelling of the date read |
| Calendar.StrptimeSpelled | formatter.py:14-32 | completeness: a pattern's spelling of a date parses to it when the date is valid, and raises `ValueError` when it is not (day 31 of a 30-day month, 29 February outside a leap year) |
| Calendar.StrptimeSound | formatter.py:14-32 | soundness: a string that parses is exactly three separator-joined fields spelling the parsed date |
| Calendar.Strftime | formatter.py:14 | `strftime("%d-%m-%Y")`: ten characters, dashes at positions 2 and 5, digits elsewhere |
| Calendar.StrptimeStrftime | formatter.py:23 | rendering a valid date and parsing it with `%d-%m-%Y` gives the date back |
| Calendar.StrftimeStrptime | formatter.py:23 | a ten-character `DD-MM-YYYY` string that parses renders back to itself |
| Calendar.OrdinalOrder | script.py:118 | on valid dates the integer key is smaller exactly when the date is earlier, and equal exactly when the dates are equal |
| Calendar.Ordinal | script.py:118 | defines the integer sort key `year*10000 + month*100 + day` that stands for the `datetime` key; `OrdinalOrder` proves it orders as the calendar does |
| Calendar.MonthNameFirstExample | test_script.py:29 | `Oct 1 2019` parses with `%b %d %Y` to 1 October 2019 |
| Calendar.NumericExample | test_script.py:45 | `03-10-2019` parses with `%d-%m-%Y` to 3 October 2019 |
| Calendar.MonthNameSecondExample | test_script.py:61 | `5 Oct 2019` parses with `%d %b %Y` to 5 October 2019 |
| Calendar.StrftimeExamples | test_script.py:33-65 | 1 and 5 October 2019 render as `01-10-2019` and `05-10-2019` |
| Calendar.NoFallbackExample | formatter.py:23 | `Oct 1 2019` is rejected by `%d-%m-%Y`: no other pattern is tried |
| Calendar.ShortMonthExample | formatter.py:23 | `31-09-2019` is rejected |
| Calendar.NonLeapDayExample | formatter.py:23 | `29-02-2019` is rejected |
| Calendar.LeapDayExample | formatter.py:23 | `29-02-2020` is accepted |
| Formatter.NameInjective | formatter.py:14-18 | the five output keys are distinct strings |
| Formatter.Lookup | script.py:118 | `d[key]` finds a value exactly when the key was inserted |
| Formatter.Assign | formatter.py:14-18 | `d[key] = v`: a new key is appended at the end, an existing key keeps its place, and the key then maps to `v` |
| Formatter.AssignOthers | formatter.py:14-18 | assigning one key leaves every other key's value unchanged |
| Formatter.OutputKeyOrder | formatter.py:14-18 | a formatter's dict has exactly the keys `date`, `transaction`, `amount`, `from`, `to`, in that order, and `date` holds the record's date text |
| Formatter.BuildOutput | formatter.py:14-36 | the five assignments made in constructor order, starting from the empty dict, produce the record's dict |
| Formatter.Get | formatter.py:15 | defines `row[key]`: the cell, or `KeyError(key)` when the row has no such column |
| Formatter.Reformat | formatter.py:14 | `datetime.strptime(text, p).strftime("%d-%m-%Y")`: a ten-character string, or the parse's `ValueError` naming the text |
| Formatter.ReadDate | formatter.py:14-32 | the `date` value of each formatter: ten characters, or a `KeyError` for its date column, or a `ValueError` |
| Formatter.Amount | formatter.py:16-34 | the `amount` value: Types 1 and 2 copy their cell and can raise only `KeyError`; Type 3 computes `float(euro) + float(cents)/100` and may also raise `ValueError`; a `KeyError` names an amount column the row lacks |
| Formatter.Normalize | formatter.py:11-36 | the three constructors as a value: the record, whose date has ten characters, or the exception of the first failing step, which is always a `KeyError` or a `ValueError` |
| Formatter.ReformatCanonical | formatter.py:14 | parse-then-render fails exactly when parsing does, with its `ValueError`; on success the text is the date's `DD-MM-YYYY` rendering |
| Formatter.NormalizeSteps | formatter.py:11-36 | helper: a formatter succeeds exactly when its date, `transaction`, `amount`, `from` and `to` reads all do; the record holds those values; a failure raises the exception of one of the reads that fail |
| Formatter.ReadDateSteps | formatter.py:14-32 | helper: the date read succeeds exactly when the date column exists and parses with the formatter's own pattern; the result is that date rendered; a missing column raises `KeyError` and a bad date raises `ValueError` |
| Formatter.AmountSteps | formatter.py:16-34 | helper: Types 1 and 2 copy `amount`/`amounts` verbatim; Type 3 needs `euro` and `cents` present and both to parse, and gives `euro + cents/100` |
| Formatter.ColumnsPresent | formatter.py:14-36 | helper: every column a formatter reads is present exactly when each of its reads finds its column |
| Formatter.NormalizeSucceeds | formatter.py:11-36 | a formatter succeeds exactly when every column it reads is present, its date parses with its one pattern, and (Type 3) `euro` and `cents` parse as numbers |
| Formatter.NormalizeErrors | formatter.py:14-36 | a formatter raises only `KeyError` for a column it reads or `ValueError` for the date text or for `euro`/`cents` |
| Formatter.NormalizeFields | formatter.py:14-36 | field mapping: `date` is the date column re-rendered; `transaction` comes from `type` (Types 1, 3) or `transaction` (Type 2); `from` and `to` are copied; `amount` as `AmountSteps` says |
| Formatter.NormalizeDateCanonical | formatter.py:14-32 | the written date has ten characters and parses with `%d-%m-%Y` to the date read from the input |
| Formatter.Type2DateUnchanged | formatter.py:23 | FormatterType2 reproduces a ten-character `DD-MM-YYYY` date verbatim |
| Formatter.Type3AmountInHundredths | formatter.py:34 | with whole-number `euro` and `cents`, the amount is `(100*euro + cents)/100`; cents are not range-checked |
| Formatter.Type1Example | test_script.py:26-39 | the first TYPE_1 test row becomes `01-10-2019`, `add`, `2000.10`, `188`, `198` |
| Formatter.Type3Example | test_script.py:58-71 | the first TYPE_3 test row becomes `05-10-2019`, `add`, 2000.01, `188`, `198` |
| Formatter.BaseFormatter.constructor | formatter.py:4-5 | a new formatter's output dict is empty |
| Formatter.BaseFormatter.Put | formatter.py:14 | one `self._output[key] = v` step |
| Formatter.BaseFormatter.FormatterType1 | formatter.py:11-18 | builds a new formatter whose dict is the Type 1 record's, or raises exactly the exception `Normalize` names |
| Formatter.BaseFormatter.FormatterType2 | formatter.py:20-27 | the same for Type 2 |
| Formatter.BaseFormatter.FormatterType3 | formatter.py:29-36 | the same for Type 3 |
| Formatter.BaseFormatter.Create | script.py:104 | `formatter(item)` for the class the table chose |
| StableSort.InsertPermutes | script.py:118 | insertion adds exactly one element |
| StableSort.Insert | script.py:118 | defines insertion of a keyed element before the first strictly greater key |
| StableSort.Sort | script.py:118 | defines the stable sort `list.sort` performs, as insertion of each element from first to last; `SortSorted`, `SortStable` and `SortedUnique` state its properties |
| StableSort.InsertSorted | script.py:118 | insertion keeps a key-ordered sequence ordered |
| StableSort.SortSorted | script.py:118 | the sort is ordered by key and is a permutation of its input |
| StableSort.WithKeyInsert | script.py:118 | inserting into an ordered sequence puts the element after every element with the same key |
| StableSort.SortStable | script.py:118 | stability: for every key, the elements with that key come out in their input order |
| StableSort.SortedUnique | script.py:118 | two key-ordered sequences with the same elements per key, in the same order, are equal, so every stable sort gives the same result |
| StableSort.InsertAt | script.py:118 | in an ordered sequence, insertion lands after the keys not greater and before the first greater one |
| StableSort.ShiftGreater | script.py:118 | the inner loop moves every element with a greater key one place right and stops at the first key not greater |
| StableSort.InsertStep | script.py:118 | one outer step turns the first `i + 1` cells into the insertion of `a[i]` into the sorted first `i` |
| StableSort.InsertionSort | script.py:118 | the array is sorted in place, ending as the functional sort of its old contents |
| Script.TraverseOk | script.py:103-104 | a list-building loop completes exactly when every element succeeds; then the result has one entry per element, in order |
| Script.TraverseFirstError | script.py:103-104 | a loop that fails raises the first failing element's exception |
| Script.TraverseFails | script.py:103-104 | a failed loop failed at some element, after every earlier one succeeded, with that element's exception |
| Script.FlatTraverseAppend | script.py:149-156 | extending over `a + b` gives `a`'s results followed by `b`'s, and the first exception otherwise |
| Script.Traverse | script.py:103-104 | defines a loop that appends one result per element, front to back, stopping at the first exception; `TraverseOk` and `TraverseFirstError` state what it gives |
| Script.FlatTraverse | script.py:149-156 | defines a loop that extends by a list per element, stopping at the first exception; `FlatTraverseAppend` states what it gives |
| Script.KindName | script.py:13-17 | defines the table key each formatter class is registered under |
| Script.FormatterKind | script.py:13-17 | the table finds exactly `TYPE_1`, `TYPE_2` and `TYPE_3`; any other key raises `KeyError` with that key |
| Script.FirstMatch | script.py:83-85 | the position of the first format whose field set equals the columns; no earlier format matches |
| Script.IdentifyFileFormat | script.py:72-87 | returns `None` exactly when no format's field set equals the columns (or the file had no data rows, so `read_csv` left its columns as `''`), and otherwise the key of a format with exactly those fields |
| Script.IdentifyFirstMatch | script.py:83-85 | when several formats match, the first in table order wins |
| Script.Convert | script.py:103-104 | defines the conversion loop once the class is chosen: each row through its formatter, in order; `ConvertRows` and `ConvertFirstError` state what it gives |
| Script.ConvertOutput | script.py:89-106 | defines `convert_to_output_format(data, format)` as a value: the table lookup, then the conversion |
| Script.ConvertUnknownFormat | script.py:100 | an unregistered format raises `KeyError` before any row is read |
| Script.ConvertRows | script.py:100-106 | conversion succeeds exactly when every row's formatter does; then it has one dict per row, and dict `i` is row `i` normalised |
| Script.ConvertFirstError | script.py:103-104 | a failing conversion raises the first failing row's exception |
| Script.ConvertToOutputFormat | script.py:89-106 | the loop method returns exactly the conversion function's result |
| Script.ConvertWellFormed | script.py:103-104 | every converted dict has the five keys in order and a `date` that parses with `%d-%m-%Y` |
| Script.RowWellFormed | formatter.py:14-36 | the dict one formatter builds has the five keys and a parseable `date` |
| Script.EntryDate | script.py:118 | defines the sort key `datetime.strptime(item['date'], '%d-%m-%Y')`, raising `KeyError` for a missing `date`, `TypeError` for a non-string one, or the parse's `ValueError`; its contract states that a key it returns is a valid calendar date |
| Script.DateKey | script.py:118 | defines a dict's integer sort key: the ordinal of its parsed date |
| Script.KeyPair | script.py:118 | defines one dict paired with its key, or the key's exception |
| Script.Keyed | script.py:118 | defines the key loop `list.sort(key=...)` runs before sorting: every dict's pair, front to back, or the first exception |
| Script.SortByDate | script.py:118 | defines `sort_output(output_list)` as a value: the first key exception, or the dicts stably sorted by their keys; `SortByDateErrors`, `SortByDateSorted` and `SortByDateStable` state its properties |
| Script.KeyedPairs | script.py:118 | computing the keys succeeds exactly when every dict's date parses; the pairs hold the dicts in order, each with its own key |
| Script.SortByDateErrors | script.py:118 | `sort_output` raises exactly when some dict's date does, and then raises the first such dict's exception |
| Script.WellKeyedPermutation | script.py:118 | reordering the pairs keeps each pair's key the key of its own dict |
| Script.ItemsSort | script.py:118 | sorting the pairs permutes their dicts |
| Script.SortByDateSorted | script.py:118 | on success the result is a permutation of the input, every date parses, and no dict is dated before an earlier one |
| Script.ItemsWithKey | script.py:118 | selecting the pairs with a date's key selects exactly the dicts of that date, in order |
| Script.SortByDateStable | script.py:118 | dicts of the same date keep their input order |
| Script.ComputeKeys | script.py:118 | the key loop yields every dict's pair in a new array, or the first exception |
| Script.WriteBack | script.py:118 | the list receives the sorted pairs' dicts |
| Script.SortOutput | script.py:108-119 | sorts the list in place as the sort function says; when a key raises, the list is left unchanged and the exception is returned |
| Script.RecordKey | script.py:118 | the key of a formatter's dict is its date's integer key |
| Script.SortOutputExample | test_script.py:73-87 | dicts dated `05-11-2019`, `06-10-2019`, `03-07-2019` come out `03-07-2019`, `06-10-2019`, `05-11-2019` (calendar order, not string order) |
| Script.FileOutput | script.py:150-161 | defines one file's contribution: nothing for a missing file, for no matching format, or for an empty key (`if format_key:` is false); otherwise the conversion of its rows |
| Script.Unified | script.py:147-156 | defines `unified_output` after the loop over the files |
| Script.Merge | script.py:147-163 | defines the list `main` writes: the unified output sorted by date |
| Script.UnifiedAppend | script.py:149-156 | the files' outputs concatenate in command-line order |
| Script.SkippedFile | script.py:150-161 | a missing file, one with no matching format, and one whose key is empty add nothing and do not stop the run |
| Script.RecognisedFile | script.py:152-156 | a file the registry recognises under a non-empty key appends the rows its formatter converts, or raises what converting raises, including `KeyError` for a key the formatter table lacks |
| Script.UnifiedWellFormed | script.py:147-156 | every dict in the unified output is well formed |
| Script.MergeSucceeds | script.py:163 | sorting the unified output never raises: `main` fails exactly when a conversion does |
| Script.MergeSorted | script.py:163 | the written list is a permutation of the unified output, of well-formed dicts, in calendar order |
| Script.MergeStable | script.py:163 | dicts of the same date keep file order and row order |
| Script.MergeFiles | script.py:139-163 | the loop over the files followed by the in-place sort returns exactly the merge function's result |

## Left out

- `start_parser`, `read_format`, `read_csv` and `write_output_csv` are I/O wrappers and are not modelled. A file is given by its column set and rows; the format table is a sequence of (key, field set) entries in the JSON file's order.
- `read_csv` returns the string `''` instead of a set for a file with no data rows (script.py:61). That value never equals a field set, so it is modelled as `None` columns, which nothing matches.
- `write_output_csv` indexes `rows[0]` and would raise on an empty output (script.py:130). Writing is not modelled.
- The `Path(file_name).is_file()` check (script.py:150) is the `Missing` input. The `print` calls are not modelled.
- The `output` property (formatter.py:7-9) is the class field `output`, read directly.
- Python dict and list identity: appending `formatter(item).output`, `extend` and the in-place sort's return of the same list are modelled by value.
- `Calendar.ValidDate`: years are limited to 1000..9999. `%Y` also reads `0500`, and `datetime` accepts year 500; the model rejects it.
- `Calendar.Strptime`: rejects some strings Python's `strptime` accepts. `strptime` is case-insensitive about month names, depends on the locale, and is lenient about whitespace. Here `%b` reads only `Jan`..`Dec`, and the separator is one exact character. `%d` also accepts a space followed by a digit (so `" 1-10-2019"` parses as 1 October 2019), and `\d` also matches non-ASCII Unicode decimal digits in `%d`, `%m` and `%Y`. The model accepts neither, so `Formatter.Type2DateUnchanged` and `Calendar.StrftimeStrptime` hold only for the strings the model accepts. Python rewrites `" 1-10-2019"` as `01-10-2019`.
- `Text.ParseFloat`: accepts only an optional sign and decimal digits with at most one point. Exponents, `inf`, `nan`, underscores, surrounding whitespace and non-ASCII Unicode decimal digits (`float("١٢")` is 12.0), which `float()` accepts, are rejected. A Type 3 row whose `euro` or `cents` uses such digits converts in Python and raises `ValueError` in the model, so `Formatter.NormalizeSucceeds` describes the model on that input, not Python.
- Exception messages are modelled as the rejected text. `ValueError` carries the `strptime` or `float()` input whatever Python's message says: for `31-09-2019` Python says "day is out of range for month", and for trailing text "unconverted data remains: ...". No property depends on the message.
- Floating point: amounts are exact reals, so `euro + cents/100` has no rounding.
- The Type 1 and Type 2 amount is the cell's text, copied verbatim. The unit tests pass float values there, which the model does not represent.
- `csv.DictReader` cells that are not text are not modelled. A row shorter than the header has `None` in its missing cells (`restval`), and a longer row holds its extra cells as a list under the key `None` (`restkey`). `None` in a copied column (`type`, `transaction`, `amount`, `amounts`, `from`, `to`) is copied into the dict. `None` in a date column, `euro` or `cents` makes `strptime` or `float()` raise `TypeError` (formatter.py:14,23,32,34). A row is `map<string, string>`, so `Formatter.Normalize` never raises `TypeError`.
- CPython's timsort is not modelled step by step. The model sorts by stable insertion, and `StableSort.SortedUnique` shows every stable sort by the same key gives the same list.
- The sort key is an integer that orders as `datetime` does on valid dates, not a `datetime` object.
- Dict keys are the five output keys of the formatters. Other keys cannot occur in the dicts the script sorts.
