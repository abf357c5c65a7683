/** Character-level helpers: decimal digits, splitting on a separator, and
    the part of Python's float() that reads plain decimal notation. */
module Text {
  import opened Exceptions

  predicate IsDigit(c: char) { '0' <= c <= '9' }

  predicate AllDigits(t: string) { forall i :: 0 <= i < |t| ==> IsDigit(t[i]) }

  function DigitValue(c: char): nat
    requires IsDigit(c)
  {
    c as int - '0' as int
  }

  function DigitChar(n: nat): (c: char)
    requires n <= 9
    ensures IsDigit(c) && DigitValue(c) == n
  {
    ('0' as int + n) as char
  }

  /** The value of a string of decimal digits, most significant first. */
  function DigitsValue(t: string): nat
    requires AllDigits(t)
    decreases |t|
  {
    if t == [] then 0 else DigitsValue(t[..|t| - 1]) * 10 + DigitValue(t[|t| - 1])
  }

  function Pow10(n: nat): (p: nat)
    ensures p >= 1
  {
    if n == 0 then 1 else 10 * Pow10(n - 1)
  }

  /** Two digits, zero-padded: the rendering of strftime's %d and %m. */
  function Pad2(n: nat): (t: string)
    requires n <= 99
    ensures |t| == 2 && AllDigits(t) && DigitsValue(t) == n
  {
    var t := [DigitChar(n / 10), DigitChar(n % 10)];
    DigitsValue2(t);
    t
  }

  /** Four digits: the rendering of strftime's %Y for years 1000..9999. */
  function Digits4(n: nat): (t: string)
    requires n <= 9999
    ensures |t| == 4 && AllDigits(t) && DigitsValue(t) == n
  {
    var q1 := n / 10;
    var q2 := q1 / 10;
    var q3 := q2 / 10;
    var t := [DigitChar(q3), DigitChar(q2 % 10), DigitChar(q1 % 10), DigitChar(n % 10)];
    DigitsValue4(t);
    t
  }

  lemma DigitsValue2(t: string)
    requires |t| == 2 && AllDigits(t)
    ensures DigitsValue(t) == DigitValue(t[0]) * 10 + DigitValue(t[1])
  {
    assert DigitsValue(t[..1]) == DigitValue(t[0]) by {
      assert t[..1][..0] == [];
    }
  }

  lemma DigitsValue4(t: string)
    requires |t| == 4 && AllDigits(t)
    ensures DigitsValue(t) == DigitValue(t[0]) * 1000 + DigitValue(t[1]) * 100 + DigitValue(t[2]) * 10 + DigitValue(t[3])
  {
    assert t[..3][..2] == t[..2];
    DigitsValue2(t[..2]);
  }

  /** A two-character digit string is the zero-padded rendering of its value. */
  lemma Pad2OfDigits(t: string)
    requires |t| == 2 && AllDigits(t)
    ensures DigitsValue(t) <= 99 && Pad2(DigitsValue(t)) == t
  {
    DigitsValue2(t);
    var v := DigitsValue(t);
    assert v / 10 == DigitValue(t[0]) && v % 10 == DigitValue(t[1]);
  }

  /** A four-character digit string is the rendering of its value. */
  lemma Digits4OfDigits(t: string)
    requires |t| == 4 && AllDigits(t)
    ensures DigitsValue(t) <= 9999 && Digits4(DigitsValue(t)) == t
  {
    DigitsValue4(t);
    var a, b, c, d := DigitValue(t[0]), DigitValue(t[1]), DigitValue(t[2]), DigitValue(t[3]);
    var v := DigitsValue(t);
    assert v / 10 == a * 100 + b * 10 + c && v % 10 == d;
    assert v / 10 / 10 == a * 10 + b && (v / 10) % 10 == c;
    assert v / 10 / 10 / 10 == a && (v / 10 / 10) % 10 == b;
  }

  /** Position of the first occurrence of `c` in `s`. */
  function IndexOf(s: string, c: char): (i: nat)
    requires c in s
    ensures i < |s| && s[i] == c && c !in s[..i]
  {
    if s[0] == c then 0
    else
      var j := IndexOf(s[1..], c);
      assert s[..j + 1] == [s[0]] + s[1..][..j];
      j + 1
  }

  lemma {:induction false} IndexOfAfter(a: string, c: char, rest: string)
    requires c !in a
    ensures IndexOf(a + [c] + rest, c) == |a|
  {
    if a != [] {
      assert (a + [c] + rest)[1..] == a[1..] + [c] + rest;
      IndexOfAfter(a[1..], c, rest);
    }
  }

  /** `s.split(sep)`: the maximal pieces of `s` between occurrences of `sep`. */
  function Split(s: string, sep: char): (fields: seq<string>)
    ensures |fields| >= 1
    ensures forall i :: 0 <= i < |fields| ==> sep !in fields[i]
    decreases |s|
  {
    if sep in s then
      var i := IndexOf(s, sep);
      [s[..i]] + Split(s[i + 1..], sep)
    else [s]
  }

  /** `sep.join(fields)`. */
  function Join(fields: seq<string>, sep: char): string
    requires |fields| >= 1
  {
    if |fields| == 1 then fields[0] else fields[0] + [sep] + Join(fields[1..], sep)
  }

  /** Splitting then joining gives back the string. */
  lemma {:induction false} JoinSplit(s: string, sep: char)
    ensures Join(Split(s, sep), sep) == s
    decreases |s|
  {
    if sep in s {
      var i := IndexOf(s, sep);
      JoinSplit(s[i + 1..], sep);
      assert s == s[..i] + [sep] + s[i + 1..];
    }
  }

  /** Joining pieces free of `sep`, then splitting, gives back the pieces. */
  lemma {:induction false} SplitJoin(fields: seq<string>, sep: char)
    requires |fields| >= 1
    requires forall i :: 0 <= i < |fields| ==> sep !in fields[i]
    ensures Split(Join(fields, sep), sep) == fields
    decreases |fields|
  {
    if |fields| > 1 {
      var rest := Join(fields[1..], sep);
      var s := fields[0] + [sep] + rest;
      var i := IndexOf(s, sep);
      IndexOfAfter(fields[0], sep, rest);
      assert s[..i] == fields[0];
      assert s[i + 1..] == rest;
      assert Join(fields, sep) == s;
      assert s[i] == sep;
      assert Split(s, sep) == [fields[0]] + Split(rest, sep);
      SplitJoin(fields[1..], sep);
      assert fields == [fields[0]] + fields[1..];
    }
  }

  /** Python's float() on plain decimal notation: an optional sign, then
      digits with at most one '.', at least one digit in all. */
  function ParseFloat(t: string): (r: Result<real>)
    ensures r.Err? ==> r.error == ValueError(t)
  {
    if |t| > 0 && (t[0] == '-' || t[0] == '+') then
      match ParseUnsigned(t[1..])
      case Some(v) => Ok(if t[0] == '-' then -v else v)
      case None => Err(ValueError(t))
    else
      match ParseUnsigned(t)
      case Some(v) => Ok(v)
      case None => Err(ValueError(t))
  }

  function ParseUnsigned(t: string): Option<real>
  {
    var parts := Split(t, '.');
    if |parts| == 1 && |t| >= 1 && AllDigits(t) then
      Some(DigitsValue(t) as real)
    else if |parts| == 2 && |parts[0]| + |parts[1]| >= 1 && AllDigits(parts[0]) && AllDigits(parts[1]) then
      Some(DigitsValue(parts[0]) as real + DigitsValue(parts[1]) as real / Pow10(|parts[1]|) as real)
    else
      None
  }

  /** float() of a non-empty digit string is its integer value. */
  lemma ParseFloatDigits(t: string)
    requires |t| >= 1 && AllDigits(t)
    ensures ParseFloat(t) == Ok(DigitsValue(t) as real)
  {
    assert !IsDigit('.');
    assert forall i :: 0 <= i < |t| ==> t[i] != '.';
    assert Split(t, '.') == [t];
  }
}
