/** Calendar dates as the object model builds them: `new DateTime(y, m, d)` from
    the parts of a `YYYY[-MM[-DD]]` string (release dates, birthdates), or
    `DateTime.Parse` of a timestamp (when a track was added to a playlist),
    which is kept as the text it was parsed from. */
module Dates {
  import opened Wrappers
  import opened Bags
  import Text

  datatype Date =
    | Civil(year: int, month: int, day: int)
    | Parsed(text: string)

  /** `new DateTime(1, 1, 1)`, the default of every date field. */
  const MinDate: Date := Civil(1, 1, 1)

  predicate IsLeapYear(y: int) {
    y % 4 == 0 && (y % 100 != 0 || y % 400 == 0)
  }

  function DaysInMonth(y: int, m: int): (n: int)
    requires 1 <= m <= 12
    ensures 28 <= n <= 31
  {
    if m == 2 then (if IsLeapYear(y) then 29 else 28)
    else if m == 4 || m == 6 || m == 9 || m == 11 then 30
    else 31
  }

  /** The arguments the `DateTime(year, month, day)` constructor accepts. */
  predicate ValidCivil(y: int, m: int, d: int) {
    1 <= y <= 9999 && 1 <= m <= 12 && 1 <= d <= DaysInMonth(y, m)
  }

  /** `new DateTime(y, m, d)`, which throws outside the calendar's range. */
  function MakeDate(key: string, y: int, m: int, d: int): (r: Decoded<Date>)
    ensures r.Ok? <==> ValidCivil(y, m, d)
    ensures r.Ok? ==> r.value == Civil(y, m, d)
  {
    if ValidCivil(y, m, d) then Ok(Civil(y, m, d)) else Err(BadDate(key))
  }

  /** `Int32.Parse(part)` on a digit string: too long a number overflows. */
  function ParsePart(key: string, part: string): (r: Decoded<int32>)
    ensures r.Ok? <==> Text.ParseNat(part).Some? && Text.ParseNat(part).value < 0x8000_0000
    ensures r.Ok? ==> r.value == Text.ParseNat(part).value
  {
    match Text.ParseNat(part)
    case Some(n) => if n < 0x8000_0000 then Ok(n) else Err(BadDate(key))
    case None => Err(BadDate(key))
  }

  /** `parts.Select(i => Int32.Parse(i)).ToList()` */
  function ParseParts(key: string, parts: seq<string>): (r: Decoded<seq<int32>>)
    ensures r.Ok? ==> |r.value| == |parts|
    ensures r.Ok? ==> forall j :: 0 <= j < |parts| ==> Ok(r.value[j]) == ParsePart(key, parts[j])
    ensures r.Ok? <==> forall j :: 0 <= j < |parts| ==> ParsePart(key, parts[j]).Ok?
  {
    Collect(seq(|parts|, j requires 0 <= j < |parts| => ParsePart(key, parts[j])))
  }

  /** Album.cs 96-101 and User.cs 59-64: three parts give the exact date, two
      parts the first of the month, one part the first of January; any other
      count keeps `current`. */
  function SplitDate(key: string, text: string, current: Date): Decoded<Date> {
    var ls :- ParseParts(key, Text.Split(text, '-'));
    FromParts(key, ls, current)
  }

  /** The choice among the three constructor calls, by the number of parts. */
  function FromParts(key: string, ls: seq<int32>, current: Date): (r: Decoded<Date>)
    ensures |ls| == 3 ==> r == MakeDate(key, ls[0], ls[1], ls[2])
    ensures |ls| == 2 ==> r == MakeDate(key, ls[0], ls[1], 1)
    ensures |ls| == 1 ==> r == MakeDate(key, ls[0], 1, 1)
    ensures |ls| == 0 || |ls| > 3 ==> r == Ok(current)
  {
    if |ls| == 3 then MakeDate(key, ls[0], ls[1], ls[2])
    else if |ls| == 2 then MakeDate(key, ls[0], ls[1], 1)
    else if |ls| == 1 then MakeDate(key, ls[0], 1, 1)
    else Ok(current)
  }

  /** The `if (Object.Properties[key] != null) { ... }` around SplitDate: no
      property keeps the default; a value that is not a string throws. */
  function DateOr(b: Bag, key: string, current: Date): (r: Decoded<Date>)
    ensures !Has(b, key) ==> r == Ok(current)
    ensures Has(b, key) && Get(b, key).value.VStr? ==> r == SplitDate(key, Get(b, key).value.s, current)
    ensures Has(b, key) && !Get(b, key).value.VStr? ==> r.Err?
  {
    match Get(b, key)
    case None => Ok(current)
    case Some(VStr(s)) => SplitDate(key, s, current)
    case Some(_) => Err(Malformed(key))
  }

  // ---------------------------------------------------------------- properties

  /** A non-empty run of ASCII digits, as `YYYY`, `MM` or `DD`. */
  predicate Numeral(s: string) {
    |s| > 0 && Text.AllDigits(s)
  }

  function NumeralValue(s: string): nat
    requires Numeral(s)
  {
    Text.DigitsValue(s)
  }

  lemma NumeralNoDash(s: string)
    requires Numeral(s)
    ensures '-' !in s
  {
  }

  lemma SplitNumerals(parts: seq<string>)
    requires |parts| >= 1
    requires forall j :: 0 <= j < |parts| ==> Numeral(parts[j])
    ensures Text.Split(Text.Join(parts, '-'), '-') == parts
  {
    forall j | 0 <= j < |parts| ensures '-' !in parts[j] {
      NumeralNoDash(parts[j]);
    }
    Text.SplitJoin(parts, '-');
  }

  /** `YYYY-MM-DD` gives exactly that date. */
  lemma SplitDateDay(key: string, y: string, m: string, d: string, current: Date)
    requires Numeral(y) && Numeral(m) && Numeral(d)
    requires ValidCivil(NumeralValue(y), NumeralValue(m), NumeralValue(d))
    ensures SplitDate(key, y + "-" + m + "-" + d, current) == Ok(Civil(NumeralValue(y), NumeralValue(m), NumeralValue(d)))
  {
    var parts := [y, m, d];
    assert Text.Join(parts, '-') == y + "-" + m + "-" + d by {
      assert parts[1..] == [m, d];
      assert [m, d][1..] == [d];
      assert Text.Join([m, d], '-') == m + "-" + d;
      assert Text.Join(parts, '-') == y + "-" + (m + "-" + d);
    }
    SplitNumerals(parts);
  }

  /** `YYYY-MM` gives the first day of that month. */
  lemma SplitDateMonth(key: string, y: string, m: string, current: Date)
    requires Numeral(y) && Numeral(m)
    requires ValidCivil(NumeralValue(y), NumeralValue(m), 1)
    ensures SplitDate(key, y + "-" + m, current) == Ok(Civil(NumeralValue(y), NumeralValue(m), 1))
  {
    var parts := [y, m];
    assert Text.Join(parts, '-') == y + "-" + m by {
      assert parts[1..] == [m];
    }
    SplitNumerals(parts);
  }

  /** `YYYY` gives the first of January of that year. */
  lemma SplitDateYear(key: string, y: string, current: Date)
    requires Numeral(y)
    requires 1 <= NumeralValue(y) <= 9999
    ensures SplitDate(key, y, current) == Ok(Civil(NumeralValue(y), 1, 1))
  {
    SplitNumerals([y]);
  }

  /** Four or more numeric parts leave the date as it was. */
  lemma SplitDateTooManyParts(key: string, parts: seq<string>, current: Date)
    requires |parts| >= 4
    requires forall j :: 0 <= j < |parts| ==> Numeral(parts[j]) && NumeralValue(parts[j]) < 0x8000_0000
    ensures SplitDate(key, Text.Join(parts, '-'), current) == Ok(current)
  {
    SplitNumerals(parts);
    forall j | 0 <= j < |parts| ensures ParsePart(key, parts[j]).Ok? {
      assert Text.ParseNat(parts[j]) == Some(NumeralValue(parts[j]));
    }
    var ls := ParseParts(key, parts);
    assert ls.Ok? && |ls.value| == |parts|;
    assert FromParts(key, ls.value, current) == Ok(current);
  }

  /** A part that is not a number (an empty one included) makes the parse throw. */
  lemma SplitDateRejectsNonNumeral(key: string, text: string, j: nat, current: Date)
    requires j < |Text.Split(text, '-')|
    requires !Numeral(Text.Split(text, '-')[j])
    ensures SplitDate(key, text, current).Err?
  {
  }
}
