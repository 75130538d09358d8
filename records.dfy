/**
  The two record types of the catalog and the string-to-number parse used on
  their numeric fields. Every attribute stays the string it was loaded as;
  `year`, `born` and `died` are parsed only where a query compares or
  subtracts them.
 */
module Records {

  /** A photograph; `artist_id` refers to an artist's `id` without being checked. */
  datatype Photograph = Photograph(id: string, name: string, artist_id: string, year: string)

  /** An artist; `born` and `died` are years kept as strings. */
  datatype Artist = Artist(id: string, name: string, born: string, died: string, country: string)

  /** One data row of a loaded file: header symbol to cell text. */
  type Row = map<string, string>

  /** A row's value for a column, or "" when the row has no such column. */
  function Field(row: Row, column: string): string
  {
    if column in row then row[column] else ""
  }

  /** The photograph built from one data row of a photographs file. */
  function PhotographOf(row: Row): (p: Photograph)
    ensures "id" in row ==> p.id == row["id"]
    ensures "name" in row ==> p.name == row["name"]
    ensures "artist_id" in row ==> p.artist_id == row["artist_id"]
    ensures "year" in row ==> p.year == row["year"]
  {
    Photograph(Field(row, "id"), Field(row, "name"), Field(row, "artist_id"), Field(row, "year"))
  }

  /** The artist built from one data row of an artists file. */
  function ArtistOf(row: Row): (a: Artist)
    ensures "id" in row ==> a.id == row["id"]
    ensures "name" in row ==> a.name == row["name"]
    ensures "born" in row ==> a.born == row["born"]
    ensures "died" in row ==> a.died == row["died"]
    ensures "country" in row ==> a.country == row["country"]
  {
    Artist(Field(row, "id"), Field(row, "name"), Field(row, "born"), Field(row, "died"),
           Field(row, "country"))
  }

  predicate IsDigit(c: char)
  {
    '0' <= c <= '9'
  }

  predicate AllDigits(d: string)
  {
    forall i :: 0 <= i < |d| ==> IsDigit(d[i])
  }

  function DigitValue(c: char): (v: nat)
    requires IsDigit(c)
    ensures v < 10
  {
    c as int - '0' as int
  }

  /** The longest prefix of `s` made of decimal digits. */
  function LeadingDigits(s: string): (d: string)
    ensures d <= s && AllDigits(d)
    ensures |d| == |s| || !IsDigit(s[|d|])
  {
    if s == [] || !IsDigit(s[0]) then []
    else [s[0]] + LeadingDigits(s[1..])
  }

  /** The number a string of decimal digits denotes, most significant digit first. */
  function DecimalValue(d: string): nat
    requires AllDigits(d)
  {
    if d == [] then 0
    else DecimalValue(d[..|d| - 1]) * 10 + DigitValue(d[|d| - 1])
  }

  /**
    Ruby's `String#to_i` reduced to what the catalog relies on: the value of
    the leading decimal digits, and 0 when there are none. It never fails.
   */
  function ToInt(s: string): (n: nat)
    ensures s == [] || !IsDigit(s[0]) ==> n == 0
  {
    DecimalValue(LeadingDigits(s))
  }

  /** The decimal spelling of a natural number, without leading zeros: Ruby's `Integer#to_s`. */
  function ToDecimal(n: nat): (d: string)
    ensures |d| > 0 && AllDigits(d)
    decreases n
  {
    var last := ['0' + (n % 10) as char];
    if n < 10 then last else ToDecimal(n / 10) + last
  }

  /** A string of digits reads back to its own value, whatever non-digit text follows it. */
  lemma {:induction false} ToIntOfDigits(d: string, tail: string)
    requires AllDigits(d)
    requires tail == [] || !IsDigit(tail[0])
    ensures ToInt(d + tail) == DecimalValue(d)
  {
    LeadingDigitsOfDigits(d, tail);
  }

  lemma {:induction false} LeadingDigitsOfDigits(d: string, tail: string)
    requires AllDigits(d)
    requires tail == [] || !IsDigit(tail[0])
    ensures LeadingDigits(d + tail) == d
  {
    if d == [] {
      assert d + tail == tail;
    } else {
      assert (d + tail)[0] == d[0];
      assert (d + tail)[1..] == d[1..] + tail;
      LeadingDigitsOfDigits(d[1..], tail);
    }
  }

  /** `to_i` undoes `to_s`: parsing the decimal spelling of n gives n, even with a non-digit tail. */
  lemma {:induction false} ToIntOfDecimal(n: nat, tail: string)
    requires tail == [] || !IsDigit(tail[0])
    ensures ToInt(ToDecimal(n) + tail) == n
  {
    DecimalValueOfDecimal(n);
    ToIntOfDigits(ToDecimal(n), tail);
  }

  lemma {:induction false} DecimalValueOfDecimal(n: nat)
    ensures DecimalValue(ToDecimal(n)) == n
    decreases n
  {
    var d := ToDecimal(n);
    assert d[..|d| - 1] == if n < 10 then [] else ToDecimal(n / 10);
    if n >= 10 {
      DecimalValueOfDecimal(n / 10);
    }
  }

  /** A four-digit year string, such as a `year` or `born` field, reads as the year it spells. */
  lemma FourDigitYear(a: char, b: char, c: char, d: char)
    requires IsDigit(a) && IsDigit(b) && IsDigit(c) && IsDigit(d)
    ensures ToInt([a, b, c, d]) ==
              1000 * DigitValue(a) + 100 * DigitValue(b) + 10 * DigitValue(c) + DigitValue(d)
  {
    var y := [a, b, c, d];
    ToIntOfDigits(y, "");
    assert y + "" == y;
    assert [a][..0] == [];
    assert DecimalValue([a]) == DigitValue(a);
    assert [a, b][..1] == [a];
    assert DecimalValue([a, b]) == 10 * DigitValue(a) + DigitValue(b);
    assert [a, b, c][..2] == [a, b];
    assert DecimalValue([a, b, c]) == 100 * DigitValue(a) + 10 * DigitValue(b) + DigitValue(c);
    assert y[..3] == [a, b, c];
  }
}
