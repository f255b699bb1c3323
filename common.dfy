/** Shared vocabulary of the bulk ticket pipeline: optional values, the row
    store written by the spreadsheet ingestor and read by the orchestrator,
    ASCII case mapping, and Python's decimal rendering of integers (`str(n)`). */
module Common {

  datatype Option<+T> = None | Some(value: T)

  /** One stored spreadsheet row: lower-case column key to the cell's text. */
  type Row = map<string, string>

  /** The row store: 1-based sheet row number (the section name) to its row. */
  type Store = map<nat, Row>

  // ---------------------------------------------------------------------------
  // ASCII case mapping (str.upper / str.lower / configparser's optionxform)

  predicate IsUpperLetter(c: char) { 'A' <= c <= 'Z' }

  predicate IsLowerLetter(c: char) { 'a' <= c <= 'z' }

  function UpperChar(c: char): (u: char)
    ensures IsLowerLetter(c) ==> IsUpperLetter(u) && LowerChar(u) == c
    ensures !IsLowerLetter(c) ==> u == c
  {
    if IsLowerLetter(c) then (c as int - 32) as char else c
  }

  function LowerChar(c: char): (l: char)
    ensures IsUpperLetter(c) ==> IsLowerLetter(l)
    ensures !IsUpperLetter(c) ==> l == c
  {
    if IsUpperLetter(c) then (c as int + 32) as char else c
  }

  function Upper(s: string): (u: string)
    ensures |u| == |s|
  {
    seq(|s|, i requires 0 <= i < |s| => UpperChar(s[i]))
  }

  function Lower(s: string): (l: string)
    ensures |l| == |s|
  {
    seq(|s|, i requires 0 <= i < |s| => LowerChar(s[i]))
  }

  predicate AllUpperLetters(s: string) {
    forall i :: 0 <= i < |s| ==> IsUpperLetter(s[i])
  }

  /** Two strings of capital letters with the same lower-case form are equal,
      so lower-casing a column letter never merges two columns. */
  lemma LowerInjectiveOnLetters(s: string, t: string)
    requires AllUpperLetters(s) && AllUpperLetters(t)
    ensures Lower(s) == Lower(t) <==> s == t
  {
    if Lower(s) == Lower(t) {
      forall i | 0 <= i < |s| ensures s[i] == t[i] {
        assert Lower(s)[i] == Lower(t)[i];
      }
    }
  }

  // ---------------------------------------------------------------------------
  // Decimal rendering: Python's str() of an int

  predicate IsDigit(c: char) { '0' <= c <= '9' }

  predicate IsDigits(s: string) {
    |s| > 0 && forall i :: 0 <= i < |s| ==> IsDigit(s[i])
  }

  function DigitChar(d: nat): (c: char)
    requires d < 10
    ensures IsDigit(c)
  {
    ('0' as int + d) as char
  }

  function DigitValue(c: char): (d: nat)
    requires IsDigit(c)
    ensures d < 10
  {
    c as int - '0' as int
  }

  function NatToString(n: nat): (s: string)
    decreases n
  {
    if n < 10 then [DigitChar(n)] else NatToString(n / 10) + [DigitChar(n % 10)]
  }

  function IntToString(i: int): (s: string)
  {
    if i < 0 then "-" + NatToString(-i) else NatToString(i)
  }

  /** Reads back a decimal string (Python's int() on an ASCII digit string). */
  function ParseNat(s: string): (n: nat)
    requires IsDigits(s)
    decreases |s|
  {
    if |s| == 1 then DigitValue(s[0])
    else ParseNat(s[..|s| - 1]) * 10 + DigitValue(s[|s| - 1])
  }

  lemma {:induction false} NatToStringDigits(n: nat)
    ensures IsDigits(NatToString(n))
    ensures |NatToString(n)| == 1 <==> n < 10
    decreases n
  {
    if n >= 10 {
      NatToStringDigits(n / 10);
    }
  }

  /** `int(str(n)) == n`: the decimal rendering loses nothing. */
  lemma {:induction false} ParseNatToString(n: nat)
    ensures IsDigits(NatToString(n)) && ParseNat(NatToString(n)) == n
    decreases n
  {
    NatToStringDigits(n);
    if n >= 10 {
      var s := NatToString(n);
      ParseNatToString(n / 10);
      assert s[..|s| - 1] == NatToString(n / 10);
      assert s[|s| - 1] == DigitChar(n % 10);
    }
  }

  /** Distinct numbers render as distinct strings. */
  lemma NatToStringInjective(m: nat, n: nat)
    ensures NatToString(m) == NatToString(n) <==> m == n
  {
    if NatToString(m) == NatToString(n) {
      ParseNatToString(m);
      ParseNatToString(n);
    }
  }

  // ---------------------------------------------------------------------------
  // The row store as configparser holds it

  /** Every value of the row can be handed to re.sub as a literal. */
  predicate PlainRow(row: Row) {
    forall c :: c in row ==> '\\' !in row[c]
  }

  predicate PlainStore(store: Store) {
    forall n :: n in store ==> PlainRow(store[n])
  }

  /** `ConfigParser.read` on a parser that already holds `base`: sections of
      the file are added, and within a section present in both, the file's
      options are added over the existing ones. */
  function Merge(base: Store, file: Store): (m: Store)
  {
    map n | n in base.Keys + file.Keys ::
      if n in base && n in file then base[n] + file[n]
      else if n in file then file[n]
      else base[n]
  }

  /** The options of section `n` in `store`, none when it is absent. */
  function OptionsOf(store: Store, n: nat): set<string> {
    if n in store then store[n].Keys else {}
  }

  /** Reading into a fresh parser yields exactly the file's store. Reading
      into a parser that already holds sections keeps every section and
      option it held, adds no option that neither side has, takes the
      file's value for each option the file has, and keeps the held value
      of every other option. */
  lemma MergeSpec(base: Store, file: Store)
    ensures Merge(map[], file) == file
    ensures Merge(base, file).Keys == base.Keys + file.Keys
    ensures forall n :: n in Merge(base, file) ==> Merge(base, file)[n].Keys == OptionsOf(base, n) + OptionsOf(file, n)
    ensures forall n, c :: n in file && c in file[n] ==> Merge(base, file)[n][c] == file[n][c]
    ensures forall n, c :: n in base && c in base[n] && !(n in file && c in file[n]) ==> Merge(base, file)[n][c] == base[n][c]
  {
    assert Merge(map[], file).Keys == file.Keys;
  }

  lemma MergePlain(base: Store, file: Store)
    requires PlainStore(base) && PlainStore(file)
    ensures PlainStore(Merge(base, file))
  {
    forall n | n in Merge(base, file) ensures PlainRow(Merge(base, file)[n]) {
      if n in base && n in file {
        forall c | c in base[n] + file[n] ensures '\\' !in (base[n] + file[n])[c] {
          if c in file[n] {
            assert (base[n] + file[n])[c] == file[n][c];
          } else {
            assert (base[n] + file[n])[c] == base[n][c];
          }
        }
      }
    }
  }
}
