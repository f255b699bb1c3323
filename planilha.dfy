/** The spreadsheet ingestor (src/modulos/planilha.py): it walks the active
    sheet row by row and writes every kept row into the row store, one
    section per sheet row, one option per non-empty cell. */
module Ingestion {
  import opened Common

  // ---------------------------------------------------------------------------
  // Cells and sheets

  /** The cell values the model covers: text, integers and booleans. */
  datatype Value = Text(s: string) | Int(i: int) | Bool(b: bool)

  /** A cell: `None` for an empty cell. */
  type Cell = Option<Value>

  /** The active sheet, from A1: row `i` is sheet row `i + 1`, cell `j` of a
      row is column `j + 1`. */
  type Sheet = seq<seq<Cell>>

  /** The uploaded file as openpyxl sees it: a workbook whose active sheet
      loads, or one whose loading raises. */
  datatype Workbook = Loaded(sheet: Sheet) | Unreadable(reason: string)

  /** What `criar_base_chamados` hands back: the number of stored sections,
      `False`, or the loading exception it lets through. */
  datatype IngestResult = Sections(count: nat) | Failed | LoadRaised(reason: string)

  /** Python truthiness of a cell value. */
  predicate Truthy(v: Value) {
    match v
    case Text(s) => s != ""
    case Int(i) => i != 0
    case Bool(b) => b
  }

  /** `str(value)` */
  function Str(v: Value): string {
    match v
    case Text(s) => s
    case Int(i) => IntToString(i)
    case Bool(b) => if b then "True" else "False"
  }

  // ---------------------------------------------------------------------------
  // Column letters (openpyxl's `column_letter`) and the stored key

  function LetterOf(d: nat): (c: char)
    requires 1 <= d <= 26
    ensures IsUpperLetter(c)
  {
    ('A' as int + d - 1) as char
  }

  /** Column `n` (1-based) in bijective base 26: A..Z, AA, AB, ... */
  function ColumnLetter(n: nat): string
    requires n >= 1
    decreases n
  {
    if n <= 26 then [LetterOf(n)]
    else ColumnLetter((n - 1) / 26) + [LetterOf((n - 1) % 26 + 1)]
  }

  /** openpyxl's `column_index_from_string`. */
  function ColumnNumber(s: string): nat
    requires |s| > 0 && AllUpperLetters(s)
    decreases |s|
  {
    var d := s[|s| - 1] as int - 'A' as int + 1;
    if |s| == 1 then d else ColumnNumber(s[..|s| - 1]) * 26 + d
  }

  /** The option name configparser stores a column under: its letters,
      lower-cased by the parser's option normalisation. */
  function ColumnKey(n: nat): string
    requires n >= 1
  {
    Lower(ColumnLetter(n))
  }

  /** Column letters are capital letters, and reading them back gives the
      column number. */
  lemma {:induction false} ColumnLetterRoundTrip(n: nat)
    requires n >= 1
    ensures |ColumnLetter(n)| > 0 && AllUpperLetters(ColumnLetter(n))
    ensures ColumnNumber(ColumnLetter(n)) == n
    decreases n
  {
    if n > 26 {
      var q := (n - 1) / 26;
      ColumnLetterRoundTrip(q);
      var s := ColumnLetter(n);
      assert s[..|s| - 1] == ColumnLetter(q);
      assert s[|s| - 1] == LetterOf((n - 1) % 26 + 1);
    }
  }

  /** Distinct columns get distinct stored keys. */
  lemma ColumnKeyInjective(m: nat, n: nat)
    requires m >= 1 && n >= 1
    ensures ColumnKey(m) == ColumnKey(n) <==> m == n
  {
    ColumnLetterRoundTrip(m);
    ColumnLetterRoundTrip(n);
    LowerInjectiveOnLetters(ColumnLetter(m), ColumnLetter(n));
  }

  // ---------------------------------------------------------------------------
  // What ingestion stores

  /** `any(cell.value for cell in row)`: a row is kept iff some cell is truthy. */
  predicate RowKept(row: seq<Cell>) {
    exists j :: 0 <= j < |row| && row[j].Some? && Truthy(row[j].value)
  }

  /** The options a kept row gets: every non-`None` cell, under its column key. */
  function RowMap(row: seq<Cell>): Row
    decreases |row|
  {
    if row == [] then map[]
    else
      var prev := RowMap(row[..|row| - 1]);
      match row[|row| - 1]
      case None => prev
      case Some(v) => prev[ColumnKey(|row|) := Str(v)]
  }

  /** The store `criar_base_chamados` builds from a sheet, starting empty. */
  function Ingest(rows: Sheet): Store
    decreases |rows|
  {
    if rows == [] then map[]
    else
      var prev := Ingest(rows[..|rows| - 1]);
      if RowKept(rows[|rows| - 1]) then prev[|rows| := RowMap(rows[|rows| - 1])] else prev
  }

  /** The number of kept rows. */
  function KeptCount(rows: Sheet): nat
    decreases |rows|
  {
    if rows == [] then 0
    else KeptCount(rows[..|rows| - 1]) + (if RowKept(rows[|rows| - 1]) then 1 else 0)
  }

  /** One more cell: the options grow by that cell when it is not `None`. */
  lemma RowMapStep(row: seq<Cell>, j: nat)
    requires j < |row|
    ensures row[j].None? ==> RowMap(row[..j + 1]) == RowMap(row[..j])
    ensures row[j].Some? ==> RowMap(row[..j + 1]) == RowMap(row[..j])[ColumnKey(j + 1) := Str(row[j].value)]
  {
    assert row[..j + 1][..j] == row[..j];
  }

  /** A row's options hold every non-`None` cell as `str(value)` under its
      own column key (`''` and `0` included), and no key for a `None` cell. */
  lemma RowMapCells(row: seq<Cell>)
    ensures forall c :: 1 <= c <= |row| ==> (ColumnKey(c) in RowMap(row) <==> row[c - 1].Some?)
    ensures forall c :: 1 <= c <= |row| && row[c - 1].Some? ==> RowMap(row)[ColumnKey(c)] == Str(row[c - 1].value)
  {
    forall c | 1 <= c <= |row|
      ensures ColumnKey(c) in RowMap(row) <==> row[c - 1].Some?
      ensures row[c - 1].Some? ==> RowMap(row)[ColumnKey(c)] == Str(row[c - 1].value)
    {
      RowMapCell(row, c);
    }
  }

  /** The same for one column. */
  lemma {:induction false} RowMapCell(row: seq<Cell>, c: nat)
    requires 1 <= c <= |row|
    ensures ColumnKey(c) in RowMap(row) <==> row[c - 1].Some?
    ensures row[c - 1].Some? ==> RowMap(row)[ColumnKey(c)] == Str(row[c - 1].value)
    decreases |row|
  {
    var init := row[..|row| - 1];
    if c == |row| {
      RowMapBeyond(init, c);
    } else {
      RowMapCell(init, c);
      ColumnKeyInjective(c, |row|);
      assert row[c - 1] == init[c - 1];
    }
  }

  /** Columns past the end of a row have no option. */
  lemma {:induction false} RowMapBeyond(row: seq<Cell>, c: nat)
    requires c > |row|
    ensures ColumnKey(c) !in RowMap(row)
    decreases |row|
  {
    if row != [] {
      RowMapBeyond(row[..|row| - 1], c);
      ColumnKeyInjective(c, |row|);
    }
  }

  /** A row's options hold nothing but its cells' column keys. */
  lemma {:induction false} RowMapKeys(row: seq<Cell>)
    ensures forall k :: k in RowMap(row) ==> exists c :: 1 <= c <= |row| && row[c - 1].Some? && k == ColumnKey(c)
    decreases |row|
  {
    if row != [] {
      var init := row[..|row| - 1];
      RowMapKeys(init);
      forall k | k in RowMap(row)
        ensures exists c :: 1 <= c <= |row| && row[c - 1].Some? && k == ColumnKey(c)
      {
        if k in RowMap(init) {
          var c :| 1 <= c <= |init| && init[c - 1].Some? && k == ColumnKey(c);
          assert row[c - 1] == init[c - 1];
        } else {
          assert row[|row| - 1].Some? && k == ColumnKey(|row|);
        }
      }
    }
  }

  /** Sections: exactly the kept rows, each named by its 1-based sheet row
      number and holding that row's options. */
  lemma {:induction false} IngestSpec(rows: Sheet)
    ensures forall n :: n in Ingest(rows) <==> 1 <= n <= |rows| && RowKept(rows[n - 1])
    ensures forall n :: n in Ingest(rows) ==> Ingest(rows)[n] == RowMap(rows[n - 1])
    decreases |rows|
  {
    if rows != [] {
      var init := rows[..|rows| - 1];
      IngestSpec(init);
      forall i | 0 <= i < |init| ensures rows[i] == init[i] { }
    }
  }

  /** One more sheet row: a kept row adds its section. */
  lemma IngestStep(rows: Sheet, i: nat)
    requires i < |rows|
    ensures Ingest(rows[..i + 1]) == if RowKept(rows[i]) then Ingest(rows[..i])[i + 1 := RowMap(rows[i])] else Ingest(rows[..i])
    ensures KeptCount(rows[..i + 1]) == KeptCount(rows[..i]) + if RowKept(rows[i]) then 1 else 0
  {
    assert rows[..i + 1][..i] == rows[..i];
  }

  /** The returned count equals the number of kept rows, and is 0 exactly
      when every row is empty. */
  lemma {:induction false} IngestCount(rows: Sheet)
    ensures |Ingest(rows)| == KeptCount(rows)
    ensures KeptCount(rows) == 0 <==> forall i :: 0 <= i < |rows| ==> !RowKept(rows[i])
    decreases |rows|
  {
    if rows != [] {
      var init := rows[..|rows| - 1];
      IngestCount(init);
      IngestSpec(init);
      assert |rows| !in Ingest(init);
      forall i | 0 <= i < |init| ensures rows[i] == init[i] { }
      if KeptCount(rows) == 0 {
        forall i | 0 <= i < |rows| ensures !RowKept(rows[i]) {
          if i < |init| {
            assert rows[i] == init[i];
          }
        }
      }
    }
  }

  /** Values whose text contains no backslash. */
  predicate PlainSheet(rows: Sheet) {
    forall i, j :: 0 <= i < |rows| && 0 <= j < |rows[i]| && rows[i][j].Some? ==> '\\' !in Str(rows[i][j].value)
  }

  lemma IngestPlain(rows: Sheet)
    requires PlainSheet(rows)
    ensures PlainStore(Ingest(rows))
  {
    IngestSpec(rows);
    forall n | n in Ingest(rows) ensures PlainRow(Ingest(rows)[n]) {
      var row := rows[n - 1];
      RowMapCells(row);
      RowMapKeys(row);
      forall k | k in RowMap(row) ensures '\\' !in RowMap(row)[k] {
        var c :| 1 <= c <= |row| && row[c - 1].Some? && k == ColumnKey(c);
      }
    }
  }

  // ---------------------------------------------------------------------------
  // The temp file and the ingestor object

  /** `temp.txt` (`PATH_TO_TEMP`): whether it exists, and the store its text
      holds. The text format itself is not modelled. */
  class TempFile {
    var present: bool
    var store: Store

    constructor(present: bool, store: Store)
      ensures this.present == present && this.store == store
    {
      this.present := present;
      this.store := store;
    }
  }

  class Planilha {
    /** The shared `PATH_TO_TEMP` file. */
    const temp: TempFile
    /** The workbook at `caminho_arquivo`. */
    const arquivo: Workbook
    /** `self.sheet`: the active sheet once loaded. */
    var sheet: Option<Sheet>
    /** `self.config`: the parser's sections. */
    var config: Store

    /** `Planilha(caminho_arquivo)`: nothing loaded, and the store reset. */
    constructor(temp: TempFile, arquivo: Workbook)
      modifies temp
      ensures this.temp == temp && this.arquivo == arquivo
      ensures sheet == None && config == map[]
      ensures temp.present && temp.store == map[]
    {
      this.temp := temp;
      this.arquivo := arquivo;
      sheet := None;
      config := map[];
      new;
      ConfigTemp();
    }

    /** `config_temp`: truncate the temp file and start a fresh parser, so
        no section of an earlier upload survives. */
    method ConfigTemp()
      modifies this, temp
      ensures temp.present && temp.store == map[]
      ensures config == map[] && sheet == old(sheet)
    {
      temp.present := true;
      temp.store := map[];
      config := map[];
    }

    /** `carregar_planilha`: load the workbook, take its active sheet and
        reset the store. A loading error propagates; it is returned here. */
    method CarregarPlanilha() returns (raised: Option<string>)
      modifies this, temp
      ensures arquivo.Loaded? ==> raised == None && sheet == Some(arquivo.sheet)
      ensures arquivo.Loaded? ==> config == map[] && temp.present && temp.store == map[]
      ensures arquivo.Unreadable? ==> raised == Some(arquivo.reason)
      ensures arquivo.Unreadable? ==> sheet == old(sheet) && config == old(config)
      ensures arquivo.Unreadable? ==> temp.present == old(temp.present) && temp.store == old(temp.store)
    {
      match arquivo
      case Unreadable(reason) =>
        raised := Some(reason);
      case Loaded(s) =>
        sheet := Some(s);
        ConfigTemp();
        raised := None;
    }

    /** `criar_base_chamados`. `saveOk` says whether storing the values and
        writing the file went through; when it is false the method returns
        `False` instead of raising. */
    method CriarBaseChamados(saveOk: bool) returns (r: IngestResult)
      modifies this, temp
      ensures arquivo.Unreadable? ==> r == LoadRaised(arquivo.reason) && sheet == old(sheet)
      ensures arquivo.Unreadable? ==> config == map[] && temp.present && temp.store == map[]
      ensures arquivo.Loaded? ==> sheet == Some(arquivo.sheet) && config == Ingest(arquivo.sheet)
      ensures arquivo.Loaded? && !saveOk ==> r == Failed && temp.present && temp.store == map[]
      ensures arquivo.Loaded? && saveOk ==> r == Sections(KeptCount(arquivo.sheet))
      ensures arquivo.Loaded? && saveOk ==> temp.present && temp.store == Ingest(arquivo.sheet)
    {
      ConfigTemp();
      var raised := CarregarPlanilha();
      if raised.Some? {
        return LoadRaised(raised.value);
      }
      var rows := sheet.value;
      var linhas := 0;
      var i := 0;
      while i < |rows|
        invariant 0 <= i <= |rows|
        invariant config == Ingest(rows[..i])
        invariant linhas == KeptCount(rows[..i])
        invariant sheet == Some(rows) && temp.present && temp.store == map[]
      {
        IngestStep(rows, i);
        if RowKept(rows[i]) {
          AdicionarSecao(i + 1, rows[i]);
          linhas := linhas + 1;
        }
        i := i + 1;
      }
      assert rows[..i] == rows;
      if !saveOk {
        return Failed;
      }
      temp.store := config;
      temp.present := true;
      IngestCount(rows);
      r := Sections(|config|);
    }

    /** The body of the row loop for a kept row: `add_section` for sheet
        row `n`, then one `set` per non-`None` cell. */
    method AdicionarSecao(n: nat, row: seq<Cell>)
      modifies this
      ensures config == old(config)[n := RowMap(row)]
      ensures sheet == old(sheet)
    {
      config := config[n := map[]];
      var j := 0;
      while j < |row|
        invariant 0 <= j <= |row|
        invariant config == old(config)[n := RowMap(row[..j])]
        invariant sheet == old(sheet)
      {
        RowMapStep(row, j);
        assert config[n] == RowMap(row[..j]);
        if row[j].Some? {
          config := config[n := config[n][ColumnKey(j + 1) := Str(row[j].value)]];
        }
        j := j + 1;
      }
      assert row[..j] == row;
    }

    /** `limpar_arquivo_temporario`: remove the file and empty the store. */
    method LimparArquivoTemporario()
      modifies this, temp
      ensures !temp.present && temp.store == map[]
      ensures config == map[] && sheet == old(sheet)
    {
      temp.present := false;
      temp.store := map[];
      config := map[];
    }

    /** `verificar_arquivo_temporario`: true iff the file exists, in which
        case it is read into the parser. */
    method VerificarArquivoTemporario() returns (b: bool)
      modifies this
      ensures b == temp.present
      ensures config == if temp.present then Merge(old(config), temp.store) else old(config)
      ensures sheet == old(sheet)
    {
      if temp.present {
        config := Merge(config, temp.store);
        return true;
      }
      return false;
    }
  }
}
