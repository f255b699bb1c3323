/** The ticket routes (src/rotas/rt_chamado.py) as far as the bulk pipeline
    goes: the spreadsheet upload, the bulk submission and the preview. */
module ChamadoRoutes {
  import opened Common
  import opened Placeholders
  import opened Selection
  import opened Ingestion
  import opened Tickets

  // ---------------------------------------------------------------------------
  // Form checks and the result message

  /** `filename.endswith('.xlsx')`: case-sensitive. */
  predicate EndsWithXlsx(filename: string) {
    |filename| >= 5 && filename[|filename| - 5..] == ".xlsx"
  }

  /** An upload is accepted exactly when its name is some prefix followed by
      `.xlsx`; `.XLSX` is refused. */
  lemma XlsxCheck(filename: string, stem: string)
    ensures EndsWithXlsx(filename) <==> exists p :: filename == p + ".xlsx"
    ensures !EndsWithXlsx(stem + ".XLSX")
  {
    if EndsWithXlsx(filename) {
      assert filename == filename[..|filename| - 5] + ".xlsx";
    }
    var upper := stem + ".XLSX";
    assert upper[|upper| - 4] == 'X';
  }

  /** The form's header field: true iff it is exactly `"1"`. */
  function HeaderFlag(field: string): (b: bool)
    ensures b <==> field == "1"
  {
    field == "1"
  }

  const SufixoSucesso := " chamado(s) criado(s) com sucesso!"
  const SufixoFalhas := " chamado(s) falharam."

  /** The failure sentence, present iff `e > 0`. */
  function Falhas(e: nat): string {
    if e > 0 then " " + NatToString(e) + SufixoFalhas else ""
  }

  /** The bulk result message (rt_chamado.py:209-211). */
  function ResultMessage(s: nat, e: nat): string {
    NatToString(s) + (SufixoSucesso + Falhas(e))
  }

  /** The first position of `s` that is not a decimal digit. */
  function DigitRun(s: string): (n: nat)
    ensures n <= |s|
    decreases |s|
  {
    if s != [] && IsDigit(s[0]) then 1 + DigitRun(s[1..]) else 0
  }

  lemma {:induction false} DigitRunPrefix(d: string, x: string)
    requires forall i :: 0 <= i < |d| ==> IsDigit(d[i])
    requires x != [] && !IsDigit(x[0])
    ensures DigitRun(d + x) == |d|
    decreases |d|
  {
    if d == [] {
      assert d + x == x;
    } else {
      assert (d + x)[1..] == d[1..] + x;
      DigitRunPrefix(d[1..], x);
    }
  }

  /** A decimal number followed by a non-digit is read back unambiguously. */
  lemma NumberPrefix(m: nat, x: string, n: nat, y: string)
    requires x != [] && !IsDigit(x[0]) && y != [] && !IsDigit(y[0])
    requires NatToString(m) + x == NatToString(n) + y
    ensures m == n && x == y
  {
    NatToStringDigits(m);
    NatToStringDigits(n);
    DigitRunPrefix(NatToString(m), x);
    DigitRunPrefix(NatToString(n), y);
    var s := NatToString(m) + x;
    assert NatToString(m) == s[..|NatToString(m)|];
    assert NatToString(n) == s[..|NatToString(n)|];
    NatToStringInjective(m, n);
    assert x == s[|NatToString(m)|..];
  }

  lemma FalhasInjective(e1: nat, e2: nat)
    ensures Falhas(e1) == Falhas(e2) <==> e1 == e2
  {
    if Falhas(e1) == Falhas(e2) && e1 > 0 && e2 > 0 {
      FalhasCount(e1);
      FalhasCount(e2);
      NumberPrefix(e1, SufixoFalhas, e2, SufixoFalhas);
    }
  }

  /** A failure sentence is a space, the count, and the fixed suffix. */
  lemma FalhasCount(e: nat)
    requires e > 0
    ensures SufixoFalhas != [] && !IsDigit(SufixoFalhas[0])
    ensures Falhas(e)[1..] == NatToString(e) + SufixoFalhas
  {
    assert SufixoFalhas[0] == ' ';
  }

  lemma SuccessSentenceSplit(e1: nat, e2: nat)
    requires SufixoSucesso + Falhas(e1) == SufixoSucesso + Falhas(e2)
    ensures e1 == e2
  {
    var t := SufixoSucesso + Falhas(e1);
    assert Falhas(e1) == t[|SufixoSucesso|..];
    FalhasInjective(e1, e2);
  }

  /** The message states both counts: different counts give different
      messages, and a message without the failure sentence means no
      failure. */
  lemma ResultMessageInjective(s1: nat, e1: nat, s2: nat, e2: nat)
    ensures ResultMessage(s1, e1) == ResultMessage(s2, e2) <==> s1 == s2 && e1 == e2
  {
    if ResultMessage(s1, e1) == ResultMessage(s2, e2) {
      var t1 := SufixoSucesso + Falhas(e1);
      var t2 := SufixoSucesso + Falhas(e2);
      assert t1[0] == ' ' && t2[0] == ' ';
      NumberPrefix(s1, t1, s2, t2);
      SuccessSentenceSplit(e1, e2);
    }
  }

  // ---------------------------------------------------------------------------
  // carregar_planilha (POST /chamado/carregar-planilha)

  /** The JSON reply of the upload route: status, `sucesso`, the `erro` or
      `mensagem` text, and `linhas_processadas` on success. */
  datatype UploadResponse = UploadResponse(status: nat, sucesso: bool, texto: string, linhas: Option<nat>)

  const ErroFormato := "Erro ao processar planilha. Verifique o formato do arquivo."
  const ErroExtensao := "Apenas arquivos .xlsx são suportados."
  const PrefixoErroPlanilha := "Erro ao processar planilha: "
  const NaoAutenticado := "Usuário não autenticado"

  /** The reply once the ingestor has run: `not linhas_processadas` covers
      both `False` and `0`. */
  function UploadReply(n: IngestResult): UploadResponse
  {
    match n
    case LoadRaised(reason) => UploadResponse(500, false, PrefixoErroPlanilha + reason, None)
    case Failed => UploadResponse(400, false, ErroFormato, None)
    case Sections(k) =>
      if k == 0 then UploadResponse(400, false, ErroFormato, None)
      else UploadResponse(200, true, "Planilha carregada com sucesso! " + NatToString(k) + " linha(s) processada(s).", Some(k))
  }

  /** The whole upload route. */
  function UploadSpec(loggedIn: bool, filename: string, arquivo: Workbook, saveOk: bool): UploadResponse
  {
    if !loggedIn then UploadResponse(401, false, NaoAutenticado, None)
    else if !EndsWithXlsx(filename) then UploadResponse(400, false, ErroExtensao, None)
    else match arquivo
      case Unreadable(reason) => UploadReply(LoadRaised(reason))
      case Loaded(sheet) => UploadReply(if saveOk then Sections(KeptCount(sheet)) else Failed)
  }

  /** The upload succeeds exactly for a logged-in `.xlsx` upload that loads,
      is saved, and has at least one kept row; it then reports the number of
      kept rows. A sheet whose rows are all empty is refused. */
  lemma UploadSuccess(loggedIn: bool, filename: string, arquivo: Workbook, saveOk: bool)
    ensures var r := UploadSpec(loggedIn, filename, arquivo, saveOk);
            && (r.sucesso <==> loggedIn && EndsWithXlsx(filename) && arquivo.Loaded? && saveOk
                               && exists i :: 0 <= i < |arquivo.sheet| && RowKept(arquivo.sheet[i]))
            && (r.sucesso ==> r.status == 200 && r.linhas == Some(KeptCount(arquivo.sheet)))
            && (!r.sucesso ==> r.status != 200 && r.linhas == None)
  {
    if arquivo.Loaded? {
      IngestCount(arquivo.sheet);
    }
  }

  /** `carregar_planilha`: the upload is ingested into the temp file, which
      is kept for the preview and the bulk run. */
  method CarregarPlanilhaRota(loggedIn: bool, filename: string, arquivo: Workbook, saveOk: bool, temp: TempFile)
    returns (r: UploadResponse)
    modifies temp
    ensures r == UploadSpec(loggedIn, filename, arquivo, saveOk)
    ensures !loggedIn || !EndsWithXlsx(filename) ==> temp.present == old(temp.present) && temp.store == old(temp.store)
    ensures loggedIn && EndsWithXlsx(filename) ==> temp.present
    ensures loggedIn && EndsWithXlsx(filename) && arquivo.Loaded? && saveOk ==> temp.store == Ingest(arquivo.sheet)
    ensures loggedIn && EndsWithXlsx(filename) && !(arquivo.Loaded? && saveOk) ==> temp.store == map[]
  {
    if !loggedIn {
      return UploadResponse(401, false, NaoAutenticado, None);
    }
    if !EndsWithXlsx(filename) {
      return UploadResponse(400, false, ErroExtensao, None);
    }
    var planilha := new Planilha(temp, arquivo);
    var raised := planilha.CarregarPlanilha();
    if raised.Some? {
      return UploadResponse(500, false, PrefixoErroPlanilha + raised.value, None);
    }
    var linhas := planilha.CriarBaseChamados(saveOk);
    r := UploadReply(linhas);
  }

  // ---------------------------------------------------------------------------
  // criar_chamado (POST /chamado) with a spreadsheet

  /** What the form route does: redirect to the login page, show an error
      or the success message of a bulk run, or, when no spreadsheet was sent
      (no file, or a file without a name), take the single-ticket path. */
  datatype Pagina = RedirectLogin | ChamadoUnico | PaginaErro(texto: string) | PaginaSucesso(texto: string)

  /** The bulk run the route starts once the sheet is ingested: the store
      is the ingested sheet, `inicio_linha` is always 1, and the header flag
      comes from the form field. */
  function LoteRun(sheet: Sheet, email: string, titulo: string, descricao: string, qtd: int,
                   ignorarField: string, net: (nat, Draft) -> PostOutcome): Execucao
    requires PlainSheet(sheet)
  {
    IngestPlain(sheet);
    Sequencia(Ingest(sheet) != map[], Lote(Ingest(sheet), email, titulo, descricao, net), qtd, 1, HeaderFlag(ignorarField))
  }

  /** `criar_chamado` up to the bulk path (the employee lookup before it
      and the single-ticket path are left out). `filename` is `""` when no
      file was sent. */
  function LoteSpec(email: Option<string>, filename: string, arquivo: Workbook, saveOk: bool,
                    titulo: string, descricao: string, qtd: int, ignorarField: string,
                    net: (nat, Draft) -> PostOutcome): (Pagina, seq<Draft>)
    requires arquivo.Loaded? ==> PlainSheet(arquivo.sheet)
  {
    if email.None? || email.value == "" then (RedirectLogin, [])
    else if filename == "" then (ChamadoUnico, [])
    else if !EndsWithXlsx(filename) then (PaginaErro(ErroExtensao), [])
    else match arquivo
      case Unreadable(reason) => (PaginaErro(PrefixoErroPlanilha + reason), [])
      case Loaded(sheet) =>
        if !saveOk || KeptCount(sheet) == 0 then (PaginaErro(ErroFormato), [])
        else
          var e := LoteRun(sheet, email.value, titulo, descricao, qtd, ignorarField, net);
          (PaginaSucesso(ResultMessage(e.resultado.sucessos, e.resultado.erros)), e.chamadas)
  }

  /** `criar_chamado` with a spreadsheet. `email` is the session's user
      e-mail (`None` without a session). */
  method CriarChamadosLote(email: Option<string>, filename: string, arquivo: Workbook, saveOk: bool,
                           titulo: string, descricao: string, qtd: int, ignorarField: string,
                           net: (nat, Draft) -> PostOutcome, temp: TempFile)
    returns (r: Pagina, calls: seq<Draft>)
    requires arquivo.Loaded? ==> PlainSheet(arquivo.sheet)
    modifies temp
    ensures (r, calls) == LoteSpec(email, filename, arquivo, saveOk, titulo, descricao, qtd, ignorarField, net)
    ensures r.PaginaSucesso? ==> !temp.present
    ensures r.PaginaErro? && EndsWithXlsx(filename) ==> temp.present && temp.store == map[]
    ensures r.RedirectLogin? || !EndsWithXlsx(filename) ==> temp.present == old(temp.present) && temp.store == old(temp.store)
  {
    if email.None? || email.value == "" {
      return RedirectLogin, [];
    }
    if filename == "" {
      return ChamadoUnico, [];
    }
    if !EndsWithXlsx(filename) {
      return PaginaErro(ErroExtensao), [];
    }
    var planilha := new Planilha(temp, arquivo);
    var linhas := planilha.CriarBaseChamados(saveOk);
    match linhas
    case LoadRaised(reason) =>
      r, calls := PaginaErro(PrefixoErroPlanilha + reason), [];
    case Failed =>
      r, calls := PaginaErro(ErroFormato), [];
    case Sections(k) =>
      if k == 0 {
        IngestCount(arquivo.sheet);
        r, calls := PaginaErro(ErroFormato), [];
      } else {
        IngestPlain(arquivo.sheet);
        IngestCount(arquivo.sheet);
        MergeSpec(map[], Ingest(arquivo.sheet));
        var ignorarCabecalho := HeaderFlag(ignorarField);
        var abrir := new AbrirChamados(email.value, temp);
        var res;
        res, calls := abrir.AbrirChamadosSequencia(titulo, descricao, qtd, 1, ignorarCabecalho, net);
        planilha.LimparArquivoTemporario();
        r := PaginaSucesso(ResultMessage(res.sucessos, res.erros));
      }
  }

  /** A bulk submission whose selection comes out empty still shows the
      success page, reporting no ticket created and one failure, and posts
      nothing. */
  lemma LoteEmptySelection(email: string, sheet: Sheet, titulo: string, descricao: string, qtd: int,
                           ignorarField: string, net: (nat, Draft) -> PostOutcome, filename: string)
    requires PlainSheet(sheet) && EndsWithXlsx(filename) && email != ""
    requires KeptCount(sheet) > 0
    requires Selecionar(SortedSections(Ingest(sheet).Keys), qtd, 1, HeaderFlag(ignorarField)) == []
    ensures LoteSpec(Some(email), filename, Loaded(sheet), true, titulo, descricao, qtd, ignorarField, net)
         == (PaginaSucesso(ResultMessage(0, 1)), [])
  {
    IngestPlain(sheet);
    IngestCount(sheet);
    var store := Ingest(sheet);
    assert store.Keys != {} by {
      var n :| n in store;
    }
    SequenciaEarlyExits(true, Lote(store, email, titulo, descricao, net), qtd, 1, HeaderFlag(ignorarField));
  }

  /** On row numbers from 1, the header field decides the first row alone:
      the smallest row is picked iff the field is anything but `"1"`. */
  lemma HeaderFieldFirstRow(keys: set<nat>, qtd: int, field: string)
    requires keys != {} && qtd >= 1
    requires forall n :: n in keys ==> n >= 1
    ensures SetMin(keys) in Selecionar(SortedSections(keys), qtd, 1, HeaderFlag(field)) <==> field != "1"
  {
    var ignorar := HeaderFlag(field);
    var sel := Selecionar(SortedSections(keys), qtd, 1, ignorar);
    var m := SetMin(keys);
    SelectionSound(keys, qtd, 1, ignorar);
    if !ignorar {
      assert m in Eligible(keys, 1, ignorar);
      SelectionLength(keys, qtd, 1, ignorar);
      // the first selected row is stored, so it is not below `m`; were `m`
      // left out, that row would be below it
      assert sel[0] in keys;
    }
  }

  /** Row numbers start at 1. */
  lemma IngestKeys(sheet: Sheet)
    ensures forall n :: n in Ingest(sheet) ==> n >= 1
  {
    IngestSpec(sheet);
  }

  /** A set of two or more rows keeps a row after the smallest. */
  lemma SecondRow(keys: set<nat>)
    requires |keys| >= 2
    ensures exists x :: x in keys && x != SetMin(keys)
  {
    var first := SetMin(keys);
    assert keys != {first};
  }

  /** The details of a non-empty run name the selected rows, in order. */
  lemma DetalheLinhas(lote: Lote, qtd: int, inicio: int, ignorar: bool)
    requires PlainStore(lote.store)
    requires Selecionar(SortedSections(lote.store.Keys), qtd, inicio, ignorar) != []
    ensures var sel := Selecionar(SortedSections(lote.store.Keys), qtd, inicio, ignorar);
            var d := Sequencia(true, lote, qtd, inicio, ignorar).resultado.detalhes;
            |d| == |sel| && forall i :: 0 <= i < |d| ==> d[i].linha == sel[i]
  {
    SequenciaMain(lote, qtd, inicio, ignorar);
  }

  /** The bulk run over a sheet with at least two kept rows, and `qtd` at
      least 1: the first kept row gets a ticket iff the header field is not
      `"1"`. */
  lemma LoteHeaderRow(sheet: Sheet, email: string, titulo: string, descricao: string, qtd: int,
                      ignorarField: string, net: (nat, Draft) -> PostOutcome)
    requires PlainSheet(sheet) && qtd >= 1 && KeptCount(sheet) >= 2
    ensures var store := Ingest(sheet);
            var d := LoteRun(sheet, email, titulo, descricao, qtd, ignorarField, net).resultado.detalhes;
            store != map[]
            && ((exists i :: 0 <= i < |d| && d[i].linha == SetMin(store.Keys)) <==> ignorarField != "1")
  {
    IngestPlain(sheet);
    IngestCount(sheet);
    IngestKeys(sheet);
    var store := Ingest(sheet);
    var keys := store.Keys;
    var ignorar := HeaderFlag(ignorarField);
    var first := SetMin(keys);
    // a second row keeps the selection non-empty when the header is skipped
    SecondRow(keys);
    var other :| other in keys && other != first;
    assert other in Eligible(keys, 1, ignorar);
    SelectionLength(keys, qtd, 1, ignorar);
    var sel := Selecionar(SortedSections(keys), qtd, 1, ignorar);
    DetalheLinhas(Lote(store, email, titulo, descricao, net), qtd, 1, ignorar);
    HeaderFieldFirstRow(keys, qtd, ignorarField);
    var d := LoteRun(sheet, email, titulo, descricao, qtd, ignorarField, net).resultado.detalhes;
    if first in sel {
      var i :| 0 <= i < |sel| && sel[i] == first;
      assert d[i].linha == first;
    }
  }

  // ---------------------------------------------------------------------------
  // preview_chamados (POST /chamado/preview)

  const EmailAusente := "Email não encontrado na sessão"
  const TempAusente := "Arquivo temp.txt não encontrado. Faça upload da planilha primeiro."

  /** One entry of `preview`. */
  datatype PreviewItem = PreviewItem(linha: nat, titulo: string, descricao: string, erro: Option<string>)

  /** The JSON reply of the preview: an error (with an empty `preview`) or
      `total_linhas` and the items. */
  datatype PreviewResponse = PreviewFalha(status: nat, erro: string) | PreviewOk(totalLinhas: nat, preview: seq<PreviewItem>)

  /** The item for one selected row. */
  function ItemFor(store: Store, titulo: string, descricao: string, n: nat): PreviewItem
    requires PlainStore(store)
  {
    var p := Processar(store, titulo, descricao, n);
    if p.erro.Some? then PreviewItem(n, titulo, descricao, p.erro)
    else PreviewItem(n, p.titulo, p.descricao, None)
  }

  /** The items, one per selected row, in order. */
  function Items(store: Store, titulo: string, descricao: string, secoes: seq<nat>): seq<PreviewItem>
    requires PlainStore(store)
    decreases |secoes|
  {
    if secoes == [] then []
    else Items(store, titulo, descricao, secoes[..|secoes| - 1]) + [ItemFor(store, titulo, descricao, secoes[|secoes| - 1])]
  }

  /** The preview route before its loop: the failures it reports, or the
      total and the rows to show. */
  datatype PreviewPlano = PreviewExit(status: nat, erro: string) | PreviewRows(total: nat, secoes: seq<nat>)

  function PlanejarPreview(ok: bool, store: Store, qtd: int, ignorar: bool): PreviewPlano
  {
    if !ok then PreviewExit(400, ErroCarregarTemp)
    else
      var secoes := SortedSections(store.Keys);
      if secoes == [] then PreviewExit(400, SemLinhasValidas)
      else
        var rest := DropHeader(secoes, ignorar);
        PreviewRows(|rest|, SelecionarPreview(secoes, qtd, ignorar))
  }

  /** The whole preview route; `file` is the store the temp file holds. */
  function PreviewSpec(loggedIn: bool, email: Option<string>, present: bool, file: Store,
                       titulo: string, descricao: string, qtd: int, ignorar: bool): PreviewResponse
    requires PlainStore(file)
  {
    if !loggedIn then PreviewFalha(401, NaoAutenticado)
    else if email.None? || email.value == "" then PreviewFalha(401, EmailAusente)
    else if !present then PreviewFalha(400, TempAusente)
    else
      MergePlain(map[], file);
      PreviewLoaded(Merge(map[], file), titulo, descricao, qtd, ignorar)
  }

  lemma PreviewSpecLoaded(email: Option<string>, file: Store, titulo: string, descricao: string, qtd: int, ignorar: bool)
    requires PlainStore(file) && email.Some? && email.value != ""
    ensures PlainStore(Merge(map[], file))
    ensures PreviewSpec(true, email, true, file, titulo, descricao, qtd, ignorar)
         == PreviewLoaded(Merge(map[], file), titulo, descricao, qtd, ignorar)
  {
    MergePlain(map[], file);
  }

  /** The preview once the temp file is read into `store`. */
  function PreviewLoaded(store: Store, titulo: string, descricao: string, qtd: int, ignorar: bool): PreviewResponse
    requires PlainStore(store)
  {
    match PlanejarPreview(store != map[], store, qtd, ignorar)
    case PreviewExit(status, erro) => PreviewFalha(status, erro)
    case PreviewRows(total, sel) => PreviewOk(total, Items(store, titulo, descricao, sel))
  }

  /** `preview_chamados`: the same row selection and resolution as the bulk
      run, with no ticket created. */
  method PreviewChamados(loggedIn: bool, email: Option<string>, temp: TempFile,
                         titulo: string, descricao: string, qtd: int, ignorar: bool)
    returns (r: PreviewResponse)
    requires PlainStore(temp.store)
    ensures r == PreviewSpec(loggedIn, email, temp.present, temp.store, titulo, descricao, qtd, ignorar)
  {
    if !loggedIn {
      return PreviewFalha(401, NaoAutenticado);
    }
    if email.None? || email.value == "" {
      return PreviewFalha(401, EmailAusente);
    }
    if !temp.present {
      return PreviewFalha(400, TempAusente);
    }
    var abrir := new AbrirChamados(email.value, temp);
    PreviewSpecLoaded(email, temp.store, titulo, descricao, qtd, ignorar);
    var ok := abrir.CarregarDadosTemp();
    var store := abrir.configPlanilha;
    assert store == Merge(map[], temp.store) && ok == (store != map[]);
    match PlanejarPreview(ok, store, qtd, ignorar)
    case PreviewExit(status, erro) =>
      r := PreviewFalha(status, erro);
      assert r == PreviewLoaded(store, titulo, descricao, qtd, ignorar);
    case PreviewRows(total, sel) =>
      var items := [];
      for i := 0 to |sel|
        invariant abrir.configPlanilha == store
        invariant items == Items(store, titulo, descricao, sel[..i])
      {
        var n := sel[i];
        var p := abrir.ProcessarChamado(titulo, descricao, n);
        ItemsPrefix(store, titulo, descricao, sel, i, p);
        if p.erro.Some? {
          items := items + [PreviewItem(n, titulo, descricao, p.erro)];
        } else {
          items := items + [PreviewItem(n, p.titulo, p.descricao, None)];
        }
      }
      assert sel[..|sel|] == sel;
      r := PreviewOk(total, items);
      assert r == PreviewLoaded(store, titulo, descricao, qtd, ignorar);
  }

  /** The items of `i + 1` rows are those of `i` rows and the item built
      from the processing `p` of row `i`. */
  lemma ItemsPrefix(store: Store, titulo: string, descricao: string, secoes: seq<nat>, i: nat, p: Processado)
    requires PlainStore(store) && i < |secoes|
    requires p == Processar(store, titulo, descricao, secoes[i])
    ensures Items(store, titulo, descricao, secoes[..i + 1])
         == Items(store, titulo, descricao, secoes[..i])
            + [if p.erro.Some? then PreviewItem(secoes[i], titulo, descricao, p.erro)
               else PreviewItem(secoes[i], p.titulo, p.descricao, None)]
  {
    assert secoes[..i + 1][..i] == secoes[..i];
  }

  lemma {:induction false} ItemsSpec(store: Store, titulo: string, descricao: string, secoes: seq<nat>)
    requires PlainStore(store)
    ensures |Items(store, titulo, descricao, secoes)| == |secoes|
    ensures forall i :: 0 <= i < |secoes| ==> Items(store, titulo, descricao, secoes)[i] == ItemFor(store, titulo, descricao, secoes[i])
    decreases |secoes|
  {
    if secoes != [] {
      ItemsSpec(store, titulo, descricao, secoes[..|secoes| - 1]);
    }
  }

  /** Over a temp file holding at least one row, the preview succeeds,
      reports the rows left after the header is dropped, and shows one item
      per row of the preview selection. */
  lemma PreviewOfStore(file: Store, email: string, titulo: string, descricao: string, qtd: int, ignorar: bool)
    requires PlainStore(file) && email != "" && file.Keys != {}
    ensures PreviewSpec(true, Some(email), true, file, titulo, descricao, qtd, ignorar)
         == PreviewOk(|DropHeader(SortedSections(file.Keys), ignorar)|,
                      Items(file, titulo, descricao, SelecionarPreview(SortedSections(file.Keys), qtd, ignorar)))
  {
    MergeSpec(map[], file);
    SortedSectionsSpec(file.Keys);
    assert file != map[];
  }

  /** What the preview shows is what the bulk run posts: over the same
      stored rows (numbered from 1, as the ingestor numbers them) with the
      same quantity and header flag, the preview lists the rows the bulk
      run (starting at row 1) processes, in the same order, each with the
      title and description of the ticket the run posts for it; and
      `total_linhas` is the number of rows after the header is dropped. */
  lemma PreviewPredictsRun(file: Store, email: string, titulo: string, descricao: string,
                           qtd: int, ignorar: bool, net: (nat, Draft) -> PostOutcome)
    requires PlainStore(file) && email != ""
    requires forall n :: n in file ==> n >= 1
    requires Selecionar(SortedSections(file.Keys), qtd, 1, ignorar) != []
    ensures var r := PreviewSpec(true, Some(email), true, file, titulo, descricao, qtd, ignorar);
            var e := Sequencia(true, Lote(file, email, titulo, descricao, net), qtd, 1, ignorar);
            && r.PreviewOk?
            && r.totalLinhas == (if ignorar then |file| - 1 else |file|)
            && |r.preview| == |e.chamadas| == |e.resultado.detalhes|
            && forall i :: 0 <= i < |r.preview| ==>
                 && r.preview[i].linha == e.resultado.detalhes[i].linha
                 && r.preview[i].titulo == e.chamadas[i].titulo
                 && r.preview[i].descricao == e.chamadas[i].descricao
                 && r.preview[i].erro.None?
  {
    var keys := file.Keys;
    var lote := Lote(file, email, titulo, descricao, net);
    var secoes := SortedSections(keys);
    var sel := Selecionar(secoes, qtd, 1, ignorar);
    assert keys != {} by {
      SelectionSound(keys, qtd, 1, ignorar);
      assert sel[0] in keys;
    }
    SortedSectionsSpec(keys);
    forall x | x in secoes ensures x >= 1 { }
    PreviewMatchesRun(secoes, qtd, 1, ignorar);
    PreviewTotal(keys, ignorar);
    PreviewOfStore(file, email, titulo, descricao, qtd, ignorar);
    var items := Items(file, titulo, descricao, sel);
    ItemsSpec(file, titulo, descricao, sel);
    SequenciaMain(lote, qtd, 1, ignorar);
    var e := Sequencia(true, lote, qtd, 1, ignorar);
    forall i | 0 <= i < |items|
      ensures items[i].linha == e.resultado.detalhes[i].linha
      ensures items[i].titulo == e.chamadas[i].titulo
      ensures items[i].descricao == e.chamadas[i].descricao
      ensures items[i].erro.None?
    {
      assert items[i] == ItemFor(file, titulo, descricao, sel[i]);
      assert sel[i] in file;
    }
  }
}
