/** The bulk ticket orchestrator (src/modulos/abrir_chamados.py): it loads the
    row store from the temp file, picks the rows to process, resolves the
    title and description templates against each row and posts one ticket
    per row, counting successes and failures without stopping. */
module Tickets {
  import opened Common
  import opened Placeholders
  import opened Selection
  import opened Ingestion

  // ---------------------------------------------------------------------------
  // Ticket creation (criar_chamado_api)

  /** `DadosChamado`: the payload of one ticket. */
  datatype Draft = Draft(usuario: string, titulo: string, descricao: string)

  /** How the call for one ticket ends. `Posted`: the reply is 2xx and its
      body is empty or JSON. `RequestError`: a `requests` exception, that is
      a connection failure, a non-2xx reply (`raise_for_status`) or a 2xx
      reply whose body is not JSON (`response.json()` raises requests'
      `JSONDecodeError`, itself a `RequestException`, although the ticket
      may then have been created). `OtherError`: any other exception, such
      as a payload that fails validation. The text is `str(e)`. */
  datatype PostOutcome = Posted | RequestError(detail: string) | OtherError(detail: string)

  /** The dictionary `criar_chamado_api` returns, without its `dados`. */
  datatype ApiResult = ApiResult(sucesso: bool, mensagem: string)

  const MsgCriado := "Chamado criado com sucesso"
  const PrefixoErroApi := "Erro ao criar chamado: "
  const PrefixoErroInesperado := "Erro inesperado: "
  const ErroCarregarTemp := "Erro ao carregar dados do temp.txt"
  const SemLinhasValidas := "Nenhuma linha válida encontrada no temp.txt"
  const PrefixoSemLinhaInicio := "Nenhuma linha encontrada a partir da linha "

  /** `criar_chamado_api` never raises: every outcome of the call becomes a
      result, successful exactly when the reply was 2xx with an empty or
      JSON body. */
  function CriarChamadoApi(o: PostOutcome): (r: ApiResult)
    ensures r.sucesso <==> o.Posted?
  {
    match o
    case Posted => ApiResult(true, MsgCriado)
    case RequestError(e) => ApiResult(false, PrefixoErroApi + e)
    case OtherError(e) => ApiResult(false, PrefixoErroInesperado + e)
  }

  /** The result tells the outcome apart: which exception, and its text. */
  lemma CriarChamadoApiInjective(o1: PostOutcome, o2: PostOutcome)
    ensures CriarChamadoApi(o1) == CriarChamadoApi(o2) <==> o1 == o2
  {
    var m1 := CriarChamadoApi(o1).mensagem;
    var m2 := CriarChamadoApi(o2).mensagem;
    if o1.RequestError? && o2.RequestError? && m1 == m2 {
      assert o1.detail == m1[|PrefixoErroApi|..] == m2[|PrefixoErroApi|..] == o2.detail;
    }
    if o1.OtherError? && o2.OtherError? && m1 == m2 {
      assert o1.detail == m1[|PrefixoErroInesperado|..] == m2[|PrefixoErroInesperado|..] == o2.detail;
    }
    if o1.RequestError? && o2.OtherError? {
      assert m1[5] == 'a' && m2[5] == 'i';
    }
    if o1.OtherError? && o2.RequestError? {
      assert m1[5] == 'i' && m2[5] == 'a';
    }
  }

  // ---------------------------------------------------------------------------
  // processar_chamado

  /** The dictionary `processar_chamado` returns; `erro` is absent (`None`)
      when the row was found. */
  datatype Processado = Processado(titulo: string, descricao: string, erro: Option<string>)

  function LinhaNaoEncontrada(n: nat): string {
    "Linha " + NatToString(n) + " não encontrada"
  }

  /** The error names the row: different rows give different messages. */
  lemma LinhaNaoEncontradaInjective(m: nat, n: nat)
    ensures LinhaNaoEncontrada(m) == LinhaNaoEncontrada(n) <==> m == n
  {
    var a := LinhaNaoEncontrada(m);
    var b := LinhaNaoEncontrada(n);
    var tail := " não encontrada";
    if a == b {
      assert NatToString(m) == a[6..|a| - |tail|] == b[6..|b| - |tail|] == NatToString(n);
      NatToStringInjective(m, n);
    }
  }

  /** The row `n` of the store, as `has_option` sees it: a missing section
      has no options. */
  function RowOf(store: Store, n: nat): (row: Row)
    ensures n in store ==> row == store[n]
    ensures n !in store ==> row == map[]
  {
    if n in store then store[n] else map[]
  }

  /** `processar_chamado` on section `n`. */
  function Processar(store: Store, titulo: string, descricao: string, n: nat): Processado
    requires PlainStore(store)
  {
    if n !in store then Processado(titulo, descricao, Some(LinhaNaoEncontrada(n)))
    else Processado(Resolve(titulo, store[n]), Resolve(descricao, store[n]), None)
  }

  // ---------------------------------------------------------------------------
  // abrir_chamados_sequencia

  /** One entry of `detalhes`; `titulo` is absent (`None`) on entries that
      carry no title. */
  datatype Detalhe = Detalhe(linha: int, sucesso: bool, mensagem: string, titulo: Option<string>)

  datatype Resultado = Resultado(totalProcessados: nat, sucessos: nat, erros: nat, detalhes: seq<Detalhe>)

  /** A run: its result, and the drafts posted, in order. */
  datatype Execucao = Execucao(resultado: Resultado, chamadas: seq<Draft>)

  /** What stays fixed during a run: the loaded store, the user, the two
      templates, and the outcome of the `k`-th POST of a given draft. */
  datatype Lote = Lote(store: Store, email: string, titulo: string, descricao: string,
                       net: (nat, Draft) -> PostOutcome)

  /** The loop's state: its counters, the details so far and the drafts
      posted so far. */
  datatype Progress = Progress(sucessos: nat, erros: nat, detalhes: seq<Detalhe>, calls: seq<Draft>)

  /** One iteration of the loop over the selected rows. */
  function Step(lote: Lote, p: Progress, n: nat): Progress
    requires PlainStore(lote.store)
  {
    var r := Processar(lote.store, lote.titulo, lote.descricao, n);
    match r.erro
    case Some(e) =>
      Progress(p.sucessos, p.erros + 1, p.detalhes + [Detalhe(n, false, e, None)], p.calls)
    case None =>
      var d := Draft(lote.email, r.titulo, r.descricao);
      var api := CriarChamadoApi(lote.net(|p.calls|, d));
      if api.sucesso then
        Progress(p.sucessos + 1, p.erros, p.detalhes + [Detalhe(n, true, api.mensagem, Some(r.titulo))], p.calls + [d])
      else
        Progress(p.sucessos, p.erros + 1, p.detalhes + [Detalhe(n, false, api.mensagem, Some(r.titulo))], p.calls + [d])
  }

  /** The loop over `secoes`, in order. */
  function Run(lote: Lote, secoes: seq<nat>): Progress
    requires PlainStore(lote.store)
    decreases |secoes|
  {
    if secoes == [] then Progress(0, 0, [], [])
    else Step(lote, Run(lote, secoes[..|secoes| - 1]), secoes[|secoes| - 1])
  }

  /** How a run goes: an early exit with its single detail, or the rows to
      process. */
  datatype Plano = Exit(detalhe: Detalhe) | Proceed(secoes: seq<nat>)

  /** The checks before the loop (abrir_chamados.py:198-249). */
  function Planejar(loaded: bool, store: Store, qtd: int, inicio: int, ignorar: bool): Plano
  {
    if !loaded then Exit(Detalhe(0, false, ErroCarregarTemp, None))
    else
      var secoes := SortedSections(store.Keys);
      if secoes == [] then Exit(Detalhe(0, false, SemLinhasValidas, None))
      else
        var sel := Selecionar(secoes, qtd, inicio, ignorar);
        if sel == [] then
          Exit(Detalhe(inicio, false, PrefixoSemLinhaInicio + IntToString(inicio), None))
        else Proceed(sel)
  }

  /** The whole of `abrir_chamados_sequencia`, once the store is loaded
      (`loaded` is what `carregar_dados_temp` returned). */
  function Sequencia(loaded: bool, lote: Lote, qtd: int, inicio: int, ignorar: bool): Execucao
    requires PlainStore(lote.store)
  {
    match Planejar(loaded, lote.store, qtd, inicio, ignorar)
    case Exit(d) => Execucao(Resultado(0, 0, 1, [d]), [])
    case Proceed(sel) =>
      var p := Run(lote, sel);
      Execucao(Resultado(|sel|, p.sucessos, p.erros, p.detalhes), p.calls)
  }

  // ---------------------------------------------------------------------------
  // Properties of a run

  /** The number of rows of `xs` the store holds. */
  function CountPresent(store: Store, xs: seq<nat>): nat
    decreases |xs|
  {
    if xs == [] then 0
    else CountPresent(store, xs[..|xs| - 1]) + (if xs[|xs| - 1] in store then 1 else 0)
  }

  /** The number of successful details. */
  function CountSucessos(ds: seq<Detalhe>): nat
    decreases |ds|
  {
    if ds == [] then 0
    else CountSucessos(ds[..|ds| - 1]) + (if ds[|ds| - 1].sucesso then 1 else 0)
  }

  /** What the `i`-th detail says about row `n`, the `k`-th present row: a
      missing row is an error that posts nothing; a present row's resolved
      draft is the `k`-th POST, and its detail reports that POST's result
      with the resolved title. */
  predicate Reported(lote: Lote, p: Progress, n: nat, i: nat, k: nat)
    requires PlainStore(lote.store)
  {
    i < |p.detalhes| &&
    if n !in lote.store then
      p.detalhes[i] == Detalhe(n, false, LinhaNaoEncontrada(n), None)
    else
      var row := lote.store[n];
      && k < |p.calls|
      && p.calls[k] == Draft(lote.email, Resolve(lote.titulo, row), Resolve(lote.descricao, row))
      && var api := CriarChamadoApi(lote.net(k, p.calls[k]));
         p.detalhes[i] == Detalhe(n, api.sucesso, api.mensagem, Some(p.calls[k].titulo))
  }

  lemma ReportedExtends(lote: Lote, p: Progress, q: Progress, n: nat, i: nat, k: nat)
    requires PlainStore(lote.store)
    requires Reported(lote, p, n, i, k)
    requires p.detalhes <= q.detalhes && p.calls <= q.calls
    ensures Reported(lote, q, n, i, k)
  {
    assert q.detalhes[i] == p.detalhes[i];
    if n in lote.store {
      assert q.calls[k] == p.calls[k];
    }
  }

  /** The loop never stops early: one detail per selected row, in order;
      `sucessos + erros` is the number of rows and `sucessos` the number of
      successful details; only present rows are posted, each once, in
      order. */
  lemma RunSpec(lote: Lote, secoes: seq<nat>)
    requires PlainStore(lote.store)
    ensures var p := Run(lote, secoes);
            && |p.detalhes| == |secoes|
            && p.sucessos + p.erros == |secoes|
            && p.sucessos == CountSucessos(p.detalhes)
            && |p.calls| == CountPresent(lote.store, secoes)
            && (forall i :: 0 <= i < |secoes| ==> p.detalhes[i].linha == secoes[i])
            && (forall i :: 0 <= i < |secoes| ==> Reported(lote, p, secoes[i], i, CountPresent(lote.store, secoes[..i])))
  {
    var p := Run(lote, secoes);
    RunShape(lote, secoes);
    forall i | 0 <= i < |secoes|
      ensures p.detalhes[i].linha == secoes[i]
      ensures Reported(lote, p, secoes[i], i, CountPresent(lote.store, secoes[..i]))
    {
      RunReportedAt(lote, secoes, i);
    }
  }

  /** The counters and lengths of a run. */
  lemma {:induction false} RunShape(lote: Lote, secoes: seq<nat>)
    requires PlainStore(lote.store)
    ensures var p := Run(lote, secoes);
            && |p.detalhes| == |secoes|
            && p.sucessos + p.erros == |secoes|
            && p.sucessos == CountSucessos(p.detalhes)
            && |p.calls| == CountPresent(lote.store, secoes)
    decreases |secoes|
  {
    if secoes != [] {
      var init := secoes[..|secoes| - 1];
      RunShape(lote, init);
      var p0 := Run(lote, init);
      var p := Run(lote, secoes);
      assert p == Step(lote, p0, secoes[|secoes| - 1]);
      StepSpec(lote, p0, secoes[|secoes| - 1]);
      assert p.detalhes[..|p.detalhes| - 1] == p0.detalhes;
    }
  }

  /** A shorter run's details and posts are prefixes of a longer one's. */
  lemma {:induction false} RunMonotone(lote: Lote, secoes: seq<nat>, j: nat)
    requires PlainStore(lote.store) && j <= |secoes|
    ensures Run(lote, secoes[..j]).detalhes <= Run(lote, secoes).detalhes
    ensures Run(lote, secoes[..j]).calls <= Run(lote, secoes).calls
    decreases |secoes|
  {
    if j < |secoes| {
      var init := secoes[..|secoes| - 1];
      assert init[..j] == secoes[..j];
      RunMonotone(lote, init, j);
      assert Run(lote, secoes) == Step(lote, Run(lote, init), secoes[|secoes| - 1]);
      StepSpec(lote, Run(lote, init), secoes[|secoes| - 1]);
    } else {
      assert secoes[..j] == secoes;
    }
  }

  /** The `i`-th detail of a run is about the `i`-th row, as `Reported` says. */
  lemma RunReportedAt(lote: Lote, secoes: seq<nat>, i: nat)
    requires PlainStore(lote.store) && i < |secoes|
    ensures |Run(lote, secoes).detalhes| == |secoes|
    ensures Run(lote, secoes).detalhes[i].linha == secoes[i]
    ensures Reported(lote, Run(lote, secoes), secoes[i], i, CountPresent(lote.store, secoes[..i]))
  {
    RunShape(lote, secoes[..i]);
    RunShape(lote, secoes);
    RunPrefix(lote, secoes, i);
    RunMonotone(lote, secoes, i + 1);
    ReportedAfter(lote, Run(lote, secoes[..i]), Run(lote, secoes), secoes[i]);
  }

  /** Whatever run extends the step on row `n` reports that row at the
      step's position. */
  lemma ReportedAfter(lote: Lote, p0: Progress, p: Progress, n: nat)
    requires PlainStore(lote.store)
    requires Step(lote, p0, n).detalhes <= p.detalhes && Step(lote, p0, n).calls <= p.calls
    ensures |p0.detalhes| < |p.detalhes| && p.detalhes[|p0.detalhes|].linha == n
    ensures Reported(lote, p, n, |p0.detalhes|, |p0.calls|)
  {
    var q := Step(lote, p0, n);
    StepSpec(lote, p0, n);
    ReportedExtends(lote, q, p, n, |p0.detalhes|, |p0.calls|);
    assert p.detalhes[|p0.detalhes|] == q.detalhes[|p0.detalhes|];
  }

  /** One iteration appends one detail, about row `n`, keeps what was there,
      counts it once, and posts exactly when the row is present. */
  lemma StepSpec(lote: Lote, p: Progress, n: nat)
    requires PlainStore(lote.store)
    ensures var q := Step(lote, p, n);
            && |q.detalhes| == |p.detalhes| + 1 && p.detalhes <= q.detalhes
            && |q.calls| == |p.calls| + (if n in lote.store then 1 else 0) && p.calls <= q.calls
            && q.sucessos + q.erros == p.sucessos + p.erros + 1
            && q.sucessos == p.sucessos + (if q.detalhes[|p.detalhes|].sucesso then 1 else 0)
            && q.detalhes[|p.detalhes|].linha == n
            && Reported(lote, q, n, |p.detalhes|, |p.calls|)
  {
    var q := Step(lote, p, n);
    assert q.detalhes[..|p.detalhes|] == p.detalhes;
    assert q.calls[..|p.calls|] == p.calls;
  }

  /** The loop's state after `i + 1` rows is one step on from the state
      after `i`. */
  lemma RunPrefix(lote: Lote, secoes: seq<nat>, i: nat)
    requires PlainStore(lote.store) && i < |secoes|
    ensures Run(lote, secoes[..i + 1]) == Step(lote, Run(lote, secoes[..i]), secoes[i])
  {
    assert secoes[..i + 1][..i] == secoes[..i];
  }

  /** Each early exit reports a single failed detail, counts nothing as
      processed and posts nothing: a failed load (line 0), a store without
      rows (line 0), or an empty selection (line `inicio`). */
  lemma SequenciaEarlyExits(loaded: bool, lote: Lote, qtd: int, inicio: int, ignorar: bool)
    requires PlainStore(lote.store)
    ensures !loaded ==>
              (Sequencia(loaded, lote, qtd, inicio, ignorar)
               == Execucao(Resultado(0, 0, 1, [Detalhe(0, false, ErroCarregarTemp, None)]), []))
    ensures loaded && lote.store.Keys == {} ==>
              (Sequencia(loaded, lote, qtd, inicio, ignorar)
               == Execucao(Resultado(0, 0, 1, [Detalhe(0, false, SemLinhasValidas, None)]), []))
    ensures loaded && lote.store.Keys != {} && Selecionar(SortedSections(lote.store.Keys), qtd, inicio, ignorar) == [] ==>
              (Sequencia(loaded, lote, qtd, inicio, ignorar)
               == Execucao(Resultado(0, 0, 1, [Detalhe(inicio, false, PrefixoSemLinhaInicio + IntToString(inicio), None)]), []))
  {
    SortedSectionsSpec(lote.store.Keys);
  }

  lemma {:induction false} CountPresentAll(store: Store, xs: seq<nat>)
    requires forall x :: x in xs ==> x in store
    ensures CountPresent(store, xs) == |xs|
    decreases |xs|
  {
    if xs != [] {
      var init := xs[..|xs| - 1];
      forall x | x in init ensures x in store {
        assert x in xs;
      }
      CountPresentAll(store, init);
      assert xs[|xs| - 1] in xs;
    }
  }

  /** The main path of a run over a loaded store: the selected rows are all
      in the store, so the `i`-th detail is about the `i`-th selected row
      and reports the `i`-th POST, whose draft is that row's resolved title
      and description; `sucessos + erros == total_processados ==
      len(detalhes)`, and a failed POST is an error that does not stop the
      run. */
  lemma SequenciaMain(lote: Lote, qtd: int, inicio: int, ignorar: bool)
    requires PlainStore(lote.store)
    requires Selecionar(SortedSections(lote.store.Keys), qtd, inicio, ignorar) != []
    ensures var sel := Selecionar(SortedSections(lote.store.Keys), qtd, inicio, ignorar);
            var e := Sequencia(true, lote, qtd, inicio, ignorar);
            var r := e.resultado;
            && r.totalProcessados == |sel| == |r.detalhes| == |e.chamadas|
            && r.sucessos + r.erros == r.totalProcessados
            && r.sucessos == CountSucessos(r.detalhes)
            && (forall i :: 0 <= i < |sel| ==> sel[i] in lote.store)
            && forall i :: 0 <= i < |sel| ==>
                 var row := lote.store[sel[i]];
                 var api := CriarChamadoApi(lote.net(i, e.chamadas[i]));
                 && e.chamadas[i] == Draft(lote.email, Resolve(lote.titulo, row), Resolve(lote.descricao, row))
                 && r.detalhes[i] == Detalhe(sel[i], api.sucesso, api.mensagem, Some(e.chamadas[i].titulo))
  {
    var keys := lote.store.Keys;
    var sel := Selecionar(SortedSections(keys), qtd, inicio, ignorar);
    SelectionSound(keys, qtd, inicio, ignorar);
    SequenciaProceed(lote, qtd, inicio, ignorar);
    RunAllPresent(lote, sel);
  }

  /** With a non-empty selection the run goes through every selected row. */
  lemma SequenciaProceed(lote: Lote, qtd: int, inicio: int, ignorar: bool)
    requires PlainStore(lote.store)
    requires Selecionar(SortedSections(lote.store.Keys), qtd, inicio, ignorar) != []
    ensures var sel := Selecionar(SortedSections(lote.store.Keys), qtd, inicio, ignorar);
            var p := Run(lote, sel);
            Sequencia(true, lote, qtd, inicio, ignorar)
            == Execucao(Resultado(|sel|, p.sucessos, p.erros, p.detalhes), p.calls)
  {
    var keys := lote.store.Keys;
    var sel := Selecionar(SortedSections(keys), qtd, inicio, ignorar);
    SelectionSound(keys, qtd, inicio, ignorar);
    SortedSectionsSpec(keys);
    assert SortedSections(keys) != [] by {
      assert sel[0] in keys;
    }
  }

  /** A run over rows that are all stored posts once per row: the `i`-th
      POST is the `i`-th row's resolved draft and the `i`-th detail reports
      it. */
  lemma RunAllPresent(lote: Lote, sel: seq<nat>)
    requires PlainStore(lote.store)
    requires forall i :: 0 <= i < |sel| ==> sel[i] in lote.store
    ensures var p := Run(lote, sel);
            && |p.detalhes| == |p.calls| == |sel|
            && p.sucessos + p.erros == |sel|
            && p.sucessos == CountSucessos(p.detalhes)
            && forall i :: 0 <= i < |sel| ==>
                 var row := lote.store[sel[i]];
                 var api := CriarChamadoApi(lote.net(i, p.calls[i]));
                 && p.calls[i] == Draft(lote.email, Resolve(lote.titulo, row), Resolve(lote.descricao, row))
                 && p.detalhes[i] == Detalhe(sel[i], api.sucesso, api.mensagem, Some(p.calls[i].titulo))
  {
    RunSpec(lote, sel);
    forall x | x in sel ensures x in lote.store { }
    CountPresentAll(lote.store, sel);
    forall i | 0 <= i < |sel| ensures CountPresent(lote.store, sel[..i]) == i {
      forall x | x in sel[..i] ensures x in lote.store {
        assert x in sel;
      }
      CountPresentAll(lote.store, sel[..i]);
    }
  }

  // ---------------------------------------------------------------------------
  // The orchestrator object

  class AbrirChamados {
    const emailUsuario: string
    /** The shared `PATH_TO_TEMP` file. */
    const temp: TempFile
    /** `self.config_planilha`. */
    var configPlanilha: Store

    constructor(emailUsuario: string, temp: TempFile)
      ensures this.emailUsuario == emailUsuario && this.temp == temp
      ensures configPlanilha == map[]
    {
      this.emailUsuario := emailUsuario;
      this.temp := temp;
      configPlanilha := map[];
    }

    /** `carregar_dados_temp`: read the temp file into the parser; true iff
        the file exists and the parser then holds at least one section. */
    method CarregarDadosTemp() returns (ok: bool)
      modifies this
      ensures configPlanilha == if temp.present then Merge(old(configPlanilha), temp.store) else old(configPlanilha)
      ensures ok <==> temp.present && configPlanilha != map[]
    {
      if !temp.present {
        return false;
      }
      configPlanilha := Merge(configPlanilha, temp.store);
      if configPlanilha == map[] {
        return false;
      }
      return true;
    }

    /** `substituir_placeholders` on section `n`. */
    method SubstituirPlaceholders(texto: string, n: nat) returns (r: string)
      requires PlainStore(configPlanilha)
      ensures r == Resolve(texto, RowOf(configPlanilha, n))
    {
      if texto == "" {
        return texto;
      }
      var row := RowOf(configPlanilha, n);
      var placeholders := FindTokens(Upper(texto));
      var processado := texto;
      var i := 0;
      while i < |placeholders|
        invariant 0 <= i <= |placeholders|
        invariant ApplyTokens(processado, placeholders[i..], row) == ApplyTokens(texto, placeholders, row)
      {
        var letra := placeholders[i];
        var chave := Lower(letra);
        assert placeholders[i..][1..] == placeholders[i + 1..];
        if chave in row {
          processado := ReplaceAll(processado, Token(letra), row[chave]);
        }
        i := i + 1;
      }
      r := processado;
    }

    /** `processar_chamado` on section `n`. */
    method ProcessarChamado(titulo: string, descricao: string, n: nat) returns (p: Processado)
      requires PlainStore(configPlanilha)
      ensures p == Processar(configPlanilha, titulo, descricao, n)
    {
      if n !in configPlanilha {
        return Processado(titulo, descricao, Some("Linha " + NatToString(n) + " não encontrada"));
      }
      var t := SubstituirPlaceholders(titulo, n);
      var d := SubstituirPlaceholders(descricao, n);
      p := Processado(t, d, None);
    }

    /** `abrir_chamados_sequencia`, with `net` standing for the ticket
        endpoint. `calls` are the drafts posted, in order. */
    method AbrirChamadosSequencia(titulo: string, descricao: string, qtd: int, inicio: int, ignorar: bool,
                                  net: (nat, Draft) -> PostOutcome)
      returns (res: Resultado, calls: seq<Draft>)
      requires PlainStore(configPlanilha) && PlainStore(temp.store)
      modifies this
      ensures configPlanilha == if temp.present then Merge(old(configPlanilha), temp.store) else old(configPlanilha)
      ensures PlainStore(configPlanilha)
      ensures Execucao(res, calls)
           == Sequencia(temp.present && configPlanilha != map[], Lote(configPlanilha, emailUsuario, titulo, descricao, net), qtd, inicio, ignorar)
    {
      MergePlain(configPlanilha, temp.store);
      var ok := CarregarDadosTemp();
      var lote := Lote(configPlanilha, emailUsuario, titulo, descricao, net);
      match Planejar(ok, configPlanilha, qtd, inicio, ignorar)
      case Exit(d) =>
        res := Resultado(0, 0, 1, [d]);
        calls := [];
      case Proceed(sel) =>
        var sucessos := 0;
        var erros := 0;
        var detalhes := [];
        calls := [];
        for i := 0 to |sel|
          invariant configPlanilha == lote.store && PlainStore(configPlanilha)
          invariant Progress(sucessos, erros, detalhes, calls) == Run(lote, sel[..i])
        {
          var n := sel[i];
          RunPrefix(lote, sel, i);
          var r := ProcessarChamado(titulo, descricao, n);
          if r.erro.Some? {
            erros := erros + 1;
            detalhes := detalhes + [Detalhe(n, false, r.erro.value, None)];
          } else {
            var d := Draft(emailUsuario, r.titulo, r.descricao);
            var api := CriarChamadoApi(net(|calls|, d));
            calls := calls + [d];
            if api.sucesso {
              sucessos := sucessos + 1;
              detalhes := detalhes + [Detalhe(n, true, api.mensagem, Some(r.titulo))];
            } else {
              erros := erros + 1;
              detalhes := detalhes + [Detalhe(n, false, api.mensagem, Some(r.titulo))];
            }
          }
        }
        assert sel[..|sel|] == sel;
        res := Resultado(|sel|, sucessos, erros, detalhes);
    }
  }
}
