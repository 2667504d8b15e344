/**
 * The Projetos/OS page: service orders (OS), the form that creates them, the
 * stage-event step that records a timeline entry and may advance the stage,
 * and the page state (`ordens`, `open`, `selecionada`) those handlers update.
 */
module Projetos {
  import opened Wrappers
  import opened Seqs
  import opened Etapas

  /** `prioridades`: the priority levels an OS may have. */
  datatype Prioridade = Baixa | Media | Alta

  function NomePrioridade(p: Prioridade): string
  {
    match p
    case Baixa => "Baixa"
    case Media => "Média"
    case Alta => "Alta"
  }

  /** No two priorities share a name. */
  lemma NomesPrioridadeDistintos()
    ensures forall p1: Prioridade, p2: Prioridade :: NomePrioridade(p1) == NomePrioridade(p2) ==> p1 == p2
  {
  }

  /** `z.enum(prioridades)`: the priority with the submitted name, if any. */
  function PrioridadeDeNome(s: string): (r: Option<Prioridade>)
    ensures r.Some? ==> NomePrioridade(r.value) == s
    ensures r.None? ==> forall p: Prioridade :: NomePrioridade(p) != s
  {
    if s == "Baixa" then Some(Baixa)
    else if s == "Média" then Some(Media)
    else if s == "Alta" then Some(Alta)
    else None
  }

  /** What the OS form submits, before `osSchema` checks it. */
  datatype OSEntrada = OSEntrada(
    cliente: string,
    nomeProjeto: string,
    objetivoInicial: string,
    prioridade: string,
    dataAbertura: string,
    responsavel: string,
    status: string)

  /** `OSForm`: a submission that `osSchema` accepted. */
  datatype OSForm = OSForm(
    cliente: string,
    nomeProjeto: string,
    objetivoInicial: string,
    prioridade: Prioridade,
    dataAbertura: string,
    responsavel: string,
    status: Etapa)

  /** The fields of `osSchema`, naming where a submission was refused. */
  datatype CampoOS =
    | CampoCliente
    | CampoNomeProjeto
    | CampoObjetivoInicial
    | CampoPrioridade
    | CampoDataAbertura
    | CampoResponsavel
    | CampoStatus

  /** The fields of `osSchema`, in schema order. */
  const CamposOS: seq<CampoOS> := [
    CampoCliente, CampoNomeProjeto, CampoObjetivoInicial, CampoPrioridade,
    CampoDataAbertura, CampoResponsavel, CampoStatus
  ]

  /** The rule `osSchema` applies to one field. */
  predicate CampoOSValido(f: OSEntrada, c: CampoOS)
  {
    match c
    case CampoCliente => f.cliente != ""
    case CampoNomeProjeto => f.nomeProjeto != ""
    case CampoObjetivoInicial => f.objetivoInicial != ""
    case CampoPrioridade => PrioridadeDeNome(f.prioridade).Some?
    case CampoDataAbertura => f.dataAbertura != ""
    case CampoResponsavel => f.responsavel != ""
    case CampoStatus => EtapaDeNome(f.status).Some?
  }

  /** Every field is listed in `CamposOS`. */
  lemma CamposOSCompletos(c: CampoOS)
    ensures c in CamposOS
  {
    match c
    case CampoCliente => assert CamposOS[0] == c;
    case CampoNomeProjeto => assert CamposOS[1] == c;
    case CampoObjetivoInicial => assert CamposOS[2] == c;
    case CampoPrioridade => assert CamposOS[3] == c;
    case CampoDataAbertura => assert CamposOS[4] == c;
    case CampoResponsavel => assert CamposOS[5] == c;
    case CampoStatus => assert CamposOS[6] == c;
  }

  /** The fields of `f` that `osSchema` refuses, each once, in schema order. */
  function ErrosOS(f: OSEntrada): (erros: seq<CampoOS>)
    ensures forall c :: c in erros <==> !CampoOSValido(f, c)
    ensures IsSubsequence(erros, CamposOS)
  {
    assert forall c: CampoOS :: c in CamposOS by {
      forall c: CampoOS { CamposOSCompletos(c); }
    }
    Filter(CamposOS, (c: CampoOS) => !CampoOSValido(f, c))
  }

  /** Every field rule holds exactly when the whole of `osSchema` does. */
  lemma CamposOSValidos(f: OSEntrada)
    ensures (forall c :: CampoOSValido(f, c)) <==>
              && f.cliente != "" && f.nomeProjeto != "" && f.objetivoInicial != ""
              && f.dataAbertura != "" && f.responsavel != ""
              && (exists p: Prioridade :: NomePrioridade(p) == f.prioridade)
              && (exists e: Etapa :: Nome(e) == f.status)
  {
    var p := PrioridadeDeNome(f.prioridade);
    var e := EtapaDeNome(f.status);
    if p.Some? { assert NomePrioridade(p.value) == f.prioridade; }
    if e.Some? { assert Nome(e.value) == f.status; }
    if !(forall c :: CampoOSValido(f, c)) {
      var c :| !CampoOSValido(f, c);
      match c
      case CampoCliente =>
      case CampoNomeProjeto =>
      case CampoObjetivoInicial =>
      case CampoPrioridade =>
      case CampoDataAbertura =>
      case CampoResponsavel =>
      case CampoStatus =>
    } else {
      assert CampoOSValido(f, CampoCliente) && CampoOSValido(f, CampoNomeProjeto);
      assert CampoOSValido(f, CampoObjetivoInicial) && CampoOSValido(f, CampoPrioridade);
      assert CampoOSValido(f, CampoDataAbertura) && CampoOSValido(f, CampoResponsavel);
      assert CampoOSValido(f, CampoStatus);
    }
  }

  /**
   * `zodResolver(osSchema)`: a submission is accepted exactly when every text
   * field is non-empty and the priority and status name catalogue members;
   * the accepted form carries the submitted values.
   */
  function ValidarOS(f: OSEntrada): (r: Result<OSForm, seq<CampoOS>>)
    ensures r.Ok? <==>
              && f.cliente != "" && f.nomeProjeto != "" && f.objetivoInicial != ""
              && f.dataAbertura != "" && f.responsavel != ""
              && (exists p: Prioridade :: NomePrioridade(p) == f.prioridade)
              && (exists e: Etapa :: Nome(e) == f.status)
    ensures r.Ok? ==>
              && r.value.cliente == f.cliente && r.value.nomeProjeto == f.nomeProjeto
              && r.value.objetivoInicial == f.objetivoInicial
              && NomePrioridade(r.value.prioridade) == f.prioridade
              && r.value.dataAbertura == f.dataAbertura && r.value.responsavel == f.responsavel
              && Nome(r.value.status) == f.status
    ensures r.Err? ==> r.error == ErrosOS(f) && r.error != []
  {
    var erros := ErrosOS(f);
    CamposOSValidos(f);
    if erros != [] then
      assert !CampoOSValido(f, erros[0]);
      Err(erros)
    else
      assert CampoOSValido(f, CampoPrioridade) && CampoOSValido(f, CampoStatus);
      Ok(OSForm(f.cliente, f.nomeProjeto, f.objetivoInicial, PrioridadeDeNome(f.prioridade).value,
                f.dataAbertura, f.responsavel, EtapaDeNome(f.status).value))
  }

  /** What `osSchema` guarantees of an accepted form: its five text fields are filled in. */
  predicate OSFormValido(d: OSForm)
  {
    && d.cliente != "" && d.nomeProjeto != "" && d.objetivoInicial != ""
    && d.dataAbertura != "" && d.responsavel != ""
  }

  /** The submission that shows an accepted form, with priority and status by name. */
  function EntradaDe(d: OSForm): OSEntrada
  {
    OSEntrada(d.cliente, d.nomeProjeto, d.objetivoInicial, NomePrioridade(d.prioridade),
              d.dataAbertura, d.responsavel, Nome(d.status))
  }

  /** Every form `osSchema` accepts meets `OSFormValido`. */
  lemma ValidarOSAceitaValidos(f: OSEntrada)
    ensures ValidarOS(f).Ok? ==> OSFormValido(ValidarOS(f).value)
  {
  }

  /** A form meeting `OSFormValido`, submitted by name, is accepted as itself. */
  lemma ValidarOSRecuperaFormulario(d: OSForm)
    requires OSFormValido(d)
    ensures ValidarOS(EntradaDe(d)) == Ok(d)
  {
    var f := EntradaDe(d);
    assert NomePrioridade(d.prioridade) == f.prioridade;
    assert Nome(d.status) == f.status;
    var r := ValidarOS(f);
    assert r.Ok?;
    NomesPrioridadeDistintos();
    NomesDistintos();
    assert r.value.prioridade == d.prioridade;
    assert r.value.status == d.status;
  }

  /** The form's `defaultValues`, with `hoje` the current date. */
  function EntradaPadrao(hoje: string): OSEntrada
  {
    OSEntrada("", "", "", "Média", hoje, "", "Preparação")
  }

  /**
   * With the defaults, a new OS starts in "Preparação" with priority "Média"
   * once the text fields are filled in.
   */
  lemma EntradaPadraoComecaEmPreparacao(hoje: string, cliente: string, nome: string,
                                        objetivo: string, responsavel: string)
    requires hoje != "" && cliente != "" && nome != "" && objetivo != "" && responsavel != ""
    ensures var f := EntradaPadrao(hoje).(cliente := cliente, nomeProjeto := nome,
                                          objetivoInicial := objetivo, responsavel := responsavel);
            ValidarOS(f).Ok? && ValidarOS(f).value.status == Preparacao &&
            ValidarOS(f).value.prioridade == Media
  {
    var d := OSForm(cliente, nome, objetivo, Media, hoje, responsavel, Preparacao);
    ValidarOSRecuperaFormulario(d);
  }

  /** One timeline event: the stage it was recorded in, when, and the note. */
  datatype Entrada = Entrada(etapa: Etapa, data: string, descricao: string)

  /** An OS: the accepted form, its id and its timeline. */
  datatype OS = OS(
    id: int,
    cliente: string,
    nomeProjeto: string,
    objetivoInicial: string,
    prioridade: Prioridade,
    dataAbertura: string,
    responsavel: string,
    status: Etapa,
    timeline: seq<Entrada>)

  /** The form part of an OS. */
  function Dados(os: OS): OSForm
  {
    OSForm(os.cliente, os.nomeProjeto, os.objetivoInicial, os.prioridade,
           os.dataAbertura, os.responsavel, os.status)
  }

  const DescricaoCriacao := "OS criada"

  /**
   * The OS that `onSubmit` builds: the form under id `id`, with a timeline of
   * one "OS criada" entry tagged with the submitted status.
   */
  function NovaOS(data: OSForm, id: int, agora: string): (os: OS)
    ensures os.id == id && Dados(os) == data
    ensures os.timeline == [Entrada(data.status, agora, DescricaoCriacao)]
  {
    OS(id, data.cliente, data.nomeProjeto, data.objetivoInicial, data.prioridade,
       data.dataAbertura, data.responsavel, data.status,
       [Entrada(data.status, agora, DescricaoCriacao)])
  }

  /** The stages of a timeline never go backward in the catalogue. */
  predicate TimelineEmOrdem(t: seq<Entrada>)
  {
    forall i, j :: 0 <= i <= j < |t| ==> Posicao(t[i].etapa) <= Posicao(t[j].etapa)
  }

  /**
   * What every OS on the page satisfies: its timeline opens with the creation
   * entry, only moves forward through the stages, and has not got ahead of
   * the current status.
   */
  predicate OSConsistente(os: OS)
  {
    && |os.timeline| >= 1
    && os.timeline[0].descricao == DescricaoCriacao
    && TimelineEmOrdem(os.timeline)
    && Posicao(os.timeline[|os.timeline| - 1].etapa) <= Posicao(os.status)
  }

  /** Every OS of the list is consistent. */
  predicate TodasConsistentes(ordens: seq<OS>)
  {
    forall os :: os in ordens ==> OSConsistente(os)
  }

  /** Every OS of the list carries a form `osSchema` accepts. */
  predicate FormulariosValidos(ordens: seq<OS>)
  {
    forall os :: os in ordens ==> OSFormValido(Dados(os))
  }

  lemma NovaOSConsistente(data: OSForm, id: int, agora: string)
    ensures OSConsistente(NovaOS(data, id, agora))
  {
  }

  /** `data.descricao || ""`: the note, or the empty string when none is given. */
  function DescricaoOuVazia(descricao: Option<string>): string
  {
    descricao.GetOr("")
  }

  /**
   * The OS that `onSubmitEtapa` builds from `os`: one entry appended to the
   * timeline, tagged with the stage before the call; the status moves to the
   * next stage only when `concluir` holds; nothing else changes.
   */
  function RegistrarEtapa(os: OS, descricao: Option<string>, concluir: bool, agora: string): (r: OS)
    ensures r.id == os.id && Dados(r).(status := os.status) == Dados(os)
    ensures |r.timeline| == |os.timeline| + 1 && os.timeline <= r.timeline
    ensures r.timeline[|os.timeline|] == Entrada(os.status, agora, DescricaoOuVazia(descricao))
    ensures r.status == if concluir then ProximaEtapa(os.status) else os.status
  {
    var atual := os.status;
    var novaEtapa := if concluir then ProximaEtapa(atual) else atual;
    os.(status := novaEtapa,
        timeline := os.timeline + [Entrada(atual, agora, DescricaoOuVazia(descricao))])
  }

  /**
   * A stage event moves the status forward by exactly one stage when
   * `concluir` holds and the stage is not the last, and otherwise keeps it.
   */
  lemma RegistrarEtapaAvanca(os: OS, descricao: Option<string>, concluir: bool, agora: string)
    ensures var r := RegistrarEtapa(os, descricao, concluir, agora);
            Posicao(r.status) ==
              if concluir && Posicao(os.status) < Ultima then Posicao(os.status) + 1
              else Posicao(os.status)
  {
    ProximaEtapaAvanca(os.status);
  }

  /** A stage event keeps an OS consistent. */
  lemma RegistrarEtapaPreservaConsistencia(os: OS, descricao: Option<string>, concluir: bool, agora: string)
    requires OSConsistente(os)
    ensures OSConsistente(RegistrarEtapa(os, descricao, concluir, agora))
  {
    var r := RegistrarEtapa(os, descricao, concluir, agora);
    RegistrarEtapaAvanca(os, descricao, concluir, agora);
    RegistrarEtapaMantemOrdem(os.timeline, r.timeline[|os.timeline|]);
    assert r.timeline == os.timeline + [r.timeline[|os.timeline|]];
  }

  /** Appending an entry no earlier than the last keeps a timeline in order. */
  lemma RegistrarEtapaMantemOrdem(t: seq<Entrada>, nova: Entrada)
    requires |t| >= 1 && TimelineEmOrdem(t)
    requires Posicao(t[|t| - 1].etapa) <= Posicao(nova.etapa)
    ensures TimelineEmOrdem(t + [nova])
  {
    var t' := t + [nova];
    forall i, j | 0 <= i <= j < |t'|
      ensures Posicao(t'[i].etapa) <= Posicao(t'[j].etapa)
    {
      if j == |t| && i < |t| {
        assert Posicao(t[i].etapa) <= Posicao(t[|t| - 1].etapa);
      }
    }
  }

  /**
   * Two events without `concluir` add two entries tagged with the same stage
   * and leave the status where it was.
   */
  lemma DuasNotasMesmaEtapa(os: OS, d1: Option<string>, t1: string, d2: Option<string>, t2: string)
    ensures var r := RegistrarEtapa(RegistrarEtapa(os, d1, false, t1), d2, false, t2);
            && r.status == os.status
            && r.timeline == os.timeline + [Entrada(os.status, t1, DescricaoOuVazia(d1)),
                                            Entrada(os.status, t2, DescricaoOuVazia(d2))]
  {
    var r1 := RegistrarEtapa(os, d1, false, t1);
    var r := RegistrarEtapa(r1, d2, false, t2);
    assert r1.timeline == os.timeline + [Entrada(os.status, t1, DescricaoOuVazia(d1))];
    assert r.timeline == r1.timeline + [Entrada(os.status, t2, DescricaoOuVazia(d2))];
  }

  /** Concluding the terminal stage keeps the status but still records the event. */
  lemma ConcluirNaEtapaFinal(os: OS, descricao: Option<string>, agora: string)
    requires os.status == ConcluidaArquivada
    ensures var r := RegistrarEtapa(os, descricao, true, agora);
            r.status == ConcluidaArquivada && |r.timeline| == |os.timeline| + 1
  {
    ProximaEtapaTerminal();
  }

  /** The key OSs are stored under. */
  function IdOS(os: OS): int
  {
    os.id
  }

  /** The ids of a list of OSs, in order. */
  function Ids(ordens: seq<OS>): (ids: seq<int>)
    ensures |ids| == |ordens|
    ensures forall i :: 0 <= i < |ordens| ==> ids[i] == ordens[i].id
  {
    Map(ordens, IdOS)
  }

  /** No id is shared by two OSs. */
  predicate IdsUnicos(ordens: seq<OS>)
  {
    KeysUnique(ordens, IdOS)
  }

  /**
   * `prev.map((o) => (o.id === id ? atualizada : o))`: every OS with that id
   * is replaced, every other one is kept where it is.
   */
  function SubstituirPorId(ordens: seq<OS>, id: int, atualizada: OS): (r: seq<OS>)
    ensures |r| == |ordens|
    ensures forall i :: 0 <= i < |r| ==> r[i] == if ordens[i].id == id then atualizada else ordens[i]
  {
    Map(ordens, (o: OS) => if o.id == id then atualizada else o)
  }

  /**
   * With unique ids, replacing by the id of the OS at `k` changes position `k`
   * only, and the ids stay unique.
   */
  lemma SubstituiSoASelecionada(ordens: seq<OS>, k: int, atualizada: OS)
    requires IdsUnicos(ordens) && 0 <= k < |ordens| && atualizada.id == ordens[k].id
    ensures SubstituirPorId(ordens, ordens[k].id, atualizada) == ordens[k := atualizada]
    ensures IdsUnicos(ordens[k := atualizada])
  {
    var r := SubstituirPorId(ordens, ordens[k].id, atualizada);
    var e := ordens[k := atualizada];
    forall i | 0 <= i < |ordens| && i != k ensures ordens[i].id != ordens[k].id {
      KeysUniqueAt(ordens, IdOS, i, k);
    }
    assert r == e;
    forall i, j | 0 <= i < j < |e| ensures KeysDifferAt(e, IdOS, i, j) {
      KeysUniqueAt(ordens, IdOS, i, j);
    }
  }

  /** Position by position, each timeline of `depois` extends the one of `antes`. */
  predicate NenhumaTimelineEncurtada(antes: seq<OS>, depois: seq<OS>)
  {
    && |antes| == |depois|
    && forall i :: 0 <= i < |depois| ==> antes[i].timeline <= depois[i].timeline
  }

  /**
   * Replacing the OS at `k` by a consistent OS with the same id and a longer
   * timeline keeps every OS consistent and every id in place, puts the new OS
   * in the list and, with unique ids, shortens no timeline.
   */
  lemma SubstituirSelecionada(ordens: seq<OS>, k: int, atualizada: OS)
    requires 0 <= k < |ordens| && atualizada.id == ordens[k].id
    requires TodasConsistentes(ordens)
    requires OSConsistente(atualizada) && ordens[k].timeline <= atualizada.timeline
    ensures var r := SubstituirPorId(ordens, ordens[k].id, atualizada);
            && atualizada in r
            && TodasConsistentes(r)
            && Ids(r) == Ids(ordens)
            && (IdsUnicos(ordens) ==>
                  && IdsUnicos(r)
                  && NenhumaTimelineEncurtada(ordens, r))
  {
    var r := SubstituirPorId(ordens, ordens[k].id, atualizada);
    assert r[k] == atualizada;
    assert Ids(r) == Ids(ordens);
    if IdsUnicos(ordens) {
      SubstituiSoASelecionada(ordens, k, atualizada);
    }
  }

  /**
   * Recording a stage event on an OS of a consistent list and writing the
   * result back by id keeps the list consistent, puts the result in it and
   * keeps the ids; with unique ids, no timeline loses an entry.
   */
  lemma RegistrarNaLista(ordens: seq<OS>, sel: OS, descricao: Option<string>, concluir: bool, agora: string)
    requires sel in ordens && TodasConsistentes(ordens)
    ensures var atualizada := RegistrarEtapa(sel, descricao, concluir, agora);
            var r := SubstituirPorId(ordens, sel.id, atualizada);
            && atualizada in r
            && TodasConsistentes(r)
            && Ids(r) == Ids(ordens)
            && (IdsUnicos(ordens) ==>
                  && IdsUnicos(r)
                  && NenhumaTimelineEncurtada(ordens, r))
  {
    var atualizada := RegistrarEtapa(sel, descricao, concluir, agora);
    RegistrarEtapaPreservaConsistencia(sel, descricao, concluir, agora);
    var k :| 0 <= k < |ordens| && ordens[k] == sel;
    SubstituirSelecionada(ordens, k, atualizada);
  }

  /**
   * A stage event leaves the form part of an OS accepted, and writing its
   * result back by id leaves every OS of the list with an accepted form.
   */
  /** What the page keeps true of its list and its selection. */
  predicate EstadoValido(ordens: seq<OS>, selecionada: Option<OS>)
  {
    && FormulariosValidos(ordens)
    && TodasConsistentes(ordens)
    && (selecionada.Some? ==> selecionada.value in ordens)
  }

  /** Both list lemmas at once, for the list that replaces the state's. */
  lemma RegistrarNaListaValida(ordens: seq<OS>, sel: OS, atualizada: OS, nova: seq<OS>,
                               descricao: Option<string>, concluir: bool, agora: string)
    requires sel in ordens && FormulariosValidos(ordens) && TodasConsistentes(ordens)
    requires atualizada == RegistrarEtapa(sel, descricao, concluir, agora)
    requires nova == SubstituirPorId(ordens, sel.id, atualizada)
    ensures EstadoValido(nova, Some(atualizada))
    ensures Ids(nova) == Ids(ordens)
  {
    RegistrarNaLista(ordens, sel, descricao, concluir, agora);
    RegistrarNaListaMantemFormularios(ordens, sel, descricao, concluir, agora);
  }

  /** With unique ids, the list that replaces the state's keeps them unique and no timeline shorter. */
  lemma RegistrarNaListaUnica(ordens: seq<OS>, sel: OS, atualizada: OS, nova: seq<OS>,
                              descricao: Option<string>, concluir: bool, agora: string)
    requires sel in ordens && TodasConsistentes(ordens) && IdsUnicos(ordens)
    requires atualizada == RegistrarEtapa(sel, descricao, concluir, agora)
    requires nova == SubstituirPorId(ordens, sel.id, atualizada)
    ensures IdsUnicos(nova) && NenhumaTimelineEncurtada(ordens, nova)
  {
    RegistrarNaLista(ordens, sel, descricao, concluir, agora);
  }

  lemma RegistrarNaListaMantemFormularios(ordens: seq<OS>, sel: OS, descricao: Option<string>,
                                          concluir: bool, agora: string)
    requires sel in ordens && FormulariosValidos(ordens)
    ensures var atualizada := RegistrarEtapa(sel, descricao, concluir, agora);
            && OSFormValido(Dados(atualizada))
            && FormulariosValidos(SubstituirPorId(ordens, sel.id, atualizada))
  {
    var atualizada := RegistrarEtapa(sel, descricao, concluir, agora);
    assert Dados(atualizada).(status := sel.status) == Dados(sel);
    var r := SubstituirPorId(ordens, sel.id, atualizada);
    forall os | os in r ensures OSFormValido(Dados(os)) {
      var i :| 0 <= i < |r| && r[i] == os;
      assert ordens[i] in ordens;
    }
  }

  /** The state of the Projetos/OS page. */
  class EstadoProjetos {
    var ordens: seq<OS>
    var open: bool
    var selecionada: Option<OS>

    /**
     * Every OS carries a form `osSchema` accepted and is consistent, and the
     * selected OS is one of them.
     */
    ghost predicate Valid()
      reads this
    {
      EstadoValido(ordens, selecionada)
    }

    /** The page mounts with no OS, the dialog closed and nothing selected. */
    constructor ()
      ensures Valid()
      ensures ordens == [] && !open && selecionada == None
    {
      ordens := [];
      open := false;
      selecionada := None;
    }

    /** `setOpen`, called by the dialog as it opens or closes. */
    method SetOpen(aberto: bool)
      requires Valid()
      modifies this
      ensures Valid()
      ensures open == aberto && ordens == old(ordens) && selecionada == old(selecionada)
    {
      open := aberto;
    }

    /**
     * `onSubmit`: appends the new OS at the end and closes the dialog; the
     * OSs already there are untouched, and a fresh id keeps ids unique.
     */
    method OnSubmit(data: OSForm, id: int, agora: string)
      requires Valid() && OSFormValido(data)
      modifies this
      ensures Valid()
      ensures ordens == old(ordens) + [NovaOS(data, id, agora)]
      ensures !open && selecionada == old(selecionada)
      ensures IdsUnicos(old(ordens)) && id !in Ids(old(ordens)) ==> IdsUnicos(ordens)
    {
      var nova := NovaOS(data, id, agora);
      NovaOSConsistente(data, id, agora);
      if IdsUnicos(ordens) && id !in Ids(ordens) {
        AppendFreshKey(ordens, nova, IdOS);
      }
      ordens := ordens + [nova];
      open := false;
    }

    /** "Acompanhar": selects an OS of the list. */
    method Acompanhar(os: OS)
      requires Valid() && os in ordens
      modifies this
      ensures Valid()
      ensures selecionada == Some(os) && ordens == old(ordens) && open == old(open)
    {
      selecionada := Some(os);
    }

    /** "Fechar": clears the selection. */
    method Fechar()
      requires Valid()
      modifies this
      ensures Valid()
      ensures selecionada == None && ordens == old(ordens) && open == old(open)
    {
      selecionada := None;
    }

    /**
     * `onSubmitEtapa`: with nothing selected, nothing changes. Otherwise the
     * selected OS gets one timeline entry tagged with its stage before the
     * call and, when `concluir` holds, moves to the next stage; every OS with
     * its id is replaced by the result, which becomes the selection. Ids are
     * kept; when they are unique, only the selected OS changes, so no
     * timeline loses an entry.
     */
    method OnSubmitEtapa(descricao: Option<string>, concluir: bool, agora: string)
      requires Valid()
      modifies this
      ensures Valid()
      ensures open == old(open)
      ensures old(selecionada).None? ==> ordens == old(ordens) && selecionada == None
      ensures old(selecionada).Some? ==>
                var atualizada := RegistrarEtapa(old(selecionada).value, descricao, concluir, agora);
                && ordens == SubstituirPorId(old(ordens), atualizada.id, atualizada)
                && selecionada == Some(atualizada)
      ensures Ids(ordens) == Ids(old(ordens))
      ensures IdsUnicos(old(ordens)) ==>
                && IdsUnicos(ordens)
                && NenhumaTimelineEncurtada(old(ordens), ordens)
    {
      if selecionada.Some? {
        var sel := selecionada.value;
        var atualizada := RegistrarEtapa(sel, descricao, concluir, agora);
        var nova := SubstituirPorId(ordens, sel.id, atualizada);
        RegistrarNaListaValida(ordens, sel, atualizada, nova, descricao, concluir, agora);
        if IdsUnicos(ordens) {
          RegistrarNaListaUnica(ordens, sel, atualizada, nova, descricao, concluir, agora);
        }
        ordens, selecionada := nova, Some(atualizada);
      }
    }
  }
}
