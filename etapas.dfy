/**
 * The fixed, ordered catalogue of service-order (OS) stages and the bounded
 * successor `proximaEtapa` of the Projetos/OS page.
 *
 * The source's `StatusOS` is the union of the seven stage names; here it is
 * an enumeration, with `Nome` giving each stage its name and `EtapaDeNome`
 * reading a name back, as the form's `z.enum(statusEtapas)` does.
 */
module Etapas {
  import opened Wrappers
  import opened Seqs

  datatype Etapa =
    | Preparacao
    | EntrevistaInicial
    | MapeamentoRapido
    | RelatorioDeAchados
    | PropostaDeContinuidade
    | ExecucaoAcompanhamento
    | ConcluidaArquivada

  /** `statusEtapas`: the delivery stages, in order. */
  const StatusEtapas: seq<Etapa> := [
    Preparacao,
    EntrevistaInicial,
    MapeamentoRapido,
    RelatorioDeAchados,
    PropostaDeContinuidade,
    ExecucaoAcompanhamento,
    ConcluidaArquivada
  ]

  /** Position of the terminal stage, "Concluída/Arquivada". */
  const Ultima: nat := 6

  /** The name under which a stage is shown and submitted. */
  function Nome(e: Etapa): string
  {
    match e
    case Preparacao => "Preparação"
    case EntrevistaInicial => "Entrevista Inicial"
    case MapeamentoRapido => "Mapeamento Rápido"
    case RelatorioDeAchados => "Relatório de Achados"
    case PropostaDeContinuidade => "Proposta de Continuidade"
    case ExecucaoAcompanhamento => "Execução/Acompanhamento"
    case ConcluidaArquivada => "Concluída/Arquivada"
  }

  /** The stage names in catalogue order. */
  function Nomes(): (ns: seq<string>)
    ensures |ns| == |StatusEtapas|
    ensures forall i :: 0 <= i < |ns| ==> ns[i] == Nome(StatusEtapas[i])
  {
    Map(StatusEtapas, Nome)
  }

  /**
   * `z.enum(statusEtapas)`: the stage with the submitted name, or `None` for a
   * string that names no stage.
   */
  function EtapaDeNome(s: string): (r: Option<Etapa>)
    ensures r.Some? ==> Nome(r.value) == s
    ensures r.None? ==> forall e: Etapa :: Nome(e) != s
  {
    var i := IndexOf(Nomes(), s);
    if i < 0 then None else Some(StatusEtapas[i])
  }

  /** Every stage is listed in the catalogue. */
  lemma CatalogoCompleto(e: Etapa)
    ensures e in StatusEtapas
  {
    match e
    case Preparacao => assert StatusEtapas[0] == e;
    case EntrevistaInicial => assert StatusEtapas[1] == e;
    case MapeamentoRapido => assert StatusEtapas[2] == e;
    case RelatorioDeAchados => assert StatusEtapas[3] == e;
    case PropostaDeContinuidade => assert StatusEtapas[4] == e;
    case ExecucaoAcompanhamento => assert StatusEtapas[5] == e;
    case ConcluidaArquivada => assert StatusEtapas[6] == e;
  }

  /**
   * Position of a stage in the catalogue; `PosicaoEIndexOf` shows it is what
   * `statusEtapas.indexOf` returns.
   */
  function Posicao(e: Etapa): (i: int)
    ensures 0 <= i < |StatusEtapas| && StatusEtapas[i] == e
  {
    match e
    case Preparacao => 0
    case EntrevistaInicial => 1
    case MapeamentoRapido => 2
    case RelatorioDeAchados => 3
    case PropostaDeContinuidade => 4
    case ExecucaoAcompanhamento => 5
    case ConcluidaArquivada => 6
  }

  /** The catalogue lists no stage twice. */
  lemma CatalogoSemRepeticao()
    ensures forall i, j :: 0 <= i < j < |StatusEtapas| ==> StatusEtapas[i] != StatusEtapas[j]
  {
  }

  /** `statusEtapas.indexOf(e)` finds every stage, at its position. */
  lemma PosicaoEIndexOf(e: Etapa)
    ensures IndexOf(StatusEtapas, e) == Posicao(e)
  {
    CatalogoCompleto(e);
    CatalogoSemRepeticao();
  }

  /** `proximaEtapa`: the stage after `e`; the last stage maps to itself. */
  function ProximaEtapa(e: Etapa): (r: Etapa)
  {
    var idx := Posicao(e);
    if idx + 1 < |StatusEtapas| then StatusEtapas[idx + 1] else e
  }

  /** `proximaEtapa` applied `n` times: never behind `e`, never more than `n` stages ahead. */
  function Avancar(n: nat, e: Etapa): (r: Etapa)
  {
    if n == 0 then e else Avancar(n - 1, ProximaEtapa(e))
  }

  /** Every stage is found at its own position: the catalogue has no repeats. */
  lemma PosicaoNoCatalogo(i: int)
    requires 0 <= i < |StatusEtapas|
    ensures Posicao(StatusEtapas[i]) == i
  {
  }

  /** Every non-terminal stage is followed by the next one in the catalogue. */
  lemma ProximaEtapaSucessora(i: int)
    requires 0 <= i < Ultima
    ensures ProximaEtapa(StatusEtapas[i]) == StatusEtapas[i + 1]
  {
    PosicaoNoCatalogo(i);
  }

  /** The terminal stage is absorbing. */
  lemma ProximaEtapaTerminal()
    ensures ProximaEtapa(StatusEtapas[Ultima]) == StatusEtapas[Ultima]
    ensures ProximaEtapa(ConcluidaArquivada) == ConcluidaArquivada
  {
    PosicaoNoCatalogo(Ultima);
  }

  /**
   * `proximaEtapa` never moves backward: the position rises by exactly one,
   * except at the terminal stage, where it stays.
   */
  lemma ProximaEtapaAvanca(e: Etapa)
    ensures Posicao(ProximaEtapa(e)) >= Posicao(e)
    ensures Posicao(ProximaEtapa(e)) == if Posicao(e) == Ultima then Ultima else Posicao(e) + 1
  {
    var i := Posicao(e);
    if i < Ultima {
      PosicaoNoCatalogo(i + 1);
    }
  }

  /** `n` steps from a stage reach position `min(Posicao(e) + n, Ultima)`. */
  lemma {:induction false} AvancarDesde(e: Etapa, n: nat)
    ensures Posicao(Avancar(n, e)) == if Posicao(e) + n < Ultima then Posicao(e) + n else Ultima
    decreases n
  {
    if n > 0 {
      ProximaEtapaAvanca(e);
      AvancarDesde(ProximaEtapa(e), n - 1);
    }
  }

  /**
   * Six steps from "Preparação" reach "Concluída/Arquivada", and any further
   * step changes nothing.
   */
  lemma PreparacaoAteConcluida()
    ensures Avancar(Ultima, Preparacao) == ConcluidaArquivada
    ensures Avancar(Ultima + 1, Preparacao) == ConcluidaArquivada
    ensures ProximaEtapa(ConcluidaArquivada) == ConcluidaArquivada
  {
    AvancarDesde(Preparacao, Ultima);
    AvancarDesde(Preparacao, Ultima + 1);
    ProximaEtapaTerminal();
  }

  /** No two stages share a name. */
  lemma NomesDistintos()
    ensures forall e1: Etapa, e2: Etapa :: Nome(e1) == Nome(e2) ==> e1 == e2
  {
  }

  /** Stage names round-trip through the form: reading a stage's name gives the stage. */
  lemma EtapaDeNomeInverteNome(e: Etapa)
    ensures EtapaDeNome(Nome(e)) == Some(e)
  {
    NomesDistintos();
  }
}
