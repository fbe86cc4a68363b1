/** The order lifecycle: the transition table of `AtualizarStatusPedido` and the source states
    from which `CancelarPedido` and `ProcessarDevolucao` act. */
module Transicoes {
  import opened Modelos

  /** `transicoesValidas`: each listed state with its only allowed next states.
      `Cancelado` has no entry. */
  const TransicoesValidas: map<StatusPedido, set<StatusPedido>> :=
    map[Pendente := {Confirmado},
        Confirmado := {EmAndamento},
        EmAndamento := {Entregue},
        Entregue := {}]

  /** The table check exactly as written: a request is refused only when the current state
      has an entry that does not list the target. So a state without an entry (`Cancelado`)
      would let anything through; the service keeps cancelled orders out before it gets here. */
  predicate TabelaPermite(atual: StatusPedido, novo: StatusPedido)
  {
    !(atual in TransicoesValidas && novo !in TransicoesValidas[atual])
  }

  /** Everything `AtualizarStatusPedido` demands of a change: the order is not cancelled,
      the target is not `Cancelado`, and the table allows it. */
  predicate Avanco(atual: StatusPedido, novo: StatusPedido)
  {
    atual != Cancelado && novo != Cancelado && TabelaPermite(atual, novo)
  }

  /** `CancelarPedido` lists only pending or confirmed orders. */
  predicate PodeCancelar(s: StatusPedido)
  {
    s == Pendente || s == Confirmado
  }

  /** `ProcessarDevolucao` accepts only delivered or confirmed orders. */
  predicate PodeDevolver(s: StatusPedido)
  {
    s == Entregue || s == Confirmado
  }

  /** Position along the forward path Pendente, Confirmado, EmAndamento, Entregue. */
  function Etapa(s: StatusPedido): nat
  {
    match s
    case Pendente => 0
    case Confirmado => 1
    case EmAndamento => 2
    case Entregue => 3
    case Cancelado => 4
  }

  /** The only changes are the three forward edges, in both directions of the equivalence. */
  lemma AvancosSaoAsTresArestas(atual: StatusPedido, novo: StatusPedido)
    ensures Avanco(atual, novo) <==>
      || (atual == Pendente && novo == Confirmado)
      || (atual == Confirmado && novo == EmAndamento)
      || (atual == EmAndamento && novo == Entregue)
  {
  }

  /** Every change moves exactly one step forward; `Entregue` and `Cancelado` have no
      successor and `Cancelado` is never a target. */
  lemma AvancoUmPasso(atual: StatusPedido, novo: StatusPedido)
    requires Avanco(atual, novo)
    ensures Etapa(novo) == Etapa(atual) + 1
    ensures atual != Entregue && atual != Cancelado && novo != Cancelado
  {
  }

  /** The raw table would let a cancelled order go anywhere: the filter on `Cancelado`
      before the table is what keeps that state terminal. */
  lemma TabelaSozinhaNaoProtegeCancelado(novo: StatusPedido)
    ensures TabelaPermite(Cancelado, novo)
    ensures !Avanco(Cancelado, novo)
  {
  }

  /** A run of status updates, each allowed. */
  predicate Historico(h: seq<StatusPedido>)
  {
    forall k :: 0 <= k < |h| - 1 ==> Avanco(h[k], h[k + 1])
  }

  lemma {:induction false} EtapaAoLongoDoHistorico(h: seq<StatusPedido>, k: nat)
    requires Historico(h) && |h| > 0
    requires k < |h|
    ensures Etapa(h[k]) == Etapa(h[0]) + k
  {
    if k > 0 {
      EtapaAoLongoDoHistorico(h, k - 1);
      AvancoUmPasso(h[k - 1], h[k]);
    }
  }

  /** Status updates alone take a pending order to delivery only through every state:
      the run is exactly Pendente, Confirmado, EmAndamento, Entregue. */
  lemma EntregaPassaPorTodasAsEtapas(h: seq<StatusPedido>)
    requires Historico(h) && |h| > 0
    requires h[0] == Pendente && h[|h| - 1] == Entregue
    ensures h == [Pendente, Confirmado, EmAndamento, Entregue]
  {
    EtapaAoLongoDoHistorico(h, |h| - 1);
    assert |h| == 4;
    forall k | 0 <= k < 4 ensures h[k] == [Pendente, Confirmado, EmAndamento, Entregue][k] {
      EtapaAoLongoDoHistorico(h, k);
      if k < 3 {
        AvancoUmPasso(h[k], h[k + 1]);
      }
    }
  }

  /** `Cancelado` accepts no update, no cancellation and no return; an order `EmAndamento`
      can be neither cancelled nor returned. */
  lemma CanceladoTerminal(novo: StatusPedido)
    ensures !Avanco(Cancelado, novo) && !PodeCancelar(Cancelado) && !PodeDevolver(Cancelado)
    ensures !PodeCancelar(EmAndamento) && !PodeDevolver(EmAndamento)
  {
  }
}
