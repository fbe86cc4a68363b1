/** The entities of the store (the files under Models/). Amounts are `decimal(10,2)` columns and are
    held here as whole cents, which is exact; dates are timestamps chosen by the caller. */
module Modelos {
  import opened Comum

  /** `StatusPedido`, in the order of its enum values. */
  datatype StatusPedido = Pendente | Confirmado | EmAndamento | Entregue | Cancelado

  /** A product row; `estoque` is a plain integer, so nothing in the type keeps it >= 0. */
  datatype Produto = Produto(
    nome: string,
    descricao: Option<string>,
    preco: int,
    estoque: int,
    ativo: bool,
    categoriaId: int)

  /** A customer row (Cliente.cs); only `email` and `ativo` take part in the order logic. */
  datatype Cliente = Cliente(
    nome: string,
    email: string,
    telefone: Option<string>,
    cpf: Option<string>,
    endereco: Option<string>,
    cidade: Option<string>,
    estado: Option<string>,
    cep: Option<string>,
    ativo: bool)

  /** An order line. It belongs to the one order whose `itens` hold it and names one product. */
  datatype PedidoItem = PedidoItem(
    produtoId: int,
    quantidade: int,
    precoUnitario: int,
    desconto: Option<int>)

  /** An order row with its lines. */
  datatype Pedido = Pedido(
    numeroPedido: string,
    dataPedido: int,
    status: StatusPedido,
    valorTotal: int,
    desconto: Option<int>,
    clienteId: int,
    itens: seq<PedidoItem>)

  /** `Desconto ?? 0`. */
  function DescontoOuZero(d: Option<int>): int
  {
    if d.Some? then d.value else 0
  }

  /** The derived, never stored, `Subtotal` of a line. */
  function Subtotal(item: PedidoItem): int
  {
    item.quantidade * item.precoUnitario - DescontoOuZero(item.desconto)
  }

  /** A line without a discount is worth its quantity times its unit price. */
  lemma SubtotalSemDesconto(item: PedidoItem)
    requires item.desconto.None?
    ensures Subtotal(item) == item.quantidade * item.precoUnitario
  {
  }

  /** A discount of d lowers the subtotal by exactly d. */
  lemma DescontoReduzSubtotal(item: PedidoItem, d: int)
    ensures Subtotal(item.(desconto := Some(d))) == Subtotal(item.(desconto := None)) - d
  {
  }

  /** With a discount between 0 and the gross amount, the subtotal lies between 0 and the gross amount. */
  lemma SubtotalLimitado(item: PedidoItem)
    requires 0 <= DescontoOuZero(item.desconto) <= item.quantidade * item.precoUnitario
    ensures 0 <= Subtotal(item) <= item.quantidade * item.precoUnitario
  {
  }

  /** The sum of the subtotals of some lines. */
  function SomaSubtotais(itens: seq<PedidoItem>): int
  {
    if itens == [] then 0 else Subtotal(itens[0]) + SomaSubtotais(itens[1..])
  }

  lemma {:induction false} SomaSubtotaisConcat(a: seq<PedidoItem>, b: seq<PedidoItem>)
    ensures SomaSubtotais(a + b) == SomaSubtotais(a) + SomaSubtotais(b)
  {
    if a != [] {
      assert (a + b)[1..] == a[1..] + b;
      SomaSubtotaisConcat(a[1..], b);
    } else {
      assert a + b == b;
    }
  }

  /** Units of product `produtoId` that some lines account for. */
  function QuantidadePara(itens: seq<PedidoItem>, produtoId: int): int
  {
    if itens == [] then 0
    else (if itens[0].produtoId == produtoId then itens[0].quantidade else 0)
         + QuantidadePara(itens[1..], produtoId)
  }

  lemma {:induction false} QuantidadeConcat(a: seq<PedidoItem>, b: seq<PedidoItem>, produtoId: int)
    ensures QuantidadePara(a + b, produtoId) == QuantidadePara(a, produtoId) + QuantidadePara(b, produtoId)
  {
    if a != [] {
      assert (a + b)[1..] == a[1..] + b;
      QuantidadeConcat(a[1..], b, produtoId);
    } else {
      assert a + b == b;
    }
  }

  /** A fresh `Pedido` as both create paths build it: status `Pendente` (the property default),
      total 0, no order-level discount and an empty item collection. */
  function NovoPedido(numero: string, data: int, clienteId: int): Pedido
  {
    Pedido(numero, data, Pendente, 0, None, clienteId, [])
  }
}

/** Operation results and the reasons the services stop early. */
module Erros {
  import opened Modelos

  datatype Resultado<+T> = Ok(valor: T) | Falha(erro: Erro)

  /** One constructor per early `return` of the services, named after the message it prints. */
  datatype Erro =
    | ClienteNaoEncontrado
    | NumeroDuplicado
    | PedidoNaoEncontrado
    | StatusInvalido
    | TransicaoInvalida(de: StatusPedido, para: StatusPedido)
    | JaCancelado
    | NaoDevolvivel
    | OperacaoAbortada
    | ProdutoNaoEncontrado
    | CategoriaSemProdutos
    | NomeObrigatorio
    | EmailObrigatorio
    | EmailDuplicado
    | CpfInvalido
    | NumeroInvalido
    | ProdutoReferenciado
    | FalhaBanco
}
