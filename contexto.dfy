/** The database as `CheckpointContext` configures it: the tables, the unique indexes,
    the delete rules and the seed rows. */
module Contexto {
  import opened Comum
  import opened Modelos
  import opened Erros

  /** Unique index on `Pedido.NumeroPedido`. */
  predicate NumerosUnicos(pedidos: map<int, Pedido>)
  {
    forall a, b :: a in pedidos && b in pedidos && pedidos[a].numeroPedido == pedidos[b].numeroPedido ==> a == b
  }

  /** Unique index on `Cliente.Email`. */
  predicate EmailsUnicos(clientes: map<int, Cliente>)
  {
    forall a, b :: a in clientes && b in clientes && clientes[a].email == clientes[b].email ==> a == b
  }

  /** Some line of some order names the product. */
  predicate Referenciado(pedidos: map<int, Pedido>, produtoId: int)
  {
    exists id, k :: id in pedidos && 0 <= k < |pedidos[id].itens| && pedidos[id].itens[k].produtoId == produtoId
  }

  /** What the `Restrict` rule on `PedidoItem.Produto` protects: every line names a product row. */
  predicate ItensReferenciamProdutos(produtos: map<int, Produto>, pedidos: map<int, Pedido>)
  {
    forall id, k :: id in pedidos && 0 <= k < |pedidos[id].itens| ==> pedidos[id].itens[k].produtoId in produtos
  }

  /** No stock below zero; kept by every writer except the batch adjust. */
  predicate EstoqueNaoNegativo(produtos: map<int, Produto>)
  {
    forall id :: id in produtos ==> produtos[id].estoque >= 0
  }

  /** The lookup of an order by its number: the first row with that number, if any. */
  function PedidoComNumero(pedidos: map<int, Pedido>, numero: string): (r: Option<int>)
    requires NumerosUnicos(pedidos)
    ensures r.Some? ==> r.value in pedidos && pedidos[r.value].numeroPedido == numero
    ensures r.None? ==> forall id :: id in pedidos ==> pedidos[id].numeroPedido != numero
  {
    if exists id :: id in pedidos && pedidos[id].numeroPedido == numero then
      var id :| id in pedidos && pedidos[id].numeroPedido == numero; Some(id)
    else None
  }

  // ---------------------------------------------------------------------------
  // Delete rules
  // ---------------------------------------------------------------------------

  /** Deleting a product row: refused (`Restrict`) while any order line names it. */
  function ExcluirProduto(produtos: map<int, Produto>, pedidos: map<int, Pedido>, produtoId: int)
    : (r: Resultado<map<int, Produto>>)
    ensures r.Falha? <==> Referenciado(pedidos, produtoId)
    ensures r.Ok? ==> r.valor.Keys == produtos.Keys - {produtoId}
    ensures r.Ok? ==> forall id :: id in r.valor ==> r.valor[id] == produtos[id]
    ensures r.Ok? && ItensReferenciamProdutos(produtos, pedidos) ==> ItensReferenciamProdutos(r.valor, pedidos)
  {
    if Referenciado(pedidos, produtoId) then Falha(ProdutoReferenciado)
    else Ok(produtos - {produtoId})
  }

  /** Deleting a customer row takes that customer's orders, and with them their lines (`Cascade`). */
  function ExcluirCliente(clientes: map<int, Cliente>, pedidos: map<int, Pedido>, clienteId: int)
    : (r: (map<int, Cliente>, map<int, Pedido>))
    ensures r.0.Keys == clientes.Keys - {clienteId}
    ensures forall id :: id in r.0 ==> r.0[id] == clientes[id]
    ensures forall id :: id in r.1 <==> id in pedidos && pedidos[id].clienteId != clienteId
    ensures forall id :: id in r.1 ==> r.1[id] == pedidos[id]
  {
    (clientes - {clienteId}, map id | id in pedidos && pedidos[id].clienteId != clienteId :: pedidos[id])
  }

  /** Deleting a category takes its products (`Cascade`); the delete fails as a whole when one
      of those products is named by an order line (`Restrict`). */
  function ExcluirCategoria(produtos: map<int, Produto>, pedidos: map<int, Pedido>, categoriaId: int)
    : (r: Resultado<map<int, Produto>>)
    ensures r.Falha? <==> exists id :: id in produtos && produtos[id].categoriaId == categoriaId && Referenciado(pedidos, id)
    ensures r.Ok? ==> forall id :: id in r.valor <==> id in produtos && produtos[id].categoriaId != categoriaId
    ensures r.Ok? ==> forall id :: id in r.valor ==> r.valor[id] == produtos[id]
    ensures r.Ok? && ItensReferenciamProdutos(produtos, pedidos) ==> ItensReferenciamProdutos(r.valor, pedidos)
  {
    if exists id :: id in produtos && produtos[id].categoriaId == categoriaId && Referenciado(pedidos, id) then
      Falha(ProdutoReferenciado)
    else
      Ok(map id | id in produtos && produtos[id].categoriaId != categoriaId :: produtos[id])
  }

  /** Deleting an order removes it and its lines, and keeps the line/product rule. */
  lemma ExcluirPedidoMantemIntegridade(produtos: map<int, Produto>, pedidos: map<int, Pedido>, ids: set<int>)
    requires ItensReferenciamProdutos(produtos, pedidos) && NumerosUnicos(pedidos)
    ensures ItensReferenciamProdutos(produtos, pedidos - ids) && NumerosUnicos(pedidos - ids)
    ensures forall id :: id in ids ==> id !in pedidos - ids
  {
  }

  // ---------------------------------------------------------------------------
  // The database
  // ---------------------------------------------------------------------------

  /** The SQLite file both services open. Its tables are maps from `Id` to row; the two counters
      are the AUTOINCREMENT sequences that hand out new `Cliente` and `Pedido` ids. */
  class BancoDados {
    var produtos: map<int, Produto>
    var clientes: map<int, Cliente>
    var pedidos: map<int, Pedido>
    var proximoClienteId: int
    var proximoPedidoId: int

    /** What the schema guarantees at every commit: the unique indexes, the line/product
        rule, and that the sequences are ahead of every id in use. */
    ghost predicate Valid()
      reads this
    {
      && NumerosUnicos(pedidos)
      && EmailsUnicos(clientes)
      && ItensReferenciamProdutos(produtos, pedidos)
      && (forall id :: id in pedidos ==> id < proximoPedidoId)
      && (forall id :: id in clientes ==> id < proximoClienteId)
    }

    /** A database freshly created with the seed rows, `agora` being the creation time. */
    constructor Semente(agora: int)
      ensures Valid()
      ensures produtos == ProdutosSemente() && clientes == ClientesSemente()
      ensures pedidos == PedidosSemente(agora)
      ensures proximoClienteId == 3 && proximoPedidoId == 3
    {
      produtos := ProdutosSemente();
      clientes := ClientesSemente();
      pedidos := PedidosSemente(agora);
      proximoClienteId := 3;
      proximoPedidoId := 3;
      new;
      assert pedidos[1].numeroPedido[5] != pedidos[2].numeroPedido[5];
      assert clientes[1].email[0] != clientes[2].email[0];
    }
  }

  // ---------------------------------------------------------------------------
  // Seed rows
  // ---------------------------------------------------------------------------

  /** Seconds in a day, for the seed dates `DateTime.Now.AddDays(-n)`. */
  const Dia: int := 86400

  function ProdutosSemente(): map<int, Produto>
  {
    map[1 := Produto("Smartphone", Some("Smartphone Android"), 89999, 50, true, 1),
        2 := Produto("Notebook", Some("Notebook Intel i5"), 249999, 0, true, 1),
        3 := Produto("Camiseta", Some("Camiseta básica algodão"), 3999, 100, true, 2),
        4 := Produto("Calça Jeans", Some("Calça jeans masculina"), 8999, 10, true, 2),
        5 := Produto("C# in Action", Some("Livro sobre programação C#"), 7999, 25, true, 3),
        6 := Produto("Clean Code", Some("Livro sobre código limpo"), 6999, 0, true, 3)]
  }

  function ClientesSemente(): map<int, Cliente>
  {
    map[1 := Cliente("João Silva", "joao@email.com", Some("11999999999"), Some("12345678901"),
                     Some("Rua A, 123"), Some("São Paulo"), Some("SP"), Some("01234567"), true),
        2 := Cliente("Maria Santos", "maria@email.com", Some("11888888888"), Some("98765432109"),
                     Some("Rua B, 456"), Some("Rio de Janeiro"), Some("RJ"), Some("98765432"), true)]
  }

  function PedidosSemente(agora: int): map<int, Pedido>
  {
    map[1 := Pedido("PED001", agora - 5 * Dia, Entregue, 93998, None, 1,
                    [PedidoItem(1, 1, 89999, None), PedidoItem(3, 1, 3999, None)]),
        2 := Pedido("PED002", agora - 2 * Dia, Confirmado, 14998, None, 2,
                    [PedidoItem(4, 1, 8999, None), PedidoItem(5, 1, 7999, None)])]
  }

  /** Seed order 1 carries the sum of its lines (899.99 + 39.99 = 939.98); seed order 2 does
      not (89.99 + 79.99 = 169.98, stored as 149.98). So "total = sum of lines" holds for the
      orders the services create, not for every row in the table. */
  lemma TotaisDaSemente(agora: int)
    ensures PedidosSemente(agora)[1].valorTotal == SomaSubtotais(PedidosSemente(agora)[1].itens)
    ensures SomaSubtotais(PedidosSemente(agora)[2].itens) == 16998
    ensures PedidosSemente(agora)[2].valorTotal == SomaSubtotais(PedidosSemente(agora)[2].itens) - 2000
  {
  }

  /** The seed stocks are all >= 0 and every seed line names a seed product. */
  lemma SementeConsistente(agora: int)
    ensures EstoqueNaoNegativo(ProdutosSemente())
    ensures ItensReferenciamProdutos(ProdutosSemente(), PedidosSemente(agora))
  {
  }
}
