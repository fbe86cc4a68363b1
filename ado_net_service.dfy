/** The writing operations of `AdoNetService`: plain SQL commands on the same database, each
    group of them inside one transaction. `erroBanco` stands for any exception thrown by a
    command before the commit, after which the transaction is rolled back. */
module AdoNetService {
  import opened Comum
  import opened Modelos
  import opened Erros
  import opened Contexto
  import opened Estoque
  import opened Transicoes

  // ---------------------------------------------------------------------------
  // AtualizarEstoqueLote
  // ---------------------------------------------------------------------------

  /** The rows the SELECT on the chosen category returns, active or not. */
  function IdsDaCategoria(produtos: map<int, Produto>, categoriaId: int): (r: set<int>)
    ensures forall id :: id in r <==> id in produtos && produtos[id].categoriaId == categoriaId
  {
    set id | id in produtos && produtos[id].categoriaId == categoriaId
  }

  /** The products whose prompt is answered with an integer (`entradas` holds those answers). */
  function IdsAjustados(produtos: map<int, Produto>, categoriaId: int, entradas: map<int, int>): set<int>
  {
    IdsDaCategoria(produtos, categoriaId) * entradas.Keys
  }

  /** The rows after the UPDATEs of the ids in `ids` that have an answer in `entradas`. */
  function Ajustar(produtos: map<int, Produto>, ids: set<int>, entradas: map<int, int>): (r: map<int, Produto>)
    ensures r.Keys == produtos.Keys
  {
    map id | id in produtos :: if id in ids && id in entradas then produtos[id].(estoque := entradas[id]) else produtos[id]
  }

  /** What the batch commits: every product of the category whose answer parsed as an integer
      gets that number as its stock (any integer, negative ones included); every other row is
      kept. */
  function AjusteLote(produtos: map<int, Produto>, categoriaId: int, entradas: map<int, int>)
    : (r: map<int, Produto>)
    ensures SoEstoqueMuda(produtos, r)
    ensures forall id :: id in IdsAjustados(produtos, categoriaId, entradas) ==> r[id].estoque == entradas[id]
    ensures forall id :: id in produtos && id !in IdsAjustados(produtos, categoriaId, entradas) ==> r[id] == produtos[id]
  {
    Ajustar(produtos, IdsDaCategoria(produtos, categoriaId), entradas)
  }

  /** Answering a second batch with the same numbers changes nothing more. */
  lemma AjusteLoteIdempotente(produtos: map<int, Produto>, categoriaId: int, entradas: map<int, int>)
    ensures AjusteLote(AjusteLote(produtos, categoriaId, entradas), categoriaId, entradas)
            == AjusteLote(produtos, categoriaId, entradas)
  {
    var a := AjusteLote(produtos, categoriaId, entradas);
    assert IdsAjustados(a, categoriaId, entradas) == IdsAjustados(produtos, categoriaId, entradas);
  }

  /** The batch validates nothing but the integer format: a negative answer is stored, so it
      can take a database with every stock >= 0 to one without. */
  lemma LotePermiteEstoqueNegativo()
    ensures var produtos := map[1 := Produto("Camiseta", None, 3999, 100, true, 2)];
      && EstoqueNaoNegativo(produtos)
      && !EstoqueNaoNegativo(AjusteLote(produtos, 2, map[1 := -5]))
  {
    var produtos := map[1 := Produto("Camiseta", None, 3999, 100, true, 2)];
    assert 1 in IdsAjustados(produtos, 2, map[1 := -5]);
  }

  /** With only non-negative answers, the batch keeps every stock >= 0. */
  lemma LoteNaoNegativoMantemEstoque(produtos: map<int, Produto>, categoriaId: int, entradas: map<int, int>)
    requires EstoqueNaoNegativo(produtos)
    requires forall id :: id in entradas ==> entradas[id] >= 0
    ensures EstoqueNaoNegativo(AjusteLote(produtos, categoriaId, entradas))
  {
  }

  predicate Distintos(ids: seq<int>)
  {
    forall i, j :: 0 <= i < j < |ids| ==> ids[i] != ids[j]
  }

  /** The reader loop that fills the list `produtos` from the category's rows: each row once. */
  method LerProdutosDaCategoria(produtos: map<int, Produto>, categoriaId: int) returns (ids: seq<int>)
    ensures Distintos(ids)
    ensures Elementos(ids) == IdsDaCategoria(produtos, categoriaId)
  {
    var restantes := IdsDaCategoria(produtos, categoriaId);
    ids := [];
    while restantes != {}
      invariant Distintos(ids)
      invariant Elementos(ids) !! restantes
      invariant Elementos(ids) + restantes == IdsDaCategoria(produtos, categoriaId)
      decreases |restantes|
    {
      assert exists x :: x in restantes by {
        if forall x :: x !in restantes {
          assert false;
        }
      }
      var id :| id in restantes;
      assert Elementos(ids + [id]) == Elementos(ids) + {id};
      ids := ids + [id];
      restantes := restantes - {id};
    }
  }

  /** The rows of a list, as a set. */
  function Elementos(ids: seq<int>): set<int>
  {
    set id | id in ids
  }

  /** One UPDATE of the batch: the row `id` takes its answer, if it has one. */
  function AjustarUm(produtos: map<int, Produto>, id: int, entradas: map<int, int>): map<int, Produto>
  {
    if id in produtos && id in entradas then produtos[id := produtos[id].(estoque := entradas[id])] else produtos
  }

  /** The UPDATEs of the `foreach`, in list order. */
  function AjustarLista(produtos: map<int, Produto>, ids: seq<int>, entradas: map<int, int>): map<int, Produto>
    decreases |ids|
  {
    if ids == [] then produtos else AjustarLista(AjustarUm(produtos, ids[0], entradas), ids[1..], entradas)
  }

  /** The affected-records count of a list of rows: one per row with an answer. */
  function Respondidos(ids: seq<int>, entradas: map<int, int>): nat
  {
    if ids == [] then 0 else (if ids[0] in entradas then 1 else 0) + Respondidos(ids[1..], entradas)
  }

  /** The list order does not matter: updating the rows of a list one by one is updating the
      set of its rows at once. */
  lemma {:induction false} AjustarListaConjunto(produtos: map<int, Produto>, ids: seq<int>, entradas: map<int, int>)
    requires forall id :: id in ids ==> id in produtos
    ensures AjustarLista(produtos, ids, entradas) == Ajustar(produtos, Elementos(ids), entradas)
    decreases |ids|
  {
    if ids == [] {
      assert Ajustar(produtos, {}, entradas) == produtos;
    } else {
      var p1 := AjustarUm(produtos, ids[0], entradas);
      AjustarListaConjunto(p1, ids[1..], entradas);
      var resto := Elementos(ids[1..]);
      var todos := Elementos(ids);
      assert todos == resto + {ids[0]};
      var esq := Ajustar(p1, resto, entradas);
      var dir := Ajustar(produtos, todos, entradas);
      assert esq.Keys == dir.Keys;
      forall id | id in esq ensures esq[id] == dir[id] {
      }
    }
  }

  /** The tail of a list without repetitions has none, and does not hold its head. */
  lemma DistintosCauda(ids: seq<int>)
    requires Distintos(ids) && ids != []
    ensures Distintos(ids[1..])
    ensures ids[0] !in Elementos(ids[1..])
    ensures Elementos(ids) == Elementos(ids[1..]) + {ids[0]}
  {
    forall i, j | 0 <= i < j < |ids[1..]| ensures ids[1..][i] != ids[1..][j] {
      assert ids[1..][i] == ids[i + 1] && ids[1..][j] == ids[j + 1];
    }
    assert ids == [ids[0]] + ids[1..];
  }

  /** Adding one new row to a set of rows adds one answered row exactly when it has an answer. */
  lemma InterseccaoComUm(a: set<int>, x: int, k: set<int>)
    requires x !in a
    ensures x in k ==> |(a + {x}) * k| == |a * k| + 1
    ensures x !in k ==> (a + {x}) * k == a * k
  {
    if x in k {
      assert (a + {x}) * k == a * k + {x};
    }
  }

  /** On a list without repetitions, the count is the number of its rows with an answer. */
  lemma {:induction false} RespondidosConjunto(ids: seq<int>, entradas: map<int, int>)
    requires Distintos(ids)
    ensures Respondidos(ids, entradas) == |Elementos(ids) * entradas.Keys|
    decreases |ids|
  {
    if ids == [] {
      assert Elementos(ids) == {};
    } else {
      DistintosCauda(ids);
      RespondidosConjunto(ids[1..], entradas);
      InterseccaoComUm(Elementos(ids[1..]), ids[0], entradas.Keys);
    }
  }

  /** The `foreach` of `AtualizarEstoqueLote` over the list read from the category: an
      integer answer updates that row and counts one affected record, anything else skips
      it. */
  method AplicarLote(produtos0: map<int, Produto>, ids: seq<int>, entradas: map<int, int>)
    returns (produtos: map<int, Produto>, registrosAfetados: nat)
    ensures produtos == AjustarLista(produtos0, ids, entradas)
    ensures registrosAfetados == Respondidos(ids, entradas)
  {
    produtos := produtos0;
    registrosAfetados := 0;
    var i := 0;
    while i < |ids|
      invariant 0 <= i <= |ids|
      invariant AjustarLista(produtos, ids[i..], entradas) == AjustarLista(produtos0, ids, entradas)
      invariant registrosAfetados + Respondidos(ids[i..], entradas) == Respondidos(ids, entradas)
    {
      var id := ids[i];
      assert ids[i..][1..] == ids[i + 1..];
      if id in entradas && id in produtos {
        produtos := produtos[id := produtos[id].(estoque := entradas[id])];
      }
      if id in entradas {
        registrosAfetados := registrosAfetados + 1;
      }
      i := i + 1;
    }
    assert ids[i..] == [];
  }

  /** `AtualizarEstoqueLote`. A category without products stops before the transaction;
      otherwise every product of the category is offered for a new stock, and a failing
      command rolls the whole batch back. */
  method AtualizarEstoqueLote(db: BancoDados, categoriaId: int, entradas: map<int, int>, erroBanco: bool)
    returns (r: Resultado<nat>)
    requires db.Valid()
    modifies db
    ensures db.Valid()
    ensures IdsDaCategoria(old(db.produtos), categoriaId) == {} ==> r == Falha(CategoriaSemProdutos)
    ensures IdsDaCategoria(old(db.produtos), categoriaId) != {} && erroBanco ==> r == Falha(FalhaBanco)
    ensures r.Ok? <==> IdsDaCategoria(old(db.produtos), categoriaId) != {} && !erroBanco
    ensures r.Falha? ==> unchanged(db)
    ensures r.Ok? ==>
              && IdsDaCategoria(old(db.produtos), categoriaId) != {} && !erroBanco
              && r.valor == |IdsAjustados(old(db.produtos), categoriaId, entradas)|
              && db.produtos == AjusteLote(old(db.produtos), categoriaId, entradas)
              && db.pedidos == old(db.pedidos)
              && db.clientes == old(db.clientes)
              && db.proximoPedidoId == old(db.proximoPedidoId)
              && db.proximoClienteId == old(db.proximoClienteId)
  {
    var lista := LerProdutosDaCategoria(db.produtos, categoriaId);
    if lista == [] {
      assert Elementos(lista) == {};
      return Falha(CategoriaSemProdutos);
    }
    assert lista[0] in Elementos(lista);
    if erroBanco {
      return Falha(FalhaBanco);
    }
    var produtos, registrosAfetados := AplicarLote(db.produtos, lista, entradas);
    AjustarListaConjunto(db.produtos, lista, entradas);
    RespondidosConjunto(lista, entradas);
    db.produtos := produtos;
    r := Ok(registrosAfetados);
  }

  // ---------------------------------------------------------------------------
  // InserirPedidoCompleto
  // ---------------------------------------------------------------------------

  /** The line loop of `InserirPedidoCompleto` inside the transaction: a line is taken when the
      quantity is positive, the product id is found and the quantity is within the stock read
      in the same transaction; product id 0 ends the loop. */
  method LinhasDoPedido(produtos0: map<int, Produto>, linhas: seq<LinhaPedido>)
    returns (produtos: map<int, Produto>, itens: seq<PedidoItem>, valorTotal: int)
    ensures Reserva(produtos, itens, valorTotal) == ReservarPedido(ViaAdoNet, produtos0, linhas)
  {
    produtos, itens, valorTotal := produtos0, [], 0;
    var i := 0;
    while i < |linhas| && linhas[i].produtoId != 0
      invariant 0 <= i <= |linhas|
      invariant Reservar(ViaAdoNet, Reserva(produtos, itens, valorTotal), linhas[i..])
                == ReservarPedido(ViaAdoNet, produtos0, linhas)
    {
      var linha := linhas[i];
      assert linhas[i..][1..] == linhas[i + 1..];
      if 0 < linha.quantidade && linha.produtoId in produtos {
        var produto := produtos[linha.produtoId];
        if linha.quantidade <= produto.estoque {
          itens := itens + [PedidoItem(linha.produtoId, linha.quantidade, produto.preco, None)];
          produtos := produtos[linha.produtoId := produto.(estoque := produto.estoque - linha.quantidade)];
          valorTotal := valorTotal + produto.preco * linha.quantidade;
        }
      }
      i := i + 1;
    }
    assert i == |linhas| ==> linhas[i..] == [];
  }

  /** `InserirPedidoCompleto`. The customer id is used as typed: it is not checked against
      `Clientes`. The order number is `PED` followed by the clock, so it is a parameter; one
      already in use makes the INSERT fail. Each line is taken or skipped as
      `Estoque.Passo` says on the ADO.NET path (no `Ativo` filter on the lookup, total
      increment `Preco * Quantidade`); product id 0 ends the loop. Master row, lines, stock
      and total are committed together or not at all. */
  method InserirPedidoCompleto(db: BancoDados, clienteId: int, numero: string, agora: int,
                               linhas: seq<LinhaPedido>, erroBanco: bool)
    returns (r: Resultado<int>)
    requires db.Valid()
    modifies db
    ensures db.Valid()
    ensures r.Falha? ==> unchanged(db)
    ensures (exists id :: id in old(db.pedidos) && old(db.pedidos[id]).numeroPedido == numero) ==>
              r == Falha(NumeroDuplicado)
    ensures r.Ok? <==> !erroBanco && forall id :: id in old(db.pedidos) ==> old(db.pedidos[id]).numeroPedido != numero
    ensures (erroBanco && forall id :: id in old(db.pedidos) ==> old(db.pedidos[id]).numeroPedido != numero) ==>
              r == Falha(FalhaBanco)
    ensures r.Ok? ==>
              var f := ReservarPedido(ViaAdoNet, old(db.produtos), linhas);
              && r.valor == old(db.proximoPedidoId)
              && r.valor !in old(db.pedidos)
              && db.proximoPedidoId == r.valor + 1
              && db.produtos == f.produtos
              && db.pedidos == old(db.pedidos)[r.valor := Pedido(numero, agora, Pendente, f.total, None, clienteId, f.itens)]
              && db.pedidos[r.valor].valorTotal == SomaSubtotais(db.pedidos[r.valor].itens)
              && db.clientes == old(db.clientes)
              && db.proximoClienteId == old(db.proximoClienteId)
  {
    if exists id :: id in db.pedidos && db.pedidos[id].numeroPedido == numero {
      return Falha(NumeroDuplicado);
    }
    if erroBanco {
      return Falha(FalhaBanco);
    }
    var produtos0 := db.produtos;
    // INSERT INTO Pedidos ... ValorTotal 0; SELECT last_insert_rowid()
    var pedidoId := db.proximoPedidoId;
    var pedido := NovoPedido(numero, agora, clienteId);

    var produtos, itens, valorTotal := LinhasDoPedido(produtos0, linhas);

    PedidoReservadoMantemIntegridade(ViaAdoNet, produtos0, old(db.pedidos), linhas, pedidoId, numero, agora, clienteId);

    // UPDATE Pedidos SET ValorTotal; COMMIT
    db.produtos := produtos;
    db.pedidos := db.pedidos[pedidoId := pedido.(valorTotal := valorTotal, itens := itens)];
    db.proximoPedidoId := pedidoId + 1;
    r := Ok(pedidoId);
  }

  // ---------------------------------------------------------------------------
  // ExcluirDadosAntigos
  // ---------------------------------------------------------------------------

  /** The rows the purge deletes: cancelled orders dated strictly before the cut-off. */
  predicate Antigo(p: Pedido, dataCorte: int)
  {
    p.status == Cancelado && p.dataPedido < dataCorte
  }

  /** The table after the purge, with the orders' lines gone along with them. */
  function Purga(pedidos: map<int, Pedido>, dataCorte: int): (r: map<int, Pedido>)
    ensures forall id :: id in r <==> id in pedidos && !Antigo(pedidos[id], dataCorte)
    ensures forall id :: id in r ==> r[id] == pedidos[id]
  {
    map id | id in pedidos && !Antigo(pedidos[id], dataCorte) :: pedidos[id]
  }

  /** The purge touches only cancelled orders: every order in any other state survives, and
      running it twice with the same cut-off deletes nothing more. */
  lemma PurgaSoCancelados(pedidos: map<int, Pedido>, dataCorte: int)
    ensures forall id :: id in pedidos && pedidos[id].status != Cancelado ==> id in Purga(pedidos, dataCorte)
    ensures Purga(Purga(pedidos, dataCorte), dataCorte) == Purga(pedidos, dataCorte)
  {
  }

  /** `ExcluirDadosAntigos`, `dataCorte` being six months before now: one DELETE, whose count of
      affected rows is returned. */
  method ExcluirDadosAntigos(db: BancoDados, dataCorte: int) returns (excluidos: nat)
    requires db.Valid()
    modifies db
    ensures db.Valid()
    ensures db.pedidos == Purga(old(db.pedidos), dataCorte)
    ensures excluidos == |old(db.pedidos).Keys| - |db.pedidos.Keys|
    ensures db.produtos == old(db.produtos) && db.clientes == old(db.clientes)
    ensures db.proximoPedidoId == old(db.proximoPedidoId) && db.proximoClienteId == old(db.proximoClienteId)
  {
    var removidos := set id | id in db.pedidos && Antigo(db.pedidos[id], dataCorte);
    ExcluirPedidoMantemIntegridade(db.produtos, db.pedidos, removidos);
    assert db.pedidos - removidos == Purga(db.pedidos, dataCorte);
    assert db.pedidos.Keys - removidos == (db.pedidos - removidos).Keys;
    db.pedidos := db.pedidos - removidos;
    excluidos := |removidos|;
  }

  // ---------------------------------------------------------------------------
  // ProcessarDevolucao
  // ---------------------------------------------------------------------------

  /** `ProcessarDevolucao`. An empty number is refused; the order is found by its number; a
      cancelled order, or one neither delivered nor confirmed, is refused; the user must
      confirm. Then every line's quantity goes back to its product (lines whose product row
      is gone match no row) and the order becomes `Cancelado`, in one transaction. The
      result is the order's stored total, the amount the message reports as returned. */
  method ProcessarDevolucao(db: BancoDados, numero: string, confirma: bool, erroBanco: bool)
    returns (r: Resultado<int>)
    requires db.Valid()
    modifies db
    ensures db.Valid()
    ensures r.Falha? ==> unchanged(db)
    ensures numero == "" ==> r == Falha(NumeroInvalido)
    ensures numero != "" && old(PedidoComNumero(db.pedidos, numero)).None? ==> r == Falha(PedidoNaoEncontrado)
    ensures numero != "" && old(PedidoComNumero(db.pedidos, numero)).Some? ==>
              var id := old(PedidoComNumero(db.pedidos, numero)).value;
              var p := old(db.pedidos[id]);
              && (p.status == Cancelado ==> r == Falha(JaCancelado))
              && (p.status != Cancelado && !PodeDevolver(p.status) ==> r == Falha(NaoDevolvivel))
              && (PodeDevolver(p.status) && !confirma ==> r == Falha(OperacaoAbortada))
              && (PodeDevolver(p.status) && confirma && erroBanco ==> r == Falha(FalhaBanco))
              && (PodeDevolver(p.status) && confirma && !erroBanco ==>
                    && r == Ok(p.valorTotal)
                    && db.produtos == Restituir(old(db.produtos), p.itens)
                    && db.pedidos == old(db.pedidos)[id := p.(status := Cancelado)]
                    && db.clientes == old(db.clientes)
                    && db.proximoPedidoId == old(db.proximoPedidoId)
                    && db.proximoClienteId == old(db.proximoClienteId))
  {
    if numero == "" {
      return Falha(NumeroInvalido);
    }
    var encontrado := PedidoComNumero(db.pedidos, numero);
    if encontrado.None? {
      return Falha(PedidoNaoEncontrado);
    }
    var pedidoId := encontrado.value;
    var pedido := db.pedidos[pedidoId];
    if pedido.status == Cancelado {
      return Falha(JaCancelado);
    }
    if pedido.status != Entregue && pedido.status != Confirmado {
      return Falha(NaoDevolvivel);
    }
    if !confirma {
      return Falha(OperacaoAbortada);
    }
    if erroBanco {
      return Falha(FalhaBanco);
    }
    var produtos := db.produtos;
    var i := 0;
    while i < |pedido.itens|
      invariant 0 <= i <= |pedido.itens|
      invariant Restituir(produtos, pedido.itens[i..]) == Restituir(db.produtos, pedido.itens)
      invariant SoEstoqueMuda(db.produtos, produtos)
    {
      var item := pedido.itens[i];
      assert pedido.itens[i..][1..] == pedido.itens[i + 1..];
      // One UPDATE per line: the product gets its units back.
      if item.produtoId in produtos {
        produtos := produtos[item.produtoId := produtos[item.produtoId].(estoque := produtos[item.produtoId].estoque + item.quantidade)];
      }
      i := i + 1;
    }
    assert pedido.itens[i..] == [];
    db.produtos := produtos;
    db.pedidos := db.pedidos[pedidoId := pedido.(status := Cancelado)];
    r := Ok(pedido.valorTotal);
  }
}
