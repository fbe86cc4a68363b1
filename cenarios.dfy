/** Operations chained the way the menus of the application chain them, and the seed database
    put through them. */
module Cenarios {
  import opened Comum
  import opened Modelos
  import opened Erros
  import opened Contexto
  import opened Estoque
  import opened Transicoes
  import EntityFrameworkService
  import AdoNetService

  /** Creating an order and then cancelling it leaves every product row as it was: whatever
      lines were taken, the cancellation puts back exactly what the creation took. */
  method CriarECancelar(db: BancoDados, clienteId: int, numero: string, agora: int, linhas: seq<LinhaPedido>)
    returns (r: Resultado<int>)
    requires db.Valid()
    modifies db
    ensures db.Valid()
    ensures r.Ok? ==> db.produtos == old(db.produtos)
    ensures r.Ok? ==> r.valor in db.pedidos && db.pedidos[r.valor].status == Cancelado
    ensures r.Ok? <==> old(EntityFrameworkService.ClienteAtivo(db.clientes, clienteId))
                       && !old(EntityFrameworkService.NumeroEmUso(db.pedidos, numero))
  {
    ghost var produtos0 := db.produtos;
    r := EntityFrameworkService.CriarPedido(db, clienteId, numero, agora, linhas, false);
    if r.Ok? {
      var cancelamento := EntityFrameworkService.CancelarPedido(db, r.valor, true, false);
      assert cancelamento.Ok?;
      ReservarERestituir(ViaEntityFramework, produtos0, linhas);
    }
  }

  /** The same round trip through the ADO.NET screens: an order inserted, confirmed on the EF
      status screen and then returned gives every unit back. The ADO.NET insert stores any
      customer id, but the EF screen lists only orders whose customer exists, so for an
      unknown customer the confirmation reports the order as not found and the inserted
      order stays pending. */
  method InserirConfirmarEDevolver(db: BancoDados, clienteId: int, numero: string, agora: int,
                                   linhas: seq<LinhaPedido>)
    returns (r: Resultado<int>)
    requires db.Valid()
    requires numero != ""
    modifies db
    ensures db.Valid()
    ensures r.Ok? ==> db.produtos == old(db.produtos)
    ensures r.Ok? <==> (forall id :: id in old(db.pedidos) ==> old(db.pedidos[id]).numeroPedido != numero)
                       && clienteId in old(db.clientes)
    ensures ((forall id :: id in old(db.pedidos) ==> old(db.pedidos[id]).numeroPedido != numero)
             && clienteId !in old(db.clientes)) ==>
              && r == Falha(PedidoNaoEncontrado)
              && db.produtos == ReservarPedido(ViaAdoNet, old(db.produtos), linhas).produtos
              && old(db.proximoPedidoId) in db.pedidos
              && db.pedidos[old(db.proximoPedidoId)].status == Pendente
  {
    ghost var produtos0 := db.produtos;
    var inserido := AdoNetService.InserirPedidoCompleto(db, clienteId, numero, agora, linhas, false);
    if inserido.Falha? {
      return Falha(inserido.erro);
    }
    var id := inserido.valor;
    var confirmado := EntityFrameworkService.AtualizarStatusPedido(db, id, Confirmado, false);
    if confirmado.Falha? {
      return Falha(confirmado.erro);
    }
    assert id in db.pedidos && db.pedidos[id].numeroPedido == numero;
    var achado := PedidoComNumero(db.pedidos, numero);
    assert achado.Some? && db.pedidos[achado.value].numeroPedido == db.pedidos[id].numeroPedido;
    assert achado == Some(id);
    var devolucao := AdoNetService.ProcessarDevolucao(db, numero, true, false);
    assert devolucao.Ok?;
    ReservarERestituir(ViaAdoNet, produtos0, linhas);
    r := Ok(id);
  }

  /** Looking the seed orders up by number finds each under its own id. */
  lemma BuscaNaSemente(agora: int)
    ensures PedidoComNumero(PedidosSemente(agora), "PED001") == Some(1)
    ensures PedidoComNumero(PedidosSemente(agora), "PED002") == Some(2)
  {
    var pedidos := PedidosSemente(agora);
    assert pedidos[1].numeroPedido[5] != pedidos[2].numeroPedido[5];
    assert pedidos.Keys == {1, 2};
  }

  /** Giving back the lines of seed order 1 adds one unit to the Smartphone and one to the
      Camiseta. */
  lemma DevolucaoNaSemente(agora: int)
    ensures var p := ProdutosSemente();
      Restituir(p, PedidosSemente(agora)[1].itens)
      == p[1 := p[1].(estoque := 51)][3 := p[3].(estoque := 101)]
  {
    var smartphone, camiseta := PedidoItem(1, 1, 89999, None), PedidoItem(3, 1, 3999, None);
    assert PedidosSemente(agora)[1].itens == [smartphone, camiseta];
    assert [smartphone, camiseta][1..] == [camiseta] && [camiseta][1..] == [];
  }

  /** Returning the seed order PED001 (delivered: one Smartphone and one Camiseta) refunds its
      stored total and brings those two stocks from 50 to 51 and from 100 to 101. */
  method DevolverPedidoDaSemente(agora: int) returns (db: BancoDados, r: Resultado<int>)
    ensures r == Ok(93998)
    ensures db.produtos.Keys == ProdutosSemente().Keys && db.pedidos.Keys == {1, 2}
    ensures db.produtos[1].estoque == 51 && db.produtos[3].estoque == 101
    ensures db.produtos[2] == ProdutosSemente()[2]
    ensures db.pedidos[1].status == Cancelado && db.pedidos[2] == PedidosSemente(agora)[2]
  {
    db := new BancoDados.Semente(agora);
    BuscaNaSemente(agora);
    DevolucaoNaSemente(agora);
    r := AdoNetService.ProcessarDevolucao(db, "PED001", true, false);
  }

  /** The seed order PED002 is `Confirmado`: it can only move on to `EmAndamento`, so a jump
      straight to `Entregue` is refused with both states named, and nothing changes. */
  method SaltoDeEtapaRecusado(agora: int) returns (db: BancoDados, r: Resultado<StatusPedido>)
    ensures r == Falha(TransicaoInvalida(Confirmado, Entregue))
    ensures db.pedidos == PedidosSemente(agora)
  {
    db := new BancoDados.Semente(agora);
    r := EntityFrameworkService.AtualizarStatusPedido(db, 2, Entregue, false);
  }

  /** A product with 5 units asked for twice, 3 at a time: the first line takes 3, the second
      finds only 2 left and is skipped, and the order goes on without it. */
  lemma LinhaRepetidaSemEstoque(caminho: Caminho)
    ensures var p := Produto("Camiseta", None, 3999, 5, true, 2);
      var f := ReservarPedido(caminho, map[3 := p], [LinhaPedido(3, 3), LinhaPedido(3, 3)]);
      && f.itens == [PedidoItem(3, 3, 3999, None)]
      && f.produtos[3].estoque == 2
      && f.total == 11997
  {
    var p := Produto("Camiseta", None, 3999, 5, true, 2);
    var linhas := [LinhaPedido(3, 3), LinhaPedido(3, 3)];
    var r1 := Passo(caminho, Reserva(map[3 := p], [], 0), linhas[0]);
    assert r1.produtos[3].estoque == 2;
    assert Reservar(caminho, Reserva(map[3 := p], [], 0), linhas) == Reservar(caminho, r1, linhas[1..]);
    assert linhas[1..][1..] == [];
  }

  /** The two paths differ on an inactive product: the Entity Framework screen skips it, the
      ADO.NET screen sells it. */
  lemma ProdutoInativoSoPeloAdo()
    ensures var p := Produto("Clean Code", None, 6999, 4, false, 3);
      && ReservarPedido(ViaEntityFramework, map[6 := p], [LinhaPedido(6, 1)]).itens == []
      && ReservarPedido(ViaAdoNet, map[6 := p], [LinhaPedido(6, 1)]).itens == [PedidoItem(6, 1, 6999, None)]
  {
    var linhas := [LinhaPedido(6, 1)];
    assert linhas[1..] == [];
  }

  /** The seed Notebook has no stock: a line asking for it is skipped on both paths, and a
      line after product id 0 is never read. */
  lemma NotebookSemEstoqueEFimDaLista(caminho: Caminho)
    ensures var f := ReservarPedido(caminho, ProdutosSemente(), [LinhaPedido(2, 1), LinhaPedido(0, 0), LinhaPedido(1, 1)]);
      f.itens == [] && f.produtos == ProdutosSemente() && f.total == 0
  {
    var linhas := [LinhaPedido(2, 1), LinhaPedido(0, 0), LinhaPedido(1, 1)];
    assert linhas[1..][0].produtoId == 0;
  }
}
