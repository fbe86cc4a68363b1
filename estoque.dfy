/** The stock arithmetic both services share: how the order-line loops of
    `CriarPedido` (EntityFrameworkService.cs) and `InserirPedidoCompleto` (AdoNetService.cs)
    take stock, and how `CancelarPedido` and `ProcessarDevolucao` give it back. The services'
    loops are proved equal to the functions here; the lemmas state what those loops promise. */
module Estoque {
  import opened Comum
  import opened Modelos
  import opened Contexto

  /** Which of the two create paths runs the line loop. */
  datatype Caminho = ViaEntityFramework | ViaAdoNet

  /** One answer to the "product id / quantity" prompts. An id of 0 (or one that does not
      parse) ends the loop; a quantity that does not parse is read as 0. */
  datatype LinhaPedido = LinhaPedido(produtoId: int, quantidade: int)

  /** The running state of a line loop: the product rows as the transaction (or the tracked
      entities) currently see them, the lines added so far and the running total. */
  datatype Reserva = Reserva(produtos: map<int, Produto>, itens: seq<PedidoItem>, total: int)

  /** The rows differ at most in `estoque`. */
  predicate SoEstoqueMuda(antes: map<int, Produto>, depois: map<int, Produto>)
  {
    && antes.Keys == depois.Keys
    && forall id :: id in antes ==> depois[id] == antes[id].(estoque := depois[id].estoque)
  }

  /** Whether a line is taken. Both paths want a positive quantity no larger than the stock
      as currently seen; the EF path offers only active products, the ADO path looks the
      product up by id alone. (The EF list also filters on the stored stock being > 0; the
      stock it checks never exceeds the stored one, so that filter rejects nothing more.) */
  predicate Aceita(caminho: Caminho, produtos: map<int, Produto>, linha: LinhaPedido)
  {
    && linha.produtoId in produtos
    && 0 < linha.quantidade <= produtos[linha.produtoId].estoque
    && (caminho == ViaEntityFramework ==> produtos[linha.produtoId].ativo)
  }

  /** What a taken line adds to the total: EF adds `item.Subtotal`, ADO adds `preco * quantidade`. */
  function Incremento(caminho: Caminho, item: PedidoItem): int
  {
    if caminho == ViaEntityFramework then Subtotal(item) else item.precoUnitario * item.quantidade
  }

  /** One turn of the loop: a taken line captures the current price, lowers that product's
      stock by the quantity and adds to the total; any other line is skipped (`continue`). */
  function Passo(caminho: Caminho, r: Reserva, linha: LinhaPedido): Reserva
  {
    if Aceita(caminho, r.produtos, linha) then
      var p := r.produtos[linha.produtoId];
      var item := PedidoItem(linha.produtoId, linha.quantidade, p.preco, None);
      Reserva(r.produtos[linha.produtoId := p.(estoque := p.estoque - linha.quantidade)],
              r.itens + [item],
              r.total + Incremento(caminho, item))
    else r
  }

  /** The whole line loop, from state `r`, until the lines run out or one has product id 0. */
  function Reservar(caminho: Caminho, r: Reserva, linhas: seq<LinhaPedido>): Reserva
    decreases |linhas|
  {
    if linhas == [] || linhas[0].produtoId == 0 then r
    else Reservar(caminho, Passo(caminho, r, linhas[0]), linhas[1..])
  }

  /** The loop as the create operations start it: the stored rows, no lines, total 0. */
  function ReservarPedido(caminho: Caminho, produtos: map<int, Produto>, linhas: seq<LinhaPedido>): Reserva
  {
    Reservar(caminho, Reserva(produtos, [], 0), linhas)
  }

  /** Gives one line's units back to its product; a line whose product row is gone changes
      nothing (the UPDATE matches no row). */
  function Devolver(produtos: map<int, Produto>, item: PedidoItem): map<int, Produto>
  {
    if item.produtoId in produtos then
      produtos[item.produtoId := produtos[item.produtoId].(estoque := produtos[item.produtoId].estoque + item.quantidade)]
    else produtos
  }

  /** The restitution loop of a cancellation or a return, over the order's lines in order. */
  function Restituir(produtos: map<int, Produto>, itens: seq<PedidoItem>): map<int, Produto>
    decreases |itens|
  {
    if itens == [] then produtos else Restituir(Devolver(produtos, itens[0]), itens[1..])
  }

  // ---------------------------------------------------------------------------
  // What the line loop promises
  // ---------------------------------------------------------------------------

  /** The final total is the sum of the subtotals of the lines taken (when it was so at the start). */
  lemma {:induction false} TotalIgualSomaDosItens(caminho: Caminho, r: Reserva, linhas: seq<LinhaPedido>)
    requires r.total == SomaSubtotais(r.itens)
    ensures Reservar(caminho, r, linhas).total == SomaSubtotais(Reservar(caminho, r, linhas).itens)
    decreases |linhas|
  {
    if linhas != [] && linhas[0].produtoId != 0 {
      var r' := Passo(caminho, r, linhas[0]);
      if Aceita(caminho, r.produtos, linhas[0]) {
        var item := r'.itens[|r'.itens| - 1];
        assert r'.itens == r.itens + [item];
        SomaSubtotaisConcat(r.itens, [item]);
        assert SomaSubtotais([item]) == Subtotal(item);
      }
      TotalIgualSomaDosItens(caminho, r', linhas[1..]);
    }
  }

  /** Lines are only appended, every new line has a positive quantity, names an existing
      product (an active one on the EF path) and carries that product's price, with no discount. */
  lemma {:induction false} ItensDaReserva(caminho: Caminho, r: Reserva, linhas: seq<LinhaPedido>)
    ensures var f := Reservar(caminho, r, linhas);
      && |r.itens| <= |f.itens|
      && f.itens[..|r.itens|] == r.itens
      && forall k :: |r.itens| <= k < |f.itens| ==>
           && f.itens[k].quantidade > 0
           && f.itens[k].produtoId in r.produtos
           && f.itens[k].precoUnitario == r.produtos[f.itens[k].produtoId].preco
           && f.itens[k].desconto.None?
           && (caminho == ViaEntityFramework ==> r.produtos[f.itens[k].produtoId].ativo)
    decreases |linhas|
  {
    if linhas != [] && linhas[0].produtoId != 0 {
      var r' := Passo(caminho, r, linhas[0]);
      ItensDaReserva(caminho, r', linhas[1..]);
      assert SoEstoqueMuda(r.produtos, r'.produtos);
    }
  }

  /** Conservation: for every product, stock plus the units held by lines is constant; the
      rows otherwise stay as they were. */
  lemma {:induction false} ConservacaoDoEstoque(caminho: Caminho, r: Reserva, linhas: seq<LinhaPedido>)
    ensures var f := Reservar(caminho, r, linhas);
      && SoEstoqueMuda(r.produtos, f.produtos)
      && forall id :: id in r.produtos ==>
           f.produtos[id].estoque + QuantidadePara(f.itens, id)
           == r.produtos[id].estoque + QuantidadePara(r.itens, id)
    decreases |linhas|
  {
    if linhas != [] && linhas[0].produtoId != 0 {
      var r' := Passo(caminho, r, linhas[0]);
      if Aceita(caminho, r.produtos, linhas[0]) {
        var item := r'.itens[|r'.itens| - 1];
        assert r'.itens == r.itens + [item];
        forall id | id in r.produtos
          ensures r'.produtos[id].estoque + QuantidadePara(r'.itens, id)
                  == r.produtos[id].estoque + QuantidadePara(r.itens, id)
        {
          QuantidadeConcat(r.itens, [item], id);
          assert QuantidadePara([item], id) == (if item.produtoId == id then item.quantidade else 0) by {
            assert [item][1..] == [];
          }
        }
      }
      ConservacaoDoEstoque(caminho, r', linhas[1..]);
    }
  }

  /** Stock never goes below zero through the loop: a product that starts at >= 0 ends at >= 0,
      one that starts below zero is never taken and keeps its stock. */
  lemma {:induction false} EstoqueNuncaNegativo(caminho: Caminho, r: Reserva, linhas: seq<LinhaPedido>, id: int)
    requires id in r.produtos
    ensures var f := Reservar(caminho, r, linhas);
      && id in f.produtos
      && (r.produtos[id].estoque >= 0 ==> 0 <= f.produtos[id].estoque <= r.produtos[id].estoque)
      && (r.produtos[id].estoque < 0 ==> f.produtos[id].estoque == r.produtos[id].estoque)
    decreases |linhas|
  {
    if linhas != [] && linhas[0].produtoId != 0 {
      EstoqueNuncaNegativo(caminho, Passo(caminho, r, linhas[0]), linhas[1..], id);
    }
  }

  /** Repeated lines for one product can never take more than its starting stock. */
  lemma QuantidadeReservadaLimitada(caminho: Caminho, produtos: map<int, Produto>, linhas: seq<LinhaPedido>, id: int)
    requires id in produtos
    ensures var f := ReservarPedido(caminho, produtos, linhas);
      && 0 <= QuantidadePara(f.itens, id)
      && (produtos[id].estoque >= 0 ==> QuantidadePara(f.itens, id) <= produtos[id].estoque)
      && (produtos[id].estoque < 0 ==> QuantidadePara(f.itens, id) == 0)
  {
    ConservacaoDoEstoque(caminho, Reserva(produtos, [], 0), linhas);
    EstoqueNuncaNegativo(caminho, Reserva(produtos, [], 0), linhas, id);
  }

  /** Rows the loop never names keep their stock: another product's stock is unchanged. */
  lemma {:induction false} OutrosProdutosIntactos(caminho: Caminho, r: Reserva, linhas: seq<LinhaPedido>, id: int)
    requires id in r.produtos
    requires forall k :: 0 <= k < |linhas| ==> linhas[k].produtoId != id
    ensures id in Reservar(caminho, r, linhas).produtos
    ensures Reservar(caminho, r, linhas).produtos[id] == r.produtos[id]
    decreases |linhas|
  {
    if linhas != [] && linhas[0].produtoId != 0 {
      OutrosProdutosIntactos(caminho, Passo(caminho, r, linhas[0]), linhas[1..], id);
    }
  }

  /** The two paths agree on the total of any lines they both take: `Subtotal` of a fresh line
      is exactly `preco * quantidade`. */
  lemma IncrementosCoincidem(item: PedidoItem)
    requires item.desconto.None?
    ensures Incremento(ViaEntityFramework, item) == Incremento(ViaAdoNet, item)
  {
  }

  /** On the same rows, every line the EF path takes the ADO path takes too. */
  lemma AceitaEfImplicaAceitaAdo(produtos: map<int, Produto>, linha: LinhaPedido)
    ensures Aceita(ViaEntityFramework, produtos, linha) ==> Aceita(ViaAdoNet, produtos, linha)
  {
  }

  // ---------------------------------------------------------------------------
  // What the restitution loop promises
  // ---------------------------------------------------------------------------

  /** Restitution adds to each product exactly the units the lines hold for it. */
  lemma {:induction false} RestituirSoma(produtos: map<int, Produto>, itens: seq<PedidoItem>)
    ensures var f := Restituir(produtos, itens);
      && SoEstoqueMuda(produtos, f)
      && forall id :: id in produtos ==> f[id].estoque == produtos[id].estoque + QuantidadePara(itens, id)
    decreases |itens|
  {
    if itens != [] {
      var p' := Devolver(produtos, itens[0]);
      RestituirSoma(p', itens[1..]);
    }
  }

  /** Restitution never lowers a stock, so stock >= 0 survives it. */
  lemma RestituirNaoNegativo(produtos: map<int, Produto>, itens: seq<PedidoItem>, id: int)
    requires id in produtos
    requires forall k :: 0 <= k < |itens| ==> itens[k].quantidade >= 0
    ensures id in Restituir(produtos, itens)
    ensures Restituir(produtos, itens)[id].estoque >= produtos[id].estoque
  {
    RestituirSoma(produtos, itens);
    QuantidadeNaoNegativa(itens, id);
  }

  lemma {:induction false} QuantidadeNaoNegativa(itens: seq<PedidoItem>, id: int)
    requires forall k :: 0 <= k < |itens| ==> itens[k].quantidade >= 0
    ensures QuantidadePara(itens, id) >= 0
  {
    if itens != [] {
      QuantidadeNaoNegativa(itens[1..], id);
    }
  }

  /** Round trip: giving back the lines an order took restores every product row exactly. */
  lemma ReservarERestituir(caminho: Caminho, produtos: map<int, Produto>, linhas: seq<LinhaPedido>)
    ensures var f := ReservarPedido(caminho, produtos, linhas);
      Restituir(f.produtos, f.itens) == produtos
  {
    var f := ReservarPedido(caminho, produtos, linhas);
    ConservacaoDoEstoque(caminho, Reserva(produtos, [], 0), linhas);
    RestituirSoma(f.produtos, f.itens);
    var g := Restituir(f.produtos, f.itens);
    assert g.Keys == produtos.Keys;
    forall id | id in produtos ensures g[id] == produtos[id] {
      assert g[id].estoque == produtos[id].estoque;
    }
  }

  /** Storing the order a line loop produced, under a fresh id and a number not in use, keeps
      the unique index on numbers and the line/product rule, and its total is the sum of its
      lines. */
  lemma PedidoReservadoMantemIntegridade(caminho: Caminho, produtos: map<int, Produto>,
                                         pedidos: map<int, Pedido>, linhas: seq<LinhaPedido>,
                                         id: int, numero: string, agora: int, clienteId: int)
    requires NumerosUnicos(pedidos) && ItensReferenciamProdutos(produtos, pedidos)
    requires id !in pedidos
    requires forall j :: j in pedidos ==> pedidos[j].numeroPedido != numero
    ensures var f := ReservarPedido(caminho, produtos, linhas);
      var novos := pedidos[id := Pedido(numero, agora, Pendente, f.total, None, clienteId, f.itens)];
      && NumerosUnicos(novos)
      && ItensReferenciamProdutos(f.produtos, novos)
      && f.total == SomaSubtotais(f.itens)
      && SoEstoqueMuda(produtos, f.produtos)
  {
    var r0 := Reserva(produtos, [], 0);
    TotalIgualSomaDosItens(caminho, r0, linhas);
    ItensDaReserva(caminho, r0, linhas);
    ConservacaoDoEstoque(caminho, r0, linhas);
  }
}
