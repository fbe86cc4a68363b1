/** The order, product and customer operations of `EntityFrameworkService`. Every console
    prompt is a parameter; the tracked entities of the context are local copies that the
    `SaveChanges` points write back to the database. */
module EntityFrameworkService {
  import opened Comum
  import opened Modelos
  import opened Erros
  import opened Contexto
  import opened Estoque
  import opened Transicoes

  predicate ClienteAtivo(clientes: map<int, Cliente>, clienteId: int)
  {
    clienteId in clientes && clientes[clienteId].ativo
  }

  predicate NumeroEmUso(pedidos: map<int, Pedido>, numero: string)
  {
    exists id :: id in pedidos && pedidos[id].numeroPedido == numero
  }

  // ---------------------------------------------------------------------------
  // CriarPedido
  // ---------------------------------------------------------------------------

  /** The line loop of `CriarPedido` over the tracked product entities: a line is taken when
      its product is listed (active) and the quantity is positive and within the stock as
      currently tracked; product id 0 ends the loop. */
  method LinhasDoPedido(produtos0: map<int, Produto>, linhas: seq<LinhaPedido>)
    returns (produtos: map<int, Produto>, itens: seq<PedidoItem>, valorTotal: int)
    ensures Reserva(produtos, itens, valorTotal) == ReservarPedido(ViaEntityFramework, produtos0, linhas)
  {
    produtos, itens, valorTotal := produtos0, [], 0;
    var i := 0;
    while i < |linhas| && linhas[i].produtoId != 0
      invariant 0 <= i <= |linhas|
      invariant Reservar(ViaEntityFramework, Reserva(produtos, itens, valorTotal), linhas[i..])
                == ReservarPedido(ViaEntityFramework, produtos0, linhas)
    {
      var linha := linhas[i];
      assert linhas[i..][1..] == linhas[i + 1..];
      if linha.produtoId in produtos && produtos[linha.produtoId].ativo {
        var produto := produtos[linha.produtoId];
        if 0 < linha.quantidade && linha.quantidade <= produto.estoque {
          var item := PedidoItem(linha.produtoId, linha.quantidade, produto.preco, None);
          itens := itens + [item];
          produtos := produtos[linha.produtoId := produto.(estoque := produto.estoque - linha.quantidade)];
          valorTotal := valorTotal + Subtotal(item);
        }
      }
      i := i + 1;
    }
    assert i == |linhas| ==> linhas[i..] == [];
  }

  /** `CriarPedido`. The customer must exist and be active. The order row is saved first, with
      total 0 and no lines (a number already in use makes that save throw, and nothing is
      stored). Then each answered line is taken or skipped as `Estoque.Passo` says, with the
      product's price of the moment; product id 0 ends the loop. The last save writes the
      stock decrements, the lines and the total; if it fails (`falhaAoSalvar`), the order stays
      stored from the first save, with total 0 and no lines, and no stock is changed. */
  method CriarPedido(db: BancoDados, clienteId: int, numero: string, agora: int,
                     linhas: seq<LinhaPedido>, falhaAoSalvar: bool)
    returns (r: Resultado<int>)
    requires db.Valid()
    modifies db
    ensures db.Valid()
    ensures !old(ClienteAtivo(db.clientes, clienteId)) ==> r == Falha(ClienteNaoEncontrado) && unchanged(db)
    ensures old(ClienteAtivo(db.clientes, clienteId)) && old(NumeroEmUso(db.pedidos, numero)) ==>
              r == Falha(NumeroDuplicado) && unchanged(db)
    ensures old(ClienteAtivo(db.clientes, clienteId)) && !old(NumeroEmUso(db.pedidos, numero)) ==>
              var id := old(db.proximoPedidoId);
              var f := ReservarPedido(ViaEntityFramework, old(db.produtos), linhas);
              && id !in old(db.pedidos)
              && db.proximoPedidoId == id + 1
              && db.clientes == old(db.clientes)
              && db.proximoClienteId == old(db.proximoClienteId)
              && (falhaAoSalvar ==>
                    && r == Falha(FalhaBanco)
                    && db.produtos == old(db.produtos)
                    && db.pedidos == old(db.pedidos)[id := NovoPedido(numero, agora, clienteId)])
              && (!falhaAoSalvar ==>
                    && r == Ok(id)
                    && db.produtos == f.produtos
                    && db.pedidos == old(db.pedidos)[id := Pedido(numero, agora, Pendente, f.total, None, clienteId, f.itens)]
                    && db.pedidos[id].valorTotal == SomaSubtotais(db.pedidos[id].itens))
  {
    if !ClienteAtivo(db.clientes, clienteId) {
      return Falha(ClienteNaoEncontrado);
    }
    if NumeroEmUso(db.pedidos, numero) {
      return Falha(NumeroDuplicado);
    }
    var produtos0 := db.produtos;

    // First SaveChanges: the master row, total 0.
    var pedidoId := db.proximoPedidoId;
    var pedido := NovoPedido(numero, agora, clienteId);
    db.pedidos := db.pedidos[pedidoId := pedido];
    db.proximoPedidoId := pedidoId + 1;
    assert pedido.itens == [];
    assert NumerosUnicos(db.pedidos);
    assert ItensReferenciamProdutos(db.produtos, db.pedidos);

    // The tracked product entities, the lines added and `valorTotal`.
    var produtos, itens, valorTotal := LinhasDoPedido(produtos0, linhas);

    ghost var f := ReservarPedido(ViaEntityFramework, produtos0, linhas);
    assert f == Reserva(produtos, itens, valorTotal);
    PedidoReservadoMantemIntegridade(ViaEntityFramework, produtos0, old(db.pedidos), linhas, pedidoId, numero, agora, clienteId);

    if falhaAoSalvar {
      return Falha(FalhaBanco);
    }
    // Final SaveChanges: stock, lines and total together.
    db.produtos := produtos;
    db.pedidos := db.pedidos[pedidoId := pedido.(valorTotal := valorTotal, itens := itens)];
    assert db.pedidos == old(db.pedidos)[pedidoId := Pedido(numero, agora, Pendente, f.total, None, clienteId, f.itens)];
    r := Ok(pedidoId);
  }

  /** Both order screens load their list with `.Include(p => p.Cliente)` over the required
      `ClienteId`, which is an inner join: an order whose customer row is missing is not
      listed, and asking for it is "not found". */
  predicate ComCliente(pedidos: map<int, Pedido>, clientes: map<int, Cliente>, pedidoId: int)
  {
    pedidoId in pedidos && pedidos[pedidoId].clienteId in clientes
  }

  // ---------------------------------------------------------------------------
  // AtualizarStatusPedido
  // ---------------------------------------------------------------------------

  /** `AtualizarStatusPedido`. Only orders not `Cancelado` whose customer row exists are listed; `Cancelado` is refused
      as a target; the table refuses any other move it does not list. Stock is never touched.
      A save that throws (`falhaAoSalvar`) is caught and reported, and nothing is stored. */
  method AtualizarStatusPedido(db: BancoDados, pedidoId: int, novoStatus: StatusPedido, falhaAoSalvar: bool)
    returns (r: Resultado<StatusPedido>)
    requires db.Valid()
    modifies db
    ensures db.Valid()
    ensures r.Ok? <==> old(ComCliente(db.pedidos, db.clientes, pedidoId))
                       && Avanco(old(db.pedidos[pedidoId].status), novoStatus) && !falhaAoSalvar
    ensures (old(ComCliente(db.pedidos, db.clientes, pedidoId))
             && Avanco(old(db.pedidos[pedidoId].status), novoStatus) && falhaAoSalvar) ==>
              r == Falha(FalhaBanco)
    ensures r.Falha? ==> unchanged(db)
    ensures !(old(ComCliente(db.pedidos, db.clientes, pedidoId)) && old(db.pedidos[pedidoId].status) != Cancelado) ==>
              r == Falha(PedidoNaoEncontrado)
    ensures old(ComCliente(db.pedidos, db.clientes, pedidoId)) && old(db.pedidos[pedidoId].status) != Cancelado ==>
              var atual := old(db.pedidos[pedidoId].status);
              && (novoStatus == Cancelado ==> r == Falha(StatusInvalido))
              && (novoStatus != Cancelado && !Avanco(atual, novoStatus) ==> r == Falha(TransicaoInvalida(atual, novoStatus)))
    ensures r.Ok? ==>
              && r.valor == novoStatus
              && db.pedidos == old(db.pedidos)[pedidoId := old(db.pedidos[pedidoId]).(status := novoStatus)]
              && db.produtos == old(db.produtos)
              && db.clientes == old(db.clientes)
              && db.proximoPedidoId == old(db.proximoPedidoId)
              && db.proximoClienteId == old(db.proximoClienteId)
  {
    if !(ComCliente(db.pedidos, db.clientes, pedidoId) && db.pedidos[pedidoId].status != Cancelado) {
      return Falha(PedidoNaoEncontrado);
    }
    if novoStatus == Cancelado {
      return Falha(StatusInvalido);
    }
    var pedido := db.pedidos[pedidoId];
    var statusAtual := pedido.status;
    if statusAtual in TransicoesValidas && novoStatus !in TransicoesValidas[statusAtual] {
      return Falha(TransicaoInvalida(statusAtual, novoStatus));
    }
    if falhaAoSalvar {
      return Falha(FalhaBanco);
    }
    db.pedidos := db.pedidos[pedidoId := pedido.(status := novoStatus)];
    r := Ok(novoStatus);
  }

  // ---------------------------------------------------------------------------
  // CancelarPedido
  // ---------------------------------------------------------------------------

  /** `CancelarPedido`. Only pending or confirmed orders whose customer row exists are listed; the user must answer "S".
      Each line's quantity goes back to its product, then the order becomes `Cancelado`, all in
      one save; a save that throws (`falhaAoSalvar`) is caught and nothing is stored. */
  method CancelarPedido(db: BancoDados, pedidoId: int, confirma: bool, falhaAoSalvar: bool)
    returns (r: Resultado<()>)
    requires db.Valid()
    modifies db
    ensures db.Valid()
    ensures r.Ok? <==> old(ComCliente(db.pedidos, db.clientes, pedidoId))
                       && PodeCancelar(old(db.pedidos[pedidoId].status)) && confirma
                       && !falhaAoSalvar
    ensures (old(ComCliente(db.pedidos, db.clientes, pedidoId))
             && PodeCancelar(old(db.pedidos[pedidoId].status)) && confirma
             && falhaAoSalvar) ==> r == Falha(FalhaBanco)
    ensures r.Falha? ==> unchanged(db)
    ensures !(old(ComCliente(db.pedidos, db.clientes, pedidoId)) && PodeCancelar(old(db.pedidos[pedidoId].status))) ==>
              r == Falha(PedidoNaoEncontrado)
    ensures old(ComCliente(db.pedidos, db.clientes, pedidoId)) && PodeCancelar(old(db.pedidos[pedidoId].status)) && !confirma ==>
              r == Falha(OperacaoAbortada)
    ensures r.Ok? ==>
              && db.produtos == Restituir(old(db.produtos), old(db.pedidos[pedidoId].itens))
              && db.pedidos == old(db.pedidos)[pedidoId := old(db.pedidos[pedidoId]).(status := Cancelado)]
              && db.clientes == old(db.clientes)
              && db.proximoPedidoId == old(db.proximoPedidoId)
              && db.proximoClienteId == old(db.proximoClienteId)
  {
    if !(ComCliente(db.pedidos, db.clientes, pedidoId) && PodeCancelar(db.pedidos[pedidoId].status)) {
      return Falha(PedidoNaoEncontrado);
    }
    if !confirma {
      return Falha(OperacaoAbortada);
    }
    var pedido := db.pedidos[pedidoId];
    var produtos := db.produtos;
    var i := 0;
    while i < |pedido.itens|
      invariant 0 <= i <= |pedido.itens|
      invariant Restituir(produtos, pedido.itens[i..]) == Restituir(db.produtos, pedido.itens)
      invariant SoEstoqueMuda(db.produtos, produtos)
    {
      var item := pedido.itens[i];
      assert pedido.itens[i..][1..] == pedido.itens[i + 1..];
      if item.produtoId in produtos {
        produtos := produtos[item.produtoId := produtos[item.produtoId].(estoque := produtos[item.produtoId].estoque + item.quantidade)];
      }
      i := i + 1;
    }
    assert pedido.itens[i..] == [];
    if falhaAoSalvar {
      return Falha(FalhaBanco);
    }
    db.produtos := produtos;
    db.pedidos := db.pedidos[pedidoId := pedido.(status := Cancelado)];
    r := Ok(());
  }

  // ---------------------------------------------------------------------------
  // AtualizarProduto
  // ---------------------------------------------------------------------------

  /** The partial update of `AtualizarProduto`: a non-blank name or description replaces the
      old one, a price replaces it only when > 0, a stock only when >= 0; the rest is kept. */
  function ProdutoAtualizado(p: Produto, novoNome: string, novaDescricao: string,
                             novoPreco: Option<int>, novoEstoque: Option<int>): (r: Produto)
    ensures !EmBranco(novoNome) ==> r.nome == novoNome
    ensures r.nome != p.nome ==> !EmBranco(novoNome) && r.nome == novoNome
    ensures !EmBranco(novaDescricao) ==> r.descricao == Some(novaDescricao)
    ensures r.descricao != p.descricao ==> !EmBranco(novaDescricao) && r.descricao == Some(novaDescricao)
    ensures novoPreco.Some? && novoPreco.value > 0 ==> r.preco == novoPreco.value
    ensures r.preco != p.preco ==> novoPreco == Some(r.preco) && r.preco > 0
    ensures novoEstoque.Some? && novoEstoque.value >= 0 ==> r.estoque == novoEstoque.value
    ensures r.estoque != p.estoque ==> novoEstoque == Some(r.estoque) && r.estoque >= 0
    ensures r.ativo == p.ativo && r.categoriaId == p.categoriaId
  {
    var nome := if EmBranco(novoNome) then p.nome else novoNome;
    var descricao := if EmBranco(novaDescricao) then p.descricao else Some(novaDescricao);
    var preco := if novoPreco.Some? && novoPreco.value > 0 then novoPreco.value else p.preco;
    var estoque := if novoEstoque.Some? && novoEstoque.value >= 0 then novoEstoque.value else p.estoque;
    p.(nome := nome, descricao := descricao, preco := preco, estoque := estoque)
  }

  /** Answering the same prompts twice changes nothing more. */
  lemma ProdutoAtualizadoIdempotente(p: Produto, novoNome: string, novaDescricao: string,
                                     novoPreco: Option<int>, novoEstoque: Option<int>)
    ensures var q := ProdutoAtualizado(p, novoNome, novaDescricao, novoPreco, novoEstoque);
      ProdutoAtualizado(q, novoNome, novaDescricao, novoPreco, novoEstoque) == q
  {
  }

  /** The update keeps a valid row valid: stock >= 0 and price > 0 survive it. */
  lemma ProdutoAtualizadoMantemLimites(p: Produto, novoNome: string, novaDescricao: string,
                                       novoPreco: Option<int>, novoEstoque: Option<int>)
    requires p.estoque >= 0 && p.preco > 0
    ensures ProdutoAtualizado(p, novoNome, novaDescricao, novoPreco, novoEstoque).estoque >= 0
    ensures ProdutoAtualizado(p, novoNome, novaDescricao, novoPreco, novoEstoque).preco > 0
  {
  }

  /** `AtualizarProduto`: only an active product can be updated; the fields are assigned one
      prompt at a time on the tracked entity, then saved; a save that throws (`falhaAoSalvar`)
      is caught and nothing is stored. */
  method AtualizarProduto(db: BancoDados, produtoId: int, novoNome: string, novaDescricao: string,
                          novoPreco: Option<int>, novoEstoque: Option<int>, falhaAoSalvar: bool)
    returns (r: Resultado<()>)
    requires db.Valid()
    modifies db
    ensures db.Valid()
    ensures r.Ok? <==> produtoId in old(db.produtos) && old(db.produtos[produtoId].ativo) && !falhaAoSalvar
    ensures r.Falha? ==> unchanged(db)
    ensures !(produtoId in old(db.produtos) && old(db.produtos[produtoId].ativo)) ==> r == Falha(ProdutoNaoEncontrado)
    ensures produtoId in old(db.produtos) && old(db.produtos[produtoId].ativo) && falhaAoSalvar ==>
              r == Falha(FalhaBanco)
    ensures r.Ok? ==>
              && db.produtos == old(db.produtos)[produtoId :=
                   ProdutoAtualizado(old(db.produtos[produtoId]), novoNome, novaDescricao, novoPreco, novoEstoque)]
              && db.pedidos == old(db.pedidos)
              && db.clientes == old(db.clientes)
              && db.proximoPedidoId == old(db.proximoPedidoId)
              && db.proximoClienteId == old(db.proximoClienteId)
  {
    if !(produtoId in db.produtos && db.produtos[produtoId].ativo) {
      return Falha(ProdutoNaoEncontrado);
    }
    var produto := db.produtos[produtoId];
    if !EmBranco(novoNome) {
      produto := produto.(nome := novoNome);
    }
    if !EmBranco(novaDescricao) {
      produto := produto.(descricao := Some(novaDescricao));
    }
    if novoPreco.Some? && novoPreco.value > 0 {
      produto := produto.(preco := novoPreco.value);
    }
    if novoEstoque.Some? && novoEstoque.value >= 0 {
      produto := produto.(estoque := novoEstoque.value);
    }
    if falhaAoSalvar {
      return Falha(FalhaBanco);
    }
    db.produtos := db.produtos[produtoId := produto];
    r := Ok(());
  }

  // ---------------------------------------------------------------------------
  // CriarCliente / AtualizarCliente
  // ---------------------------------------------------------------------------

  predicate Digito(c: char)
  {
    '0' <= c <= '9'
  }

  /** `Regex.Replace(cpf, "[^0-9]", "")`: the digits of `s`, in order. A single character is
      kept iff it is a digit; with `SomenteDigitosConcat` this fixes the result for every `s`. */
  function SomenteDigitos(s: string): (r: string)
    ensures forall i :: 0 <= i < |r| ==> Digito(r[i])
    ensures |r| <= |s|
    ensures (forall i :: 0 <= i < |s| ==> Digito(s[i])) ==> r == s
    ensures |s| == 1 ==> r == (if Digito(s[0]) then s else [])
  {
    if s == [] then []
    else if Digito(s[0]) then [s[0]] + SomenteDigitos(s[1..])
    else SomenteDigitos(s[1..])
  }

  /** Removing the non-digits is idempotent. */
  lemma SomenteDigitosIdempotente(s: string)
    ensures SomenteDigitos(SomenteDigitos(s)) == SomenteDigitos(s)
  {
  }

  /** Every digit of `s`, and only those, reaches the result, in the same order: the result is
      `s` with the non-digits taken out. */
  lemma {:induction false} SomenteDigitosConcat(a: string, b: string)
    ensures SomenteDigitos(a + b) == SomenteDigitos(a) + SomenteDigitos(b)
  {
    if a != [] {
      assert (a + b)[0] == a[0];
      assert (a + b)[1..] == a[1..] + b;
      SomenteDigitosConcat(a[1..], b);
    } else {
      assert a + b == b;
    }
  }

  /** The CPF step of `CriarCliente`: a blank answer stores no CPF; anything else is reduced to
      its digits and accepted only when exactly 11 remain. */
  function NormalizarCpf(cpf: string): (r: Resultado<Option<string>>)
    ensures EmBranco(cpf) <==> r == Ok(None)
    ensures !EmBranco(cpf) ==> (r.Ok? <==> |SomenteDigitos(cpf)| == 11)
    ensures r.Ok? && r.valor.Some? ==>
              && r.valor.value == SomenteDigitos(cpf)
              && |r.valor.value| == 11
              && forall i :: 0 <= i < 11 ==> Digito(r.valor.value[i])
    ensures r.Falha? ==> r.erro == CpfInvalido
  {
    if EmBranco(cpf) then Ok(None)
    else
      var digitos := SomenteDigitos(cpf);
      if |digitos| != 11 then Falha(CpfInvalido) else Ok(Some(digitos))
  }

  /** A separator between two pieces contributes no digit. */
  lemma JuntarComSeparador(x: string, sep: char, y: string)
    requires !Digito(sep)
    ensures SomenteDigitos(x + [sep] + y) == SomenteDigitos(x) + SomenteDigitos(y)
  {
    assert SomenteDigitos([sep]) == [] by {
      assert [sep][1..] == [];
    }
    SomenteDigitosConcat(x, [sep]);
    SomenteDigitosConcat(x + [sep], y);
  }

  /** A slice of an all-digit string is kept whole. */
  lemma TrechoDeDigitos(d: string, i: nat, j: nat)
    requires i <= j <= |d| && forall k :: 0 <= k < |d| ==> Digito(d[k])
    ensures SomenteDigitos(d[i..j]) == d[i..j]
  {
    assert forall k :: 0 <= k < j - i ==> d[i..j][k] == d[i + k];
  }

  /** A CPF typed with its usual punctuation, `ddd.ddd.ddd-dd`, is stored as its 11 digits. */
  lemma CpfFormatado(d: string)
    requires |d| == 11 && forall i :: 0 <= i < 11 ==> Digito(d[i])
    ensures NormalizarCpf(d[..3] + "." + d[3..6] + "." + d[6..9] + "-" + d[9..]) == Ok(Some(d))
  {
    var a, b, c, e := d[..3], d[3..6], d[6..9], d[9..];
    TrechoDeDigitos(d, 0, 3);
    TrechoDeDigitos(d, 3, 6);
    TrechoDeDigitos(d, 6, 9);
    TrechoDeDigitos(d, 9, 11);
    assert d[..3] == d[0..3] && d[9..] == d[9..11];
    JuntarComSeparador(a, '.', b);
    JuntarComSeparador(a + "." + b, '.', c);
    JuntarComSeparador(a + "." + b + "." + c, '-', e);
    var cpf := a + "." + b + "." + c + "-" + e;
    assert SomenteDigitos(cpf) == a + b + c + e;
    assert a + b + c + e == d;
    assert cpf[0] == d[0] && !EspacoEmBranco(cpf[0]);
  }

  /** An optional field: a blank answer is stored as null. */
  function OpcionalSeBranco(s: string): Option<string>
  {
    if EmBranco(s) then None else Some(s)
  }

  predicate EmailEmUso(clientes: map<int, Cliente>, email: string)
  {
    exists id :: id in clientes && clientes[id].email == email
  }

  /** `CriarCliente`: name and email are required, the email must be new, the CPF goes through
      `NormalizarCpf`; the customer is stored active under the next id, unless the save
      throws (`falhaAoSalvar`), which is caught and stores nothing. */
  method CriarCliente(db: BancoDados, nome: string, email: string, cpf: string, telefone: string,
                      endereco: string, cidade: string, estado: string, cep: string, falhaAoSalvar: bool)
    returns (r: Resultado<int>)
    requires db.Valid()
    modifies db
    ensures db.Valid()
    ensures r.Falha? ==> unchanged(db)
    ensures EmBranco(nome) ==> r == Falha(NomeObrigatorio)
    ensures !EmBranco(nome) && EmBranco(email) ==> r == Falha(EmailObrigatorio)
    ensures !EmBranco(nome) && !EmBranco(email) && old(EmailEmUso(db.clientes, email)) ==> r == Falha(EmailDuplicado)
    ensures !EmBranco(nome) && !EmBranco(email) && !old(EmailEmUso(db.clientes, email)) && NormalizarCpf(cpf).Falha? ==>
              r == Falha(CpfInvalido)
    ensures r.Ok? <==> !EmBranco(nome) && !EmBranco(email) && !old(EmailEmUso(db.clientes, email)) && NormalizarCpf(cpf).Ok?
                       && !falhaAoSalvar
    ensures (!EmBranco(nome) && !EmBranco(email) && !old(EmailEmUso(db.clientes, email)) && NormalizarCpf(cpf).Ok?
             && falhaAoSalvar) ==> r == Falha(FalhaBanco)
    ensures r.Ok? ==>
              && r.valor == old(db.proximoClienteId)
              && r.valor !in old(db.clientes)
              && db.clientes == old(db.clientes)[r.valor := Cliente(nome, email, OpcionalSeBranco(telefone),
                   NormalizarCpf(cpf).valor, OpcionalSeBranco(endereco), OpcionalSeBranco(cidade),
                   OpcionalSeBranco(estado), OpcionalSeBranco(cep), true)]
              && db.proximoClienteId == r.valor + 1
              && db.produtos == old(db.produtos)
              && db.pedidos == old(db.pedidos)
              && db.proximoPedidoId == old(db.proximoPedidoId)
  {
    if EmBranco(nome) {
      return Falha(NomeObrigatorio);
    }
    if EmBranco(email) {
      return Falha(EmailObrigatorio);
    }
    if EmailEmUso(db.clientes, email) {
      return Falha(EmailDuplicado);
    }
    var cpfNormalizado := NormalizarCpf(cpf);
    if cpfNormalizado.Falha? {
      return Falha(CpfInvalido);
    }
    var cliente := Cliente(nome, email, OpcionalSeBranco(telefone), cpfNormalizado.valor,
                           OpcionalSeBranco(endereco), OpcionalSeBranco(cidade),
                           OpcionalSeBranco(estado), OpcionalSeBranco(cep), true);
    if falhaAoSalvar {
      return Falha(FalhaBanco);
    }
    var id := db.proximoClienteId;
    db.clientes := db.clientes[id := cliente];
    db.proximoClienteId := id + 1;
    r := Ok(id);
  }

  /** The email check of `AtualizarCliente`: no OTHER customer has it. */
  predicate EmailLivrePara(clientes: map<int, Cliente>, email: string, clienteId: int)
  {
    forall id :: id in clientes && clientes[id].email == email ==> id == clienteId
  }

  /** The partial update of `AtualizarCliente`: each non-blank answer replaces its field
      (name, email, phone, address, city, state); CPF, CEP and the active flag are kept. */
  function ClienteAtualizado(c: Cliente, novoNome: string, novoEmail: string, novoTelefone: string,
                             novoEndereco: string, novaCidade: string, novoEstado: string): (r: Cliente)
    ensures r.email != c.email ==> !EmBranco(novoEmail) && r.email == novoEmail
    ensures !EmBranco(novoEmail) ==> r.email == novoEmail
    ensures r.nome != c.nome ==> !EmBranco(novoNome) && r.nome == novoNome
    ensures !EmBranco(novoNome) ==> r.nome == novoNome
    ensures EmBranco(novoTelefone) ==> r.telefone == c.telefone
    ensures !EmBranco(novoTelefone) ==> r.telefone == Some(novoTelefone)
    ensures EmBranco(novoEndereco) ==> r.endereco == c.endereco
    ensures !EmBranco(novoEndereco) ==> r.endereco == Some(novoEndereco)
    ensures EmBranco(novaCidade) ==> r.cidade == c.cidade
    ensures !EmBranco(novaCidade) ==> r.cidade == Some(novaCidade)
    ensures EmBranco(novoEstado) ==> r.estado == c.estado
    ensures !EmBranco(novoEstado) ==> r.estado == Some(novoEstado)
    ensures r.cpf == c.cpf && r.cep == c.cep && r.ativo == c.ativo
  {
    c.(nome := if EmBranco(novoNome) then c.nome else novoNome,
       email := if EmBranco(novoEmail) then c.email else novoEmail,
       telefone := if EmBranco(novoTelefone) then c.telefone else Some(novoTelefone),
       endereco := if EmBranco(novoEndereco) then c.endereco else Some(novoEndereco),
       cidade := if EmBranco(novaCidade) then c.cidade else Some(novaCidade),
       estado := if EmBranco(novoEstado) then c.estado else Some(novoEstado))
  }

  /** Writing back an updated customer keeps emails unique exactly when the new email is free
      for that customer: the uniqueness check may ignore the customer itself. */
  lemma AtualizacaoMantemEmailsUnicos(clientes: map<int, Cliente>, clienteId: int, c: Cliente)
    requires EmailsUnicos(clientes) && clienteId in clientes
    ensures EmailsUnicos(clientes[clienteId := c]) <==> EmailLivrePara(clientes, c.email, clienteId)
  {
    var m := clientes[clienteId := c];
    if EmailLivrePara(clientes, c.email, clienteId) {
      forall a, b | a in m && b in m && m[a].email == m[b].email ensures a == b {
        if a != clienteId && b != clienteId {
          assert clientes[a].email == clientes[b].email;
        }
      }
    } else {
      var outro :| outro in clientes && clientes[outro].email == c.email && outro != clienteId;
      assert m[outro].email == m[clienteId].email;
    }
  }

  /** `AtualizarCliente`: only an active customer; a new email taken by another customer stops
      the update before anything is saved; a save that throws (`falhaAoSalvar`) is caught and
      stores nothing. */
  method AtualizarCliente(db: BancoDados, clienteId: int, novoNome: string, novoEmail: string,
                          novoTelefone: string, novoEndereco: string, novaCidade: string, novoEstado: string,
                          falhaAoSalvar: bool)
    returns (r: Resultado<()>)
    requires db.Valid()
    modifies db
    ensures db.Valid()
    ensures r.Falha? ==> unchanged(db)
    ensures !old(ClienteAtivo(db.clientes, clienteId)) ==> r == Falha(ClienteNaoEncontrado)
    ensures old(ClienteAtivo(db.clientes, clienteId)) ==>
              (r == Falha(EmailDuplicado) <==> !EmBranco(novoEmail) && !old(EmailLivrePara(db.clientes, novoEmail, clienteId)))
    ensures (old(ClienteAtivo(db.clientes, clienteId))
             && !(!EmBranco(novoEmail) && !old(EmailLivrePara(db.clientes, novoEmail, clienteId)))) ==>
              (r.Ok? <==> !falhaAoSalvar) && (falhaAoSalvar ==> r == Falha(FalhaBanco))
    ensures r.Ok? ==>
              && old(ClienteAtivo(db.clientes, clienteId))
              && db.clientes == old(db.clientes)[clienteId := ClienteAtualizado(old(db.clientes[clienteId]),
                   novoNome, novoEmail, novoTelefone, novoEndereco, novaCidade, novoEstado)]
              && db.produtos == old(db.produtos)
              && db.pedidos == old(db.pedidos)
              && db.proximoPedidoId == old(db.proximoPedidoId)
              && db.proximoClienteId == old(db.proximoClienteId)
  {
    if !ClienteAtivo(db.clientes, clienteId) {
      return Falha(ClienteNaoEncontrado);
    }
    var cliente := db.clientes[clienteId];
    if !EmBranco(novoNome) {
      cliente := cliente.(nome := novoNome);
    }
    if !EmBranco(novoEmail) {
      if !EmailLivrePara(db.clientes, novoEmail, clienteId) {
        return Falha(EmailDuplicado);
      }
      cliente := cliente.(email := novoEmail);
    }
    if !EmBranco(novoTelefone) {
      cliente := cliente.(telefone := Some(novoTelefone));
    }
    if !EmBranco(novoEndereco) {
      cliente := cliente.(endereco := Some(novoEndereco));
    }
    if !EmBranco(novaCidade) {
      cliente := cliente.(cidade := Some(novaCidade));
    }
    if !EmBranco(novoEstado) {
      cliente := cliente.(estado := Some(novoEstado));
    }
    assert cliente == ClienteAtualizado(db.clientes[clienteId], novoNome, novoEmail, novoTelefone,
                                        novoEndereco, novaCidade, novoEstado);
    if falhaAoSalvar {
      return Falha(FalhaBanco);
    }
    AtualizacaoMantemEmailsUnicos(db.clientes, clienteId, cliente);
    db.clientes := db.clientes[clienteId := cliente];
    r := Ok(());
  }
}
