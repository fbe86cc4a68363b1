# CheckPoint1 store: orders and stock, in Dafny

This project models the order-and-stock core of the CheckPoint1 store, a C# console
application over one SQLite database. It has two service layers:

- `EntityFrameworkService` uses a tracked EF Core context.
- `AdoNetService` uses hand-written SQL inside explicit transactions.

Both services read and write the same tables: products with a price, an integer stock, an
active flag and a category; customers with a unique email; orders with a unique number, a
status, a total, a customer and their lines.

The model follows the source's own form.

- **Entities are datatypes** (`Modelos`). Money is held as whole cents, so the
  `decimal(10,2)` columns are exact. Dates are integer timestamps.
- **The database is one class, `Contexto.BancoDados`.** Its tables are `map` fields and it
  has two id sequences. `Valid()` holds what the schema guarantees at every commit:
  - order numbers are unique;
  - customer emails are unique;
  - every order line names an existing product (the `Restrict` rule);
  - every id in use is below its sequence.

  Stock >= 0 is deliberately not part of `Valid()`, because the batch adjust can break it.
  In the source, a restock that passes the 32-bit `int` limit can break it too; the model
  does not capture that (see "## Left out").
- **Every writing operation is a method that `modifies db`.**
  - A console prompt becomes a parameter; a "S/N" confirmation becomes a `bool`.
  - A clock read becomes an input: the order number, the date and the purge cut-off.
  - An exception that the source catches around a save or a transaction becomes a flag:
    `falhaAoSalvar` on every Entity Framework writer, `erroBanco` on the ADO.NET writers
    that roll back. The purge catches nothing and has no flag.
  - Each early `return` becomes a `Falha(...)` result that leaves the database unchanged.
- **Loops over order lines, restocking and the batch adjust are `while` loops.** Each runs
  on a local copy, which stands for the tracked entities or the open transaction, and
  commits at the end. Each loop is proved equal to a specification function in `Estoque`
  or `AdoNetService`. The lemmas about those functions state what the source promises:
  - stock conservation;
  - stock never below zero through an order;
  - the total equals the sum of the line subtotals;
  - creating and then cancelling an order restores every product row.
- **The transition table of `AtualizarStatusPedido` is a constant map** (`Transicoes`).
  Lemmas show that the only allowed moves are the three forward edges.
- **The context configuration is pure** (`Contexto`). It gives the unique indexes, the
  cascade and restrict delete rules as functions on the tables, and the seed rows.

The code's rules differ from what one might expect in these places:

- **A bad order line is skipped, not fatal.** The code skips a line whose quantity is not
  positive, whose product is unknown (or inactive, on the EF path), or whose quantity
  exceeds the current stock. The order goes on without it. Nothing aborts the whole order.
- **The batch adjust accepts any integer, negatives included.** An answer that does not
  parse only skips its product. A negative entry does not undo the others.
  `AdoNetService.LotePermiteEstoqueNegativo` shows a database with every stock >= 0
  taken to one with a negative stock.
- **EF order creation is not atomic.** It saves the order row, with total 0, before any
  line. If the final save fails, that row stays.
- **Seed order 2 does not carry the sum of its lines.** It stores 149.98 against lines
  worth 169.98 (`Contexto.TotaisDaSemente`). So "total = sum of lines" is proved as a
  postcondition of the two create operations, not as a table invariant.

## Model

| member | source | states |
|---|---|---|
| `Modelos.SubtotalSemDesconto` | CP1/CheckPoint1/Models/PedidoItem.cs:21 | a line without a discount is worth quantity × unit price (`Desconto ?? 0`) |
| `Modelos.DescontoReduzSubtotal` | CP1/CheckPoint1/Models/PedidoItem.cs:21 | a discount d lowers the subtotal by exactly d |
| `Modelos.SubtotalLimitado` | CP1/CheckPoint1/Models/PedidoItem.cs:13-21 | a discount between 0 and the gross amount keeps the subtotal between 0 and the gross amount |
| `Modelos.SomaSubtotaisConcat` | CP1/CheckPoint1/Services/EntityFrameworkService.cs:662 | the sum of subtotals is additive over concatenated line lists, so a running total can be kept line by line |
| `Estoque.TotalIgualSomaDosItens` | CP1/CheckPoint1/Services/EntityFrameworkService.cs:649-667 | on both paths, when the running total starts equal to the sum of the subtotals (as it does for an empty order) it stays equal after every line |
| `Estoque.ItensDaReserva` | CP1/CheckPoint1/Services/EntityFrameworkService.cs:627-657 | lines are only appended; each new line has quantity > 0, names an existing product (active, on the EF path), carries that product's price at the start and no discount |
| `Estoque.ConservacaoDoEstoque` | CP1/CheckPoint1/Services/EntityFrameworkService.cs:635-660 | only stocks change, no product row is added or removed, and for every product stock + units held by the order's lines stays constant |
| `Estoque.EstoqueNuncaNegativo` | CP1/CheckPoint1/Services/EntityFrameworkService.cs:642-660 | a stock that starts >= 0 is still >= 0 after any run of order lines |
| `Estoque.QuantidadeReservadaLimitada` | CP1/CheckPoint1/Services/AdoNetService.cs:384-404 | the units of one product taken by all lines of an order never exceed that product's starting stock, repeated lines included |
| `Estoque.OutrosProdutosIntactos` | CP1/CheckPoint1/Services/EntityFrameworkService.cs:660 | a product that no line names keeps its row unchanged |
| `Estoque.IncrementosCoincidem` | CP1/CheckPoint1/Services/AdoNetService.cs:407 | the ADO.NET increment `Preco * Quantidade` equals the EF increment `Subtotal` for a line without a discount |
| `Estoque.AceitaEfImplicaAceitaAdo` | CP1/CheckPoint1/Services/AdoNetService.cs:364-384 | every line the EF path accepts, the ADO.NET path accepts too (it lacks only the `Ativo` filter) |
| `Estoque.RestituirSoma` | CP1/CheckPoint1/Services/EntityFrameworkService.cs:867-870 | restocking adds to each product exactly the units the lines hold for it and changes nothing else |
| `Estoque.RestituirNaoNegativo` | CP1/CheckPoint1/Services/AdoNetService.cs:560-567 | restocking with non-negative quantities never lowers a stock |
| `Estoque.ReservarERestituir` | CP1/CheckPoint1/Services/EntityFrameworkService.cs:867-873 | giving back the lines an order took restores every product row exactly (round trip of create and cancel/return) |
| `Estoque.PedidoReservadoMantemIntegridade` | CP1/CheckPoint1/Context/CheckpointContext.cs:106-124 | storing the order a line loop produced, under a fresh id and an unused number, keeps numbers unique and every line naming a product; only stocks change and the total is the sum of the lines |
| `Transicoes.AvancosSaoAsTresArestas` | CP1/CheckPoint1/Services/EntityFrameworkService.cs:781-794 | a status change is allowed iff it is Pendente→Confirmado, Confirmado→EmAndamento or EmAndamento→Entregue |
| `Transicoes.AvancoUmPasso` | CP1/CheckPoint1/Services/EntityFrameworkService.cs:781-787 | every allowed change moves exactly one step forward; Entregue and Cancelado have no successor and Cancelado is never a target |
| `Transicoes.TabelaSozinhaNaoProtegeCancelado` | CP1/CheckPoint1/Services/EntityFrameworkService.cs:789-790 | the table check alone lets a cancelled order go anywhere; the `Status != Cancelado` filter (line 724) is what forbids it |
| `Transicoes.EtapaAoLongoDoHistorico` | CP1/CheckPoint1/Services/EntityFrameworkService.cs:781-796 | along any run of allowed updates, the k-th status is k steps after the first |
| `Transicoes.EntregaPassaPorTodasAsEtapas` | CP1/CheckPoint1/Services/EntityFrameworkService.cs:781-787 | status updates take a pending order to delivery only through exactly Pendente, Confirmado, EmAndamento, Entregue |
| `Transicoes.CanceladoTerminal` | CP1/CheckPoint1/Services/EntityFrameworkService.cs:817 | a cancelled order accepts no update, cancellation or return; an order EmAndamento can be neither cancelled nor returned |
| `Contexto.PedidoComNumero` | CP1/CheckPoint1/Services/AdoNetService.cs:486-497 | the lookup by order number finds the order carrying that number, or reports that none does |
| `Contexto.ExcluirProduto` | CP1/CheckPoint1/Context/CheckpointContext.cs:106-110 | deleting a product fails iff some order line names it; otherwise only that row goes, every other product row keeps its contents, and every line still names a product |
| `Contexto.ExcluirCliente` | CP1/CheckPoint1/Context/CheckpointContext.cs:90-94 | deleting a customer removes that customer's row and exactly their orders, with their lines; every other customer and order row is kept as it was |
| `Contexto.ExcluirCategoria` | CP1/CheckPoint1/Context/CheckpointContext.cs:82-86 | deleting a category removes exactly its products, keeps every other product row as it was, and fails as a whole iff one of them is named by an order line |
| `Contexto.ExcluirPedidoMantemIntegridade` | CP1/CheckPoint1/Context/CheckpointContext.cs:98-102 | deleting orders takes their lines with them and keeps unique numbers and the line/product rule |
| `Contexto.BancoDados.Semente` | CP1/CheckPoint1/Context/CheckpointContext.cs:140-174 | the freshly created database holds exactly the seed rows and satisfies the schema invariant |
| `Contexto.TotaisDaSemente` | CP1/CheckPoint1/Context/CheckpointContext.cs:164-173 | seed order 1's total equals its lines (939.98); seed order 2's lines sum to 169.98 and its total is 20.00 less |
| `Contexto.SementeConsistente` | CP1/CheckPoint1/Context/CheckpointContext.cs:147-173 | every seed stock is >= 0 and every seed line names a seed product |
| `EntityFrameworkService.CriarPedido` | CP1/CheckPoint1/Services/EntityFrameworkService.cs:544-678 | unknown or inactive customer and duplicate number change nothing; otherwise a Pendente order with the next id is stored; with a successful final save its lines, total (= sum of subtotals) and stock are those of the EF reservation; with a failed one it stays with total 0, no lines, stock untouched |
| `EntityFrameworkService.AtualizarStatusPedido` | CP1/CheckPoint1/Services/EntityFrameworkService.cs:718-807 | succeeds iff the order exists and its customer row exists (the inner join of `.Include(p => p.Cliente)`), the change is an allowed forward edge and the save does not fail; errors name a missing, customer-less or cancelled order, Cancelado as target, both states of a refused move, or the failed save; only that order's status changes, never stock |
| `EntityFrameworkService.CancelarPedido` | CP1/CheckPoint1/Services/EntityFrameworkService.cs:809-883 | succeeds iff the order is Pendente or Confirmado and its customer row exists (the inner join of `.Include(p => p.Cliente)`), the user confirms and the save does not fail; then every line's quantity goes back to its product and the order becomes Cancelado; any refusal or failed save changes nothing |
| `EntityFrameworkService.ProdutoAtualizado` | CP1/CheckPoint1/Services/EntityFrameworkService.cs:281-295 | name and description change iff the answer is non-blank, price iff the answer is > 0, stock iff the answer is >= 0, each to the answer; active flag and category are kept |
| `EntityFrameworkService.ProdutoAtualizadoIdempotente` | CP1/CheckPoint1/Services/EntityFrameworkService.cs:281-295 | applying the same answers twice is the same as once |
| `EntityFrameworkService.ProdutoAtualizadoMantemLimites` | CP1/CheckPoint1/Services/EntityFrameworkService.cs:289-295 | the update keeps stock >= 0 and price > 0 |
| `EntityFrameworkService.AtualizarProduto` | CP1/CheckPoint1/Services/EntityFrameworkService.cs:254-306 | only an active product is updated, to exactly the partial update of its row, when the save succeeds; a missing or inactive product, or a failed save, fails with its own error and no change |
| `EntityFrameworkService.LinhasDoPedido` | CP1/CheckPoint1/Services/EntityFrameworkService.cs:599-664 | the EF line loop yields exactly the stock, lines and total of the EF reservation of the answered lines |
| `EntityFrameworkService.SomenteDigitos` | CP1/CheckPoint1/Services/EntityFrameworkService.cs:353 | the result holds only digits, is no longer than the input, is the input itself when that is all digits, and keeps a single character iff it is a digit |
| `EntityFrameworkService.SomenteDigitosIdempotente` | CP1/CheckPoint1/Services/EntityFrameworkService.cs:353 | removing non-digits twice is the same as once |
| `EntityFrameworkService.SomenteDigitosConcat` | CP1/CheckPoint1/Services/EntityFrameworkService.cs:353 | removing non-digits works piece by piece: the digits of a + b are the digits of a followed by those of b |
| `EntityFrameworkService.NormalizarCpf` | CP1/CheckPoint1/Services/EntityFrameworkService.cs:350-358 | a blank CPF is stored as null; otherwise it is accepted iff exactly 11 digits remain, and then stored as those digits |
| `EntityFrameworkService.CpfFormatado` | CP1/CheckPoint1/Services/EntityFrameworkService.cs:350-358 | any CPF typed as ddd.ddd.ddd-dd is stored as its 11 digits |
| `EntityFrameworkService.CriarCliente` | CP1/CheckPoint1/Services/EntityFrameworkService.cs:318-402 | blank name, blank email, an email already used, a bad CPF or a failed save fails with its own error and no change; otherwise an active customer with the normalised CPF and nulls for blank optional fields is stored under the next id |
| `EntityFrameworkService.ClienteAtualizado` | CP1/CheckPoint1/Services/EntityFrameworkService.cs:476-515 | name, email, phone, address, city and state each change iff the answer is non-blank, to the answer; CPF, CEP and the active flag are kept |
| `EntityFrameworkService.AtualizacaoMantemEmailsUnicos` | CP1/CheckPoint1/Services/EntityFrameworkService.cs:487-495 | writing back an updated customer keeps emails unique iff no other customer has the new email, which is why the check excludes the customer itself |
| `EntityFrameworkService.AtualizarCliente` | CP1/CheckPoint1/Services/EntityFrameworkService.cs:453-526 | only an active customer is updated; a non-blank email taken by another customer fails iff so; past those checks it succeeds iff the save does not fail; any failure changes nothing, and success writes exactly the partial update of the row |
| `AdoNetService.IdsDaCategoria` | CP1/CheckPoint1/Services/AdoNetService.cs:218-228 | the batch sees exactly the products whose category is the chosen one, active or not |
| `AdoNetService.AjusteLote` | CP1/CheckPoint1/Services/AdoNetService.cs:246-261 | each product of the category with an integer answer gets exactly that stock; every other row is kept; only stocks change |
| `AdoNetService.AjusteLoteIdempotente` | CP1/CheckPoint1/Services/AdoNetService.cs:252-259 | repeating the batch with the same answers changes nothing more |
| `AdoNetService.LotePermiteEstoqueNegativo` | CP1/CheckPoint1/Services/AdoNetService.cs:252-259 | a negative answer is stored: the batch can take a database with all stocks >= 0 to one without |
| `AdoNetService.LoteNaoNegativoMantemEstoque` | CP1/CheckPoint1/Services/AdoNetService.cs:252-259 | with only non-negative answers every stock stays >= 0 |
| `AdoNetService.LerProdutosDaCategoria` | CP1/CheckPoint1/Services/AdoNetService.cs:222-228 | the reader loop lists each product of the category exactly once |
| `AdoNetService.AjustarListaConjunto` | CP1/CheckPoint1/Services/AdoNetService.cs:246-261 | the UPDATEs over the listed rows, in any order, equal updating that set of rows at once |
| `AdoNetService.RespondidosConjunto` | CP1/CheckPoint1/Services/AdoNetService.cs:259 | over a list without repetitions the affected-records count is the number of listed products with an integer answer |
| `AdoNetService.AplicarLote` | CP1/CheckPoint1/Services/AdoNetService.cs:246-261 | the `foreach` applies each answer to its row and counts one record per answered product |
| `AdoNetService.AtualizarEstoqueLote` | CP1/CheckPoint1/Services/AdoNetService.cs:190-273 | succeeds iff the category has products and no command fails; a category without products, or a failing command, changes nothing; otherwise the stocks become the batch adjust and the count is the number of answered products of the category |
| `AdoNetService.LinhasDoPedido` | CP1/CheckPoint1/Services/AdoNetService.cs:333-410 | the ADO.NET line loop yields exactly the stock, lines and total of the ADO.NET reservation of the answered lines |
| `AdoNetService.InserirPedidoCompleto` | CP1/CheckPoint1/Services/AdoNetService.cs:280-428 | succeeds iff the number is new and no command fails, a failing command being reported as a database failure; then a Pendente order under the next id holds the ADO.NET reservation's lines, total (= sum of subtotals) and stock, for the customer id as given; otherwise nothing changes |
| `AdoNetService.Purga` | CP1/CheckPoint1/Services/AdoNetService.cs:446-456 | exactly the orders that are Cancelado and dated before the cut-off are deleted; the others are kept as they were |
| `AdoNetService.PurgaSoCancelados` | CP1/CheckPoint1/Services/AdoNetService.cs:443-456 | no order in any other state is deleted, and a second purge with the same cut-off deletes nothing more |
| `AdoNetService.ExcluirDadosAntigos` | CP1/CheckPoint1/Services/AdoNetService.cs:435-458 | the orders table becomes its purge, the schema invariant holds, and the count is the number of rows deleted |
| `AdoNetService.ProcessarDevolucao` | CP1/CheckPoint1/Services/AdoNetService.cs:465-587 | an empty number, an unknown number, a cancelled order, a status other than Entregue/Confirmado, a refusal or a failing command each give their own error and change nothing; otherwise every line's quantity goes back to its product, the order becomes Cancelado, and its stored total is returned |
| `Cenarios.CriarECancelar` | CP1/CheckPoint1/Services/EntityFrameworkService.cs:867-873 | an order created and then cancelled through the EF screens leaves every product row as it was |
| `Cenarios.InserirConfirmarEDevolver` | CP1/CheckPoint1/Services/AdoNetService.cs:560-577 | succeeds iff the number is new and the customer exists; an order inserted through ADO.NET, confirmed, and returned gives every unit back; for an unknown customer the EF confirmation reports the order not found and it stays Pendente with its stock taken |
| `Cenarios.BuscaNaSemente` | CP1/CheckPoint1/Context/CheckpointContext.cs:163-166 | looking the seed orders up by number finds PED001 under id 1 and PED002 under id 2 |
| `Cenarios.DevolucaoNaSemente` | CP1/CheckPoint1/Context/CheckpointContext.cs:147-173 | giving back seed order 1's lines takes the Smartphone stock to 51 and the Camiseta stock to 101, nothing else |
| `Cenarios.DevolverPedidoDaSemente` | CP1/CheckPoint1/Context/CheckpointContext.cs:147-173 | returning seed order PED001 refunds 939.98 and brings the Smartphone from 50 to 51 and the Camiseta from 100 to 101, nothing else |
| `Cenarios.SaltoDeEtapaRecusado` | CP1/CheckPoint1/Services/EntityFrameworkService.cs:789-794 | seed order PED002 (Confirmado) cannot jump to Entregue: the refusal names both states and the orders stay as seeded |
| `Cenarios.LinhaRepetidaSemEstoque` | CP1/CheckPoint1/Services/EntityFrameworkService.cs:642-646 | with 5 units, a second request for 3 after a first one is skipped, not fatal: one line of 3, stock 2, total 119.97 |
| `Cenarios.ProdutoInativoSoPeloAdo` | CP1/CheckPoint1/Services/AdoNetService.cs:364 | an inactive product is skipped by the EF screen and sold by the ADO.NET screen |
| `Cenarios.NotebookSemEstoqueEFimDaLista` | CP1/CheckPoint1/Context/CheckpointContext.cs:149 | the seed Notebook (stock 0) is never sold, and no line after product id 0 is read |

## Left out

- Console I/O, menus and `Program.cs`. Each prompt is a parameter:
  - the order lines are a sequence of (product id, quantity), and an unparsable answer
    appears as a line the same rules skip or stop at;
  - the batch answers are a map from product id to the parsed integer, with no entry
    for an answer that does not parse;
  - each "S/N" answer is a `bool`.
- The read-only listings and reports, with their LINQ/SQL aggregations, averages and
  percentage growth. They compute nothing the rest relies on.
- EF Core and SQLite machinery: connections, `SaveChanges`, `BeginTransaction`/`Commit`/
  `Rollback`, `Dispose`, `EnsureCreated`. A transaction is "the new state or the old
  state". A caught save or transaction failure is a boolean parameter on the operation
  that catches it.
- Changes left pending in the tracked EF context after an early return or a failed save.
  Examples are a name already assigned before `AtualizarCliente` refuses an email, or the
  lines and stock of a failed `CriarPedido`. A later save in the same session could still
  write them; the model drops them.
- `EntityFrameworkService.CriarPedido`, `EntityFrameworkService.CancelarPedido`: they do
  not model stale entities in the session-long EF context. The source creates one context
  for the whole run, and a tracking query returns a product it already tracks without
  reloading it. So an EF screen can read a stock the ADO.NET screens have changed since,
  check a line against the old value and save over the ADO.NET write. The model reads the
  current tables on every call.
- Concurrency, row locking and lock-wait errors. The source has none; each operation is
  one sequential step.
- `DateTime.Now`. The order numbers `PED…`, the dates and the six-month cut-off are
  parameters. A clash of two numbers is modelled only as the insert failing.
- The integer casts of the status enum (`Enum.IsDefined`). Status is a five-constructor
  datatype, so an undefined value cannot be asked for.
- Foreign-key enforcement on the ADO.NET connection, which does not enable SQLite foreign
  keys. Two effects are not modelled:
  - `InserirPedidoCompleto` stores any customer id, and the model does the same. The EF
    status and cancel screens then do not list such an order (`ComCliente`).
  - The purge in SQL would leave the deleted orders' lines behind. In the model, lines
    live inside their order and go with it.
- `CriarProduto`, `CriarCategoria`, the category table and the customer fields no
  operation reads (registration date, order list). `CriarProduto` is not part of this
  model. So the default `Ativo = true` of `Produto.cs:25` appears only through the seed
  rows.
- `MaxLength`/`Required` annotations; `Observacoes`. They are storage constraints that no
  operation checks.
- `EntityFrameworkService.CancelarPedido`: does not model the 32-bit wrap-around of the
  unchecked C# `int` in `Estoque += Quantidade`. In the source, a stock at 2147483647
  (which `AtualizarProduto` accepts) plus one unit wraps to -2147483648. The model adds
  exactly, because stocks are unbounded integers throughout.
- `Estoque.Restituir`: does not model that wrap-around either. It adds quantities exactly,
  which is what `CancelarPedido` relies on.
- `Estoque.RestituirSoma`: states the exact sum. It does not hold under the 32-bit wrap of
  the Entity Framework path beyond `int.MaxValue`. The ADO.NET path adds in SQLite's
  64-bit integers, where the sum is exact for every stock the 32-bit columns can hold.
- Integer width elsewhere: prompts parsed with `int.TryParse` are 32-bit in the source.
  The model's parameters (batch answers, quantities, product ids, new stock) are unbounded
  integers, so out-of-range answers that the source would treat as unparsable are not
  singled out.
- Whitespace: `EmBranco` follows `IsNullOrWhiteSpace` for the ASCII and Latin-1
  whitespace characters only. The other Unicode separators are not modelled.
- `AdoNetService.AtualizarEstoqueLote`: it does not model the SELECT's row order. The
  list is read in an unspecified order, which is sound because each UPDATE touches its
  own row.
