# Bank accounts and their ledger, in Dafny

A model of the banking core of a small account API: the account objects
(`Conta`, with the checking variant `ContaCorrente` and the savings variant
`ContaPoupanca`), the transaction objects (`Deposito`, `Saque`,
`Rendimento`), and the two controllers that rebuild an account from its
database row, apply one operation and write the result back.

Layout, one module per source file:

- `erros.dfy` (`Erros`): the error kinds and `Resultado`, which stands in for
  Python's exceptions.
- `conta.dfy` (`Conta`): class `Conta` with holder, balance and history.
  Python's subclasses become one class with a `const variante` saying which
  subclass built the object, since every operation dispatches on it. The
  module also has the value-level effect of `depositar` (`EfeitoDeposito`)
  and the predicate `Registra`. `Registra` says: exactly one entry was
  appended, and the balance moved by exactly what that entry describes.
- `conta_corrente.dfy`, `conta_poupanca.dfy`: each variant's `sacar`,
  yield and fee. Each mutating method is proved against a pure effect
  function on `Extrato(saldo, transacoes)`.
- `variantes.dfy` (`Variantes`): the abstract `sacar` and
  `calcular_rendimento` of `Conta`, dispatched on the variant. It also holds
  the lemma about any run of deposits and withdrawals.
- `transacao.dfy` (`Transacao`): transaction values, their constructor
  check, `get_tipo` and `executar`.
- `modelos.dfy` (`Modelos`): the shape of the two table rows.
- `transacoes_controller.dfy`: `listar_transacoes` and
  `obter_estatisticas` as functions over the table contents.
- `contas_controller.dfy`: the database as class `Banco`, with
  `criar_conta`, `obter_conta`, `depositar` and `sacar`. `Banco` keeps the
  ledger invariant: each stored balance equals its account's deposit rows
  minus its withdrawal rows.

Amounts and rates are `real`. Timestamps are integers that the caller
supplies (`agora`).

## Model

| member | source | states |
|---|---|---|
| `Erros.StatusHttp` | app/controllers/contas_controller.py:40-43 | a missing account is HTTP 404 (`obter_conta` at contas_controller.py:43, and the two queries at transacoes_controller.py:13 and :29); every other error is HTTP 400: an invalid type (contas_controller.py:15), or an invalid amount or insufficient funds (contas_controller.py:106 and :151). The controllers' contracts state their status codes through it |
| `Conta.Conta.constructor` | app/poo/conta.py:8-11 | a new account has the given holder, balance 0 and an empty history; the holder is a `const` and never changes |
| `Conta.Conta.SetSaldo` | app/poo/conta.py:21-23 | the `saldo` setter replaces the balance and leaves the history (and the constant holder) untouched |
| `Conta.Conta.ObterSaldo` | app/poo/conta.py:51-53 | returns the balance property and changes nothing |
| `Conta.EfeitoDeposito` | app/poo/conta.py:29-39 | fails with an invalid amount iff `valor <= 0`; on success the balance grows by exactly `valor` and exactly one `("deposito", valor)` entry is appended with earlier entries unchanged |
| `Conta.Conta.Depositar` | app/poo/conta.py:29-39 | succeeds (returning True) iff `valor > 0`, leaving exactly the values `EfeitoDeposito` gives; on failure balance and history are unchanged |
| `ContaCorrente.Nova` | app/poo/conta_corrente.py:7-10 | a checking account starts at balance 0 with an empty history and keeps the given overdraft limit; the fee rate is the constant 0.10 |
| `ContaCorrente.EfeitoSaque` | app/poo/conta_corrente.py:16-32 | succeeds iff `0 < valor <= saldo + limite`; a non-positive amount is an invalid amount, a larger one is insufficient funds carrying `saldo + limite`; on success the balance drops by `valor`, one `"saque"` entry is appended, and the balance is at least `-limite` |
| `ContaCorrente.Sacar` | app/poo/conta_corrente.py:16-32 | leaves the account exactly as `EfeitoSaque` says and returns True, or changes nothing and returns the error |
| `ContaCorrente.CalcularRendimento` | app/poo/conta_corrente.py:34-36 | a checking account always yields 0 |
| `ContaCorrente.AplicarTaxa` | app/poo/conta_corrente.py:38-41 | returns `saldo * 0.10`, negative exactly when the balance is, and (being a function) changes neither balance nor history |
| `ContaCorrente.CenarioLimiteEspecial` | app/poo/conta_corrente.py:22-27 | with limit 200, withdrawing 150 from 0 leaves -150; a further 60 fails with 50 available |
| `ContaPoupanca.Nova` | app/poo/conta_poupanca.py:7-9 | a savings account starts at balance 0 with an empty history; the yield rate is the constant 0.05 |
| `ContaPoupanca.EfeitoSaque` | app/poo/conta_poupanca.py:11-24 | succeeds iff `0 < valor <= saldo`; the errors are an invalid amount or insufficient funds carrying the balance; on success the balance drops by `valor`, one `"saque"` entry is appended, and the balance is not negative |
| `ContaPoupanca.Sacar` | app/poo/conta_poupanca.py:11-24 | leaves the account exactly as `EfeitoSaque` says and returns True, or changes nothing and returns the error |
| `ContaPoupanca.CalcularRendimento` | app/poo/conta_poupanca.py:26-29 | returns `saldo * 0.05`, positive exactly when the balance is; a function, so two calls agree and nothing changes |
| `ContaPoupanca.EfeitoRendimento` | app/poo/conta_poupanca.py:31-40 | a positive balance grows to `saldo * 1.05` with exactly one `("rendimento", saldo * 0.05)` entry appended; otherwise nothing changes |
| `ContaPoupanca.AplicarRendimento` | app/poo/conta_poupanca.py:31-40 | returns the computed yield `old saldo * 0.05` in both outcomes and leaves the values `EfeitoRendimento` gives |
| `ContaPoupanca.RendimentoDeMil` | app/poo/conta_poupanca.py:26-35 | balance 1000 becomes 1050 with a single `("rendimento", 50)` entry |
| `ContaPoupanca.CenarioSaldoZero` | app/poo/conta_poupanca.py:16-24 | withdrawing 500 from 500 leaves 0; a further 1 fails with 0 available |
| `Variantes.EfeitoSaque` | app/poo/conta.py:41-44 | for either class, a withdrawal succeeds iff `0 < valor <= Disponivel` (balance plus limit, or balance); the error is an invalid amount or insufficient funds carrying `Disponivel`; on success one `"saque"` entry is logged and the class's balance rule holds |
| `Variantes.Sacar` | app/poo/conta.py:41-44 | `conta.sacar(valor)` runs the rule of the account's own class |
| `Variantes.CalcularRendimento` | app/poo/conta.py:46-49 | dispatched yield: 0 for a checking account, `saldo * 0.05` for a savings account |
| `Variantes.ExecucaoAcumulada` | app/poo/conta.py:29-44 | after any run of `depositar`/`sacar` calls, the history has only grown, by exactly one entry per successful call; the balance is the starting balance plus the logged deposits minus the logged withdrawals; and the class's balance rule still holds if it held at the start |
| `Transacao.Nova` | app/poo/transacao.py:8-20 | construction fails with an invalid amount iff `valor <= 0`; otherwise it returns a `TransacaoValida` (a transaction whose amount is positive, the only kind `executar` accepts) whose `valor` and `data` are the given amount and creation time; a datatype value is never reassigned |
| `Transacao.GetTipo` | app/poo/transacao.py:41-67 | `"deposito"`, `"saque"` and `"rendimento"` exactly for the three kinds |
| `Transacao.EfeitoExecutar` | app/poo/transacao.py:36-64 | a deposit or yield adds `valor` to the balance, appends nothing and succeeds |
| `Transacao.Executar` | app/poo/transacao.py:36-64 | `executar` leaves the account exactly as `EfeitoExecutar` says |
| `Transacao.ExecutarSaqueEhSacar` | app/poo/transacao.py:48-52 | `Saque(v).executar(c)` has the outcome of `c.sacar(v)`: same success condition, values and error |
| `Transacao.DepositoExecutarSemRegistro` | app/poo/transacao.py:36-39 | for `v > 0`, `Deposito(v).executar(c)` and `c.depositar(v)` reach the same balance, but only `depositar` appends an entry |
| `Transacao.RendimentoExecutarSemRegistro` | app/poo/transacao.py:61-64 | `Rendimento(v).executar(c)` adds `v` and appends nothing, for either class |
| `TransacoesController.DaConta` | app/controllers/transacoes_controller.py:16-17 | the account filter keeps exactly the rows whose `conta_id` matches, is no longer than the table, and is empty when none does |
| `TransacoesController.DaContaMultiplicidade` | app/controllers/transacoes_controller.py:16-17 | the account filter keeps each row of that account exactly as often as the table holds it, and no row of another account |
| `TransacoesController.SomaFiltradaPasso` | app/controllers/transacoes_controller.py:32-41 | one more row moves the filtered per-account, per-type total by that row's amount when it matches and by nothing otherwise |
| `TransacoesController.SomaFiltrada` | app/controllers/transacoes_controller.py:32-41 | filtering by account and type and then summing gives the one-pass per-account, per-type total |
| `TransacoesController.ObterEstatisticas` | app/controllers/transacoes_controller.py:23-53 | not found iff the account is missing; the deposit and withdrawal totals are the per-account sums of those rows (0 with no rows); the count covers all the account's rows; the balance is the stored one, unmodified |
| `TransacoesController.Inserir` | app/controllers/transacoes_controller.py:18 | inserting one row into a newest-first sequence keeps it newest first and adds exactly that row |
| `TransacoesController.OrdenarPorDataDesc` | app/controllers/transacoes_controller.py:18 | sorts newest first and is a permutation of its input |
| `TransacoesController.ListarTransacoes` | app/controllers/transacoes_controller.py:7-20 | not found iff the account is missing; otherwise the result holds exactly that account's rows, each as often as stored, ordered by `data` descending |
| `ContasController.SaldoRegistradoSomas` | app/controllers/transacoes_controller.py:32-41 | the net of an account's rows equals its deposit total minus its withdrawal total |
| `ContasController.EstatisticasConferem` | app/controllers/transacoes_controller.py:32-52 | in a database built by `criar_conta`, `depositar` and `sacar`, `saldo_atual == total_depositos - total_saques` |
| `ContasController.Rehidratar` | app/controllers/contas_controller.py:70-76 | type `"corrente"` rebuilds a checking account with the stored limit and any other type a savings account; either way the stored balance is copied in and the history is empty |
| `ContasController.Banco.ObterConta` | app/controllers/contas_controller.py:38-45 | the row with that id, or not found iff there is none |
| `ContasController.Banco.CriarConta` | app/controllers/contas_controller.py:10-35 | rejects a type other than `"corrente"`/`"poupanca"` and leaves the tables unchanged; otherwise inserts one row under a fresh id, with balance 0 and the limit stored only for `"corrente"` (0 for `"poupanca"`); keeps the ledger invariant |
| `ContasController.Banco.Gravar` | app/controllers/contas_controller.py:86-98 | the write-back `depositar` and `sacar` (contas_controller.py:131-143) end with: the account's new balance and the one transaction row that explains it are committed together, nothing else changes, and the ledger invariant is kept |
| `ContasController.Banco.Depositar` | app/controllers/contas_controller.py:64-106 | not found before anything else, then an invalid amount for `valor <= 0`; on success the stored balance becomes old + `valor` and exactly one `("deposito", valor)` row is added; a failure changes neither table and is HTTP 404 for a missing account, 400 otherwise; keeps the ledger invariant |
| `ContasController.Banco.Sacar` | app/controllers/contas_controller.py:109-151 | not found, then an invalid amount, then the class rule of the rebuilt account (`conta_obj.sacar`) decides; on success the stored balance becomes old − `valor` and exactly one `("saque", valor)` row is added; a failure changes neither table and is HTTP 404 for a missing account, 400 otherwise; keeps the ledger invariant |

The ledger invariant (`ContasController.Consistente`, part of
`Banco.Valid`) covers every row:

- the stored balance is the net of the account's transaction rows;
- the type is `"corrente"` or `"poupanca"`, and the limit is 0 for savings;
- a savings balance is never negative;
- a checking balance is never below `-limite_especial` (or below 0, if
  the stored limit is negative);
- every transaction row is a positive `"deposito"` or `"saque"` of an
  existing account.

## Behaviour worth noting

- `criar_conta` stores whatever `limite_especial` it is given for a
  checking account, negative included (app/controllers/contas_controller.py:28).
  That is why the checking-account rule in the invariant reads "at least
  `-limite` or at least 0".
- Only `criar_conta` rejects an unknown type
  (app/controllers/contas_controller.py:14-15). When `depositar` and `sacar`
  rebuild the account object from its row, any type other than
  `"corrente"` becomes a savings account
  (app/controllers/contas_controller.py:71-74 and 116-119).
- `Deposito.executar` and `Rendimento.executar` change the balance through
  the `saldo` setter and append no history entry (app/poo/transacao.py:38
  and 63; `Transacao.DepositoExecutarSemRegistro`,
  `Transacao.RendimentoExecutarSemRegistro`). The controller's `depositar`
  takes that path, and then adds the transaction row itself, so the ledger
  invariant still holds.

## Left out

- HTTP routing and application start-up (app/main.py): plumbing.
- The ORM session, engine, commit and refresh (app/database.py): replaced
  by the `Banco` tables. `listar_contas` and `deletar_conta` (with its
  cascade of transaction rows) are not part of this model.
- Request validation by the schemas (app/schemas.py): the model takes any
  holder and any amount. Every check the core itself makes is modelled.
- Floating point: amounts are exact reals. There is no rounding, no NaN
  or infinity, and no `:.2f` message text. An error carries only its kind
  and, for insufficient funds, the available amount.
- The error message strings and the success messages of the controllers:
  only the kind and the new balance are returned.
- `datetime.now()`: the timestamp is a caller-supplied integer (`agora`).
- The id column of transaction rows: a row's position in the table stands
  for it. Account ids come from a counter kept above every id in use; it
  stands in for the database's autoincrement.
- `transacoes` getter: Python hands out the live list, so a caller could
  mutate the history. The model exposes the history as an immutable value.
- `TransacoesController.OrdenarPorDataDesc`: rows with equal `data` come
  back in an order the database does not promise, and neither does the
  contract.
- Concurrency between requests: there is none in the code. Races between
  read-modify-write cycles belong to the database.
