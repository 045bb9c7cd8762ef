/** The transaction objects of app/poo/transacao.py: an amount validated at
    construction, a timestamp set once, and the way each kind applies itself
    to an account. */
module Transacao {
  import opened Erros
  import opened Conta
  import Variantes

  /** Which subclass of `Transacao` an object is. */
  datatype Tipo = Deposito | Saque | Rendimento

  /** A transaction object; its fields are never reassigned after
      construction. `data` stands for the `datetime.now()` taken then. */
  datatype Transacao = Transacao(tipo: Tipo, valor: real, data: int)

  /** The transactions the constructor lets exist: a positive amount. */
  type TransacaoValida = t: Transacao | t.valor > 0.0 witness Transacao(Deposito, 1.0, 0)

  /** The constructor: rejects a non-positive amount; otherwise keeps the
      amount and the creation time as given. */
  function Nova(tipo: Tipo, valor: real, agora: int): (r: Resultado<TransacaoValida>)
    ensures r.Ok? <==> valor > 0.0
    ensures r.Falha? ==> r.erro == ValorInvalido
    ensures r.Ok? ==> r.dado.tipo == tipo && r.dado.valor == valor && r.dado.data == agora
  {
    if valor <= 0.0 then Falha(ValorInvalido) else Ok(Transacao(tipo, valor, agora))
  }

  /** `get_tipo`: the name each kind records itself under. */
  function GetTipo(t: Transacao): (s: string)
    ensures s == "deposito" <==> t.tipo == Deposito
    ensures s == "saque" <==> t.tipo == Saque
    ensures s == "rendimento" <==> t.tipo == Rendimento
  {
    match t.tipo
    case Deposito => "deposito"
    case Saque => "saque"
    case Rendimento => "rendimento"
  }

  /** Effect of `executar` on an account's values. A deposit or a yield
      moves the balance through the `saldo` setter and logs nothing; a
      withdrawal is the account's own `sacar`. */
  function EfeitoExecutar(t: TransacaoValida, v: Variante, e: Extrato): (r: Resultado<Extrato>)
    ensures t.tipo != Saque ==> r == Ok(Extrato(e.saldo + t.valor, e.transacoes))
  {
    match t.tipo
    case Saque => Variantes.EfeitoSaque(v, e, t.valor)
    case _ => Ok(Extrato(e.saldo + t.valor, e.transacoes))
  }

  /** `executar(conta)`. */
  method Executar(t: TransacaoValida, c: Conta) returns (r: Resultado<bool>)
    modifies c
    ensures Conforme(EfeitoExecutar(t, c.variante, old(c.Atual())), old(c.Atual()), c.Atual(), r)
  {
    match t.tipo
    case Saque =>
      r := Variantes.Sacar(c, t.valor);
    case _ =>
      c.SetSaldo(c.saldo + t.valor);
      r := Ok(true);
  }

  /** `Saque(v).executar(conta)` has exactly the outcome of
      `conta.sacar(v)`: same success condition, values and error. */
  lemma ExecutarSaqueEhSacar(t: TransacaoValida, v: Variante, e: Extrato)
    requires t.tipo == Saque
    ensures EfeitoExecutar(t, v, e) == Variantes.EfeitoSaque(v, e, t.valor)
    ensures EfeitoExecutar(t, v, e).Ok? <==> 0.0 < t.valor <= Variantes.Disponivel(v, e.saldo)
  {
  }

  /** For a valid amount, `Deposito(v).executar(c)` and `c.depositar(v)`
      reach the same balance, but only `depositar` logs an entry, so the
      executar path breaks the one-entry-per-change rule. */
  lemma DepositoExecutarSemRegistro(v: Variante, e: Extrato, valor: real, agora: int)
    requires valor > 0.0
    ensures var porExecutar := EfeitoExecutar(Transacao(Deposito, valor, agora), v, e);
            var porDepositar := EfeitoDeposito(e, valor);
            porExecutar.Ok? && porDepositar.Ok? &&
            porExecutar.dado.saldo == porDepositar.dado.saldo &&
            porExecutar.dado.transacoes == e.transacoes &&
            porDepositar.dado.transacoes == e.transacoes + [Entrada("deposito", valor)] &&
            !Registra(e, porExecutar.dado)
  {
  }

  /** `Rendimento(v).executar(c)` adds `v` without any entry, whatever the
      account's class: unlike `aplicar_rendimento`, it is not tied to the
      5% rate and works on a checking account too. */
  lemma RendimentoExecutarSemRegistro(v: Variante, e: Extrato, valor: real, agora: int)
    requires valor > 0.0
    ensures var r := EfeitoExecutar(Transacao(Rendimento, valor, agora), v, e);
            r.Ok? && r.dado.saldo == e.saldo + valor && r.dado.transacoes == e.transacoes
  {
  }
}
