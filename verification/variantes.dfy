/** The abstract `sacar` and `calcular_rendimento` of app/poo/conta.py,
    dispatched on the class an account was built as, and what any run of
    deposits and withdrawals does to an account. */
module Variantes {
  import opened Erros
  import opened Conta
  import ContaCorrente
  import ContaPoupanca

  /** The largest withdrawal the variant's rule lets through. */
  function Disponivel(v: Variante, saldo: real): real
  {
    match v
    case Corrente(limite) => saldo + limite
    case Poupanca => saldo
  }

  /** The balance rule each variant keeps: a savings balance is never
      negative; a checking balance is never below the overdraft limit (or
      below 0, where the stored limit is itself negative). */
  ghost predicate Coerente(v: Variante, saldo: real)
  {
    match v
    case Corrente(limite) => saldo >= 0.0 || saldo >= -limite
    case Poupanca => saldo >= 0.0
  }

  /** Effect of `conta.sacar(valor)` for either variant. */
  function EfeitoSaque(v: Variante, e: Extrato, valor: real): (r: Resultado<Extrato>)
    ensures r.Ok? <==> 0.0 < valor <= Disponivel(v, e.saldo)
    ensures r.Falha? ==> r.erro == if valor <= 0.0 then ValorInvalido
                                   else SaldoInsuficiente(Disponivel(v, e.saldo))
    ensures r.Ok? ==> Registra(e, r.dado) && r.dado.saldo == e.saldo - valor
                      && Ultima(r.dado) == Entrada("saque", valor)
                      && Coerente(v, r.dado.saldo)
  {
    match v
    case Corrente(limite) => ContaCorrente.EfeitoSaque(e, limite, valor)
    case Poupanca => ContaPoupanca.EfeitoSaque(e, valor)
  }

  /** `conta.sacar(valor)`, dispatched on the account's class. */
  method Sacar(c: Conta, valor: real) returns (r: Resultado<bool>)
    modifies c
    ensures r.Ok? <==> 0.0 < valor <= Disponivel(c.variante, old(c.saldo))
    ensures Conforme(EfeitoSaque(c.variante, old(c.Atual()), valor), old(c.Atual()), c.Atual(), r)
  {
    match c.variante
    case Corrente(_) =>
      r := ContaCorrente.Sacar(c, valor);
    case Poupanca =>
      r := ContaPoupanca.Sacar(c, valor);
  }

  /** `conta.calcular_rendimento()`, dispatched on the account's class. */
  function CalcularRendimento(c: Conta): (r: real)
    reads c
    ensures c.variante.Corrente? ==> r == 0.0
    ensures c.variante.Poupanca? ==> r == c.saldo * ContaPoupanca.TaxaRendimento
  {
    match c.variante
    case Corrente(_) => ContaCorrente.CalcularRendimento(c)
    case Poupanca => ContaPoupanca.CalcularRendimento(c)
  }

  /** One call a client makes on an account object. */
  datatype Operacao = Deposita(valor: real) | Saca(valor: real)

  /** The values after one call; a failed call leaves them as they were. */
  function Passo(v: Variante, e: Extrato, op: Operacao): Extrato
  {
    var efeito := match op
      case Deposita(x) => EfeitoDeposito(e, x)
      case Saca(x) => EfeitoSaque(v, e, x);
    if efeito.Ok? then efeito.dado else e
  }

  /** Whether one call succeeds. */
  predicate Sucede(v: Variante, e: Extrato, op: Operacao)
  {
    match op
    case Deposita(x) => x > 0.0
    case Saca(x) => 0.0 < x <= Disponivel(v, e.saldo)
  }

  /** The values after a run of calls, in order. */
  function Executa(v: Variante, e: Extrato, ops: seq<Operacao>): Extrato
    decreases |ops|
  {
    if ops == [] then e else Executa(v, Passo(v, e, ops[0]), ops[1..])
  }

  /** How many calls of the run succeed. */
  function Sucessos(v: Variante, e: Extrato, ops: seq<Operacao>): nat
    decreases |ops|
  {
    if ops == [] then 0
    else (if Sucede(v, e, ops[0]) then 1 else 0) + Sucessos(v, Passo(v, e, ops[0]), ops[1..])
  }

  /** After any run of deposits and withdrawals: the history has only grown,
      by exactly one entry per successful call; the balance equals the
      starting balance plus the deposits minus the withdrawals logged; and
      the variant's balance rule still holds if it held at the start. */
  lemma {:induction false} ExecucaoAcumulada(v: Variante, e: Extrato, ops: seq<Operacao>)
    ensures var f := Executa(v, e, ops);
      |f.transacoes| == |e.transacoes| + Sucessos(v, e, ops) &&
      f.transacoes[..|e.transacoes|] == e.transacoes &&
      f.saldo == e.saldo + Liquido(f.transacoes[|e.transacoes|..]) &&
      (Coerente(v, e.saldo) ==> Coerente(v, f.saldo))
    decreases |ops|
  {
    var f := Executa(v, e, ops);
    if ops == [] {
      assert f.transacoes[|e.transacoes|..] == [];
    } else {
      var e1 := Passo(v, e, ops[0]);
      ExecucaoAcumulada(v, e1, ops[1..]);
      var n, n1 := |e.transacoes|, |e1.transacoes|;
      if Sucede(v, e, ops[0]) {
        assert Registra(e, e1);
        assert f.transacoes[..n1] == e1.transacoes;
        assert f.transacoes[..n] == e1.transacoes[..n];
        assert f.transacoes[n..] == [f.transacoes[n]] + f.transacoes[n1..];
        LiquidoConcat([f.transacoes[n]], f.transacoes[n1..]);
        assert Liquido([f.transacoes[n]]) == Delta(f.transacoes[n]) by {
          assert [f.transacoes[n]][..0] == [];
        }
      } else {
        assert e1 == e;
      }
    }
  }
}
