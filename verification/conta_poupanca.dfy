/** The savings account of app/poo/conta_poupanca.py: no overdraft, and a
    fixed 5% yield applied only on request. */
module ContaPoupanca {
  import opened Erros
  import opened Conta

  /** The yield rate `_taxa_rendimento`, fixed by the constructor. */
  const TaxaRendimento: real := 0.05

  /** `ContaPoupanca(titular)`. */
  method Nova(titular: string) returns (c: Conta)
    ensures fresh(c)
    ensures c.titular == titular && c.variante == Poupanca
    ensures c.saldo == 0.0 && c.transacoes == []
  {
    c := new Conta(titular, Poupanca);
  }

  /** Effect of `sacar` on a savings account's values: the amount must be
      positive and at most the balance. */
  function EfeitoSaque(e: Extrato, valor: real): (r: Resultado<Extrato>)
    ensures r.Ok? <==> 0.0 < valor <= e.saldo
    ensures valor <= 0.0 ==> r == Falha(ValorInvalido)
    ensures 0.0 < valor && e.saldo < valor ==> r == Falha(SaldoInsuficiente(e.saldo))
    ensures r.Ok? ==> Registra(e, r.dado) && r.dado.saldo == e.saldo - valor
                      && Ultima(r.dado) == Entrada("saque", valor)
                      && r.dado.saldo >= 0.0
  {
    if valor <= 0.0 then Falha(ValorInvalido)
    else if valor > e.saldo then Falha(SaldoInsuficiente(e.saldo))
    else Ok(Extrato(e.saldo - valor, e.transacoes + [Entrada("saque", valor)]))
  }

  /** `ContaPoupanca.sacar`. */
  method Sacar(c: Conta, valor: real) returns (r: Resultado<bool>)
    requires c.variante.Poupanca?
    modifies c
    ensures Conforme(EfeitoSaque(old(c.Atual()), valor), old(c.Atual()), c.Atual(), r)
  {
    if valor <= 0.0 {
      return Falha(ValorInvalido);
    }
    if valor > c.saldo {
      return Falha(SaldoInsuficiente(c.saldo));
    }
    c.saldo := c.saldo - valor;
    c.transacoes := c.transacoes + [Entrada("saque", valor)];
    r := Ok(true);
  }

  /** `calcular_rendimento`: 5% of the balance, positive exactly when the
      balance is. */
  function CalcularRendimento(c: Conta): (r: real)
    reads c
    requires c.variante.Poupanca?
    ensures r == c.saldo * TaxaRendimento
    ensures r > 0.0 <==> c.saldo > 0.0
  {
    c.saldo * TaxaRendimento
  }

  /** Effect of `aplicar_rendimento` on the values: a positive balance grows
      by 5% and logs one "rendimento" entry; otherwise nothing changes. */
  function EfeitoRendimento(e: Extrato): (r: Extrato)
    ensures e.saldo > 0.0 ==> Registra(e, r) && r.saldo == e.saldo * (1.0 + TaxaRendimento)
                              && Ultima(r) == Entrada("rendimento", e.saldo * TaxaRendimento)
    ensures e.saldo <= 0.0 ==> r == e
  {
    var rendimento := e.saldo * TaxaRendimento;
    if rendimento > 0.0 then Extrato(e.saldo + rendimento, e.transacoes + [Entrada("rendimento", rendimento)])
    else e
  }

  /** `aplicar_rendimento`: returns the computed yield whether or not it was
      applied. */
  method AplicarRendimento(c: Conta) returns (rendimento: real)
    requires c.variante.Poupanca?
    modifies c
    ensures rendimento == old(c.saldo) * TaxaRendimento
    ensures c.Atual() == EfeitoRendimento(old(c.Atual()))
  {
    rendimento := CalcularRendimento(c);
    if rendimento > 0.0 {
      c.saldo := c.saldo + rendimento;
      c.transacoes := c.transacoes + [Entrada("rendimento", rendimento)];
    }
  }

  /** A balance of 1000 yields 50 and becomes 1050, with one "rendimento"
      entry of 50. */
  lemma RendimentoDeMil()
    ensures EfeitoRendimento(Extrato(1000.0, [])) == Extrato(1050.0, [Entrada("rendimento", 50.0)])
  {
  }

  /** With balance 500, withdrawing 500 leaves 0; a further 1 is refused
      with 0 available. */
  lemma CenarioSaldoZero()
    ensures var depois := EfeitoSaque(Extrato(500.0, []), 500.0);
            depois == Ok(Extrato(0.0, [Entrada("saque", 500.0)])) &&
            EfeitoSaque(depois.dado, 1.0) == Falha(SaldoInsuficiente(0.0))
  {
  }
}
