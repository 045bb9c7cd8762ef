/** The checking account of app/poo/conta_corrente.py: withdrawals may use an
    overdraft of `limiteEspecial`; it yields nothing; a 10% fee can be
    computed but is never applied. */
module ContaCorrente {
  import opened Erros
  import opened Conta

  /** The fee rate `_taxa`, fixed by the constructor. */
  const Taxa: real := 0.10

  /** `ContaCorrente(titular, limite_especial)`. */
  method Nova(titular: string, limiteEspecial: real) returns (c: Conta)
    ensures fresh(c)
    ensures c.titular == titular && c.variante == Corrente(limiteEspecial)
    ensures c.saldo == 0.0 && c.transacoes == []
  {
    c := new Conta(titular, Corrente(limiteEspecial));
  }

  /** Effect of `sacar` on a checking account's values: the amount must be
      positive and at most balance plus overdraft limit. */
  function EfeitoSaque(e: Extrato, limiteEspecial: real, valor: real): (r: Resultado<Extrato>)
    ensures r.Ok? <==> 0.0 < valor <= e.saldo + limiteEspecial
    ensures valor <= 0.0 ==> r == Falha(ValorInvalido)
    ensures 0.0 < valor && e.saldo + limiteEspecial < valor ==>
              r == Falha(SaldoInsuficiente(e.saldo + limiteEspecial))
    ensures r.Ok? ==> Registra(e, r.dado) && r.dado.saldo == e.saldo - valor
                      && Ultima(r.dado) == Entrada("saque", valor)
                      && r.dado.saldo >= -limiteEspecial
  {
    if valor <= 0.0 then Falha(ValorInvalido)
    else
      var disponivel := e.saldo + limiteEspecial;
      if valor > disponivel then Falha(SaldoInsuficiente(disponivel))
      else Ok(Extrato(e.saldo - valor, e.transacoes + [Entrada("saque", valor)]))
  }

  /** `ContaCorrente.sacar`. */
  method Sacar(c: Conta, valor: real) returns (r: Resultado<bool>)
    requires c.variante.Corrente?
    modifies c
    ensures Conforme(EfeitoSaque(old(c.Atual()), c.variante.limiteEspecial, valor), old(c.Atual()), c.Atual(), r)
  {
    if valor <= 0.0 {
      return Falha(ValorInvalido);
    }
    var disponivel := c.saldo + c.variante.limiteEspecial;
    if valor > disponivel {
      return Falha(SaldoInsuficiente(disponivel));
    }
    c.saldo := c.saldo - valor;
    c.transacoes := c.transacoes + [Entrada("saque", valor)];
    r := Ok(true);
  }

  /** `calcular_rendimento`: a checking account never yields. */
  function CalcularRendimento(c: Conta): (r: real)
    requires c.variante.Corrente?
    ensures r == 0.0
  {
    0.0
  }

  /** `aplicar_taxa`: the fee on the current balance, computed only. */
  function AplicarTaxa(c: Conta): (r: real)
    reads c
    requires c.variante.Corrente?
    ensures r == c.saldo * Taxa
    ensures r < 0.0 <==> c.saldo < 0.0
  {
    c.saldo * Taxa
  }

  /** With a limit of 200 and balance 0, withdrawing 150 leaves -150; a
      further 60 is refused with 50 available and the balance stays -150. */
  lemma CenarioLimiteEspecial()
    ensures var depois := EfeitoSaque(Extrato(0.0, []), 200.0, 150.0);
            depois == Ok(Extrato(-150.0, [Entrada("saque", 150.0)])) &&
            EfeitoSaque(depois.dado, 200.0, 60.0) == Falha(SaldoInsuficiente(50.0))
  {
  }
}
