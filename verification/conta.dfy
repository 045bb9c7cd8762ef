/** The abstract account of app/poo/conta.py: holder, balance and the
    in-memory list of operation entries, with the operations every variant
    shares. */
module Conta {
  import opened Erros

  /** One entry of the in-memory history, the dict {"tipo": ..., "valor": ...}. */
  datatype Entrada = Entrada(tipo: string, valor: real)

  /** Which concrete class an account object was built as. */
  datatype Variante = Corrente(limiteEspecial: real) | Poupanca

  /** The mutable part of an account, as a value. */
  datatype Extrato = Extrato(saldo: real, transacoes: seq<Entrada>)

  /** Signed effect on the balance that a history entry describes. */
  function Delta(t: Entrada): real
  {
    if t.tipo == "saque" then -t.valor
    else if t.tipo == "deposito" || t.tipo == "rendimento" then t.valor
    else 0.0
  }

  /** Net balance change described by a run of history entries. */
  function Liquido(ts: seq<Entrada>): real
  {
    if ts == [] then 0.0 else Liquido(ts[..|ts| - 1]) + Delta(ts[|ts| - 1])
  }

  /** `depois` is `antes` with exactly one entry appended, earlier entries
      untouched, and the balance moved by exactly what that entry says. */
  ghost predicate Registra(antes: Extrato, depois: Extrato)
  {
    |depois.transacoes| == |antes.transacoes| + 1 &&
    depois.transacoes[..|antes.transacoes|] == antes.transacoes &&
    depois.saldo == antes.saldo + Delta(depois.transacoes[|antes.transacoes|])
  }

  /** The entry a successful operation appended last. */
  function Ultima(e: Extrato): Entrada
    requires e.transacoes != []
  {
    e.transacoes[|e.transacoes| - 1]
  }

  /** Effect of `depositar` on an account's values: validate, then add the
      amount and log one "deposito" entry. */
  function EfeitoDeposito(e: Extrato, valor: real): (r: Resultado<Extrato>)
    ensures r.Ok? <==> valor > 0.0
    ensures r.Falha? ==> r.erro == ValorInvalido
    ensures r.Ok? ==> Registra(e, r.dado) && r.dado.saldo == e.saldo + valor
                      && Ultima(r.dado) == Entrada("deposito", valor)
  {
    if valor <= 0.0 then Falha(ValorInvalido)
    else Ok(Extrato(e.saldo + valor, e.transacoes + [Entrada("deposito", valor)]))
  }

  /** How a mutating call's outcome follows from its effect: on success the
      new values and `True`; on failure the old values and the error. */
  ghost predicate Conforme(efeito: Resultado<Extrato>, antes: Extrato, depois: Extrato, r: Resultado<bool>)
  {
    match efeito
    case Ok(e) => depois == e && r == Ok(true)
    case Falha(err) => depois == antes && r == Falha(err)
  }

  class Conta {
    const titular: string
    const variante: Variante
    var saldo: real
    var transacoes: seq<Entrada>

    /** Balance and history together. */
    function Atual(): Extrato
      reads this
    {
      Extrato(saldo, transacoes)
    }

    /** A new account: balance 0 and an empty history. */
    constructor (titular: string, variante: Variante)
      ensures this.titular == titular && this.variante == variante
      ensures saldo == 0.0 && transacoes == []
    {
      this.titular := titular;
      this.variante := variante;
      saldo := 0.0;
      transacoes := [];
    }

    /** The `saldo` property setter: replaces the balance, nothing else. */
    method SetSaldo(valor: real)
      modifies this
      ensures saldo == valor
      ensures transacoes == old(transacoes)
    {
      saldo := valor;
    }

    /** `obter_saldo`: the current balance, changing nothing. */
    method ObterSaldo() returns (s: real)
      ensures s == saldo
    {
      s := saldo;
    }

    /** `depositar`: fails on a non-positive amount with nothing changed;
        otherwise adds the amount, logs one "deposito" entry and returns True. */
    method Depositar(valor: real) returns (r: Resultado<bool>)
      modifies this
      ensures r.Ok? <==> valor > 0.0
      ensures Conforme(EfeitoDeposito(old(Atual()), valor), old(Atual()), Atual(), r)
    {
      if valor <= 0.0 {
        return Falha(ValorInvalido);
      }
      saldo := saldo + valor;
      transacoes := transacoes + [Entrada("deposito", valor)];
      r := Ok(true);
    }
  }

  /** Splitting a history splits its net change. */
  lemma {:induction false} LiquidoConcat(a: seq<Entrada>, b: seq<Entrada>)
    ensures Liquido(a + b) == Liquido(a) + Liquido(b)
    decreases |b|
  {
    if b == [] {
      assert a + b == a;
    } else {
      var b' := b[..|b| - 1];
      assert (a + b)[..|a + b| - 1] == a + b';
      LiquidoConcat(a, b');
    }
  }
}
