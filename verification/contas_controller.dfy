/** The request logic of app/controllers/contas_controller.py. The database
    is a `Banco`: the `contas` table as a map from id to row, the
    `transacoes` table as a sequence of rows in insertion order, and the
    next id the database will hand out. Each request rebuilds an account
    object from its row, applies one operation to it, writes the balance
    back and adds one transaction row. */
module ContasController {
  import opened Erros
  import opened Conta
  import ContaCorrente
  import ContaPoupanca
  import Variantes
  import Transacao
  import opened Modelos
  import opened TransacoesController

  /** Net of an account's transaction rows, in one pass: deposits add,
      withdrawals subtract. */
  function SaldoRegistrado(ts: seq<TransacaoModel>, id: int): real
  {
    if ts == [] then 0.0
    else
      var t := ts[|ts| - 1];
      SaldoRegistrado(ts[..|ts| - 1], id) + Efeito(t, id)
  }

  /** What one row contributes to account `id`'s net. */
  function Efeito(t: TransacaoModel, id: int): real
  {
    if t.contaId != id then 0.0
    else if t.tipo == "deposito" then t.valor
    else if t.tipo == "saque" then -t.valor
    else 0.0
  }

  /** Appending a row moves each account's net by that row's contribution. */
  lemma SaldoRegistradoAnexo(ts: seq<TransacaoModel>, t: TransacaoModel, id: int)
    ensures SaldoRegistrado(ts + [t], id) == SaldoRegistrado(ts, id) + Efeito(t, id)
  {
    assert (ts + [t])[..|ts|] == ts;
  }

  /** An account with no rows has net 0. */
  lemma {:induction false} SaldoRegistradoSemLinhas(ts: seq<TransacaoModel>, id: int)
    requires forall t :: t in ts ==> t.contaId != id
    ensures SaldoRegistrado(ts, id) == 0.0
    decreases |ts|
  {
    if ts != [] {
      assert forall t :: t in ts[..|ts| - 1] ==> t in ts;
      SaldoRegistradoSemLinhas(ts[..|ts| - 1], id);
    }
  }

  /** The net of an account's rows is its deposit total minus its
      withdrawal total. */
  lemma {:induction false} SaldoRegistradoSomas(ts: seq<TransacaoModel>, id: int)
    ensures SaldoRegistrado(ts, id) == SomaOnde(ts, id, "deposito") - SomaOnde(ts, id, "saque")
    decreases |ts|
  {
    if ts != [] {
      SaldoRegistradoSomas(ts[..|ts| - 1], id);
    }
  }

  /** The account class a row is rebuilt as: "corrente" gives a checking
      account with the stored limit, anything else a savings account. */
  function VarianteDe(c: ContaModel): Variante
  {
    if c.tipo == "corrente" then Corrente(c.limiteEspecial) else Poupanca
  }

  /** A row as `criar_conta` writes it and the operations keep it: a known
      type, a zero limit for savings, and the variant's balance rule. */
  ghost predicate LinhaCoerente(c: ContaModel)
  {
    (c.tipo == "corrente" || c.tipo == "poupanca") &&
    (c.tipo == "poupanca" ==> c.limiteEspecial == 0.0) &&
    Variantes.Coerente(VarianteDe(c), c.saldo)
  }

  /** The ledger invariant: every stored balance is the net of its
      account's transaction rows, and every transaction row is a positive
      deposit or withdrawal of an existing account. */
  ghost predicate Consistente(contas: map<int, ContaModel>, ts: seq<TransacaoModel>)
  {
    (forall id :: id in contas ==>
       contas[id].id == id && LinhaCoerente(contas[id]) &&
       contas[id].saldo == SaldoRegistrado(ts, id)) &&
    (forall t :: t in ts ==>
       t.contaId in contas && (t.tipo == "deposito" || t.tipo == "saque") && t.valor > 0.0)
  }

  /** In a consistent database the statistics of any account balance:
      `saldo_atual == total_depositos - total_saques`. */
  lemma EstatisticasConferem(contas: map<int, ContaModel>, ts: seq<TransacaoModel>, id: int)
    requires Consistente(contas, ts) && id in contas
    ensures var r := ObterEstatisticas(contas, ts, id);
            r.Ok? && r.dado.saldoAtual == r.dado.totalDepositos - r.dado.totalSaques
  {
    SaldoRegistradoSomas(ts, id);
  }

  /** Writing back one account's new balance together with the one row
      that explains the change keeps the ledger invariant. */
  lemma {:induction false} AtualizacaoConsistente(contas: map<int, ContaModel>, ts: seq<TransacaoModel>,
                                                 id: int, saldo: real, registro: TransacaoModel)
    requires Consistente(contas, ts) && id in contas
    requires LinhaCoerente(contas[id].(saldo := saldo))
    requires registro.contaId == id && registro.valor > 0.0
    requires registro.tipo == "deposito" || registro.tipo == "saque"
    requires saldo == contas[id].saldo + Efeito(registro, id)
    ensures Consistente(contas[id := contas[id].(saldo := saldo)], ts + [registro])
  {
    var contas' := contas[id := contas[id].(saldo := saldo)];
    forall k | k in contas'
      ensures contas'[k].saldo == SaldoRegistrado(ts + [registro], k)
    {
      SaldoRegistradoAnexo(ts, registro, k);
    }
  }

  /** Rebuilds the account object of a row: the class its type names, the
      stored limit, then the stored balance through the `saldo` setter. */
  method Rehidratar(linha: ContaModel) returns (c: Conta)
    ensures fresh(c)
    ensures c.titular == linha.titular && c.variante == VarianteDe(linha)
    ensures c.saldo == linha.saldo && c.transacoes == []
  {
    if linha.tipo == "corrente" {
      c := ContaCorrente.Nova(linha.titular, linha.limiteEspecial);
    } else {
      c := ContaPoupanca.Nova(linha.titular);
    }
    c.SetSaldo(linha.saldo);
  }

  class Banco {
    var contas: map<int, ContaModel>
    var transacoes: seq<TransacaoModel>
    var proximoId: int

    ghost predicate Valid()
      reads this
    {
      Consistente(contas, transacoes) && 0 < proximoId &&
      forall id :: id in contas ==> 0 < id < proximoId
    }

    /** An empty database. */
    constructor ()
      ensures Valid()
      ensures contas == map[] && transacoes == []
    {
      contas := map[];
      transacoes := [];
      proximoId := 1;
    }

    /** `obter_conta`: the row with that id, or not found. */
    function ObterConta(id: int): (r: Resultado<ContaModel>)
      reads this
      ensures r.Falha? <==> id !in contas
      ensures r.Falha? ==> r.erro == ContaNaoEncontrada
      ensures r.Ok? ==> r.dado == contas[id]
      ensures r.Ok? && Valid() ==> r.dado.id == id
    {
      if id in contas then Ok(contas[id]) else Falha(ContaNaoEncontrada)
    }

    /** `criar_conta`: rejects an unknown type with nothing changed;
        otherwise inserts a row under a new id with balance 0, and the
        limit only for a checking account. */
    method CriarConta(titular: string, tipo: string, limiteEspecial: real) returns (r: Resultado<ContaModel>)
      requires Valid()
      modifies this
      ensures Valid()
      ensures transacoes == old(transacoes)
      ensures r.Falha? <==> tipo != "corrente" && tipo != "poupanca"
      ensures r.Falha? ==> r.erro == TipoContaInvalido && StatusHttp(r.erro) == 400 && contas == old(contas)
      ensures r.Ok? ==> r.dado.id !in old(contas) && contas == old(contas)[r.dado.id := r.dado]
      ensures r.Ok? ==> r.dado == ContaModel(r.dado.id, titular, tipo, 0.0,
                                             if tipo == "corrente" then limiteEspecial else 0.0)
    {
      if tipo != "corrente" && tipo != "poupanca" {
        return Falha(TipoContaInvalido);
      }
      // the object is built and then not used further
      var contaObj: Conta;
      if tipo == "corrente" {
        contaObj := ContaCorrente.Nova(titular, limiteEspecial);
      } else {
        contaObj := ContaPoupanca.Nova(titular);
      }
      var linha := ContaModel(proximoId, titular, tipo, 0.0,
                              if tipo == "corrente" then limiteEspecial else 0.0);
      SaldoRegistradoSemLinhas(transacoes, proximoId);
      contas := contas[proximoId := linha];
      proximoId := proximoId + 1;
      r := Ok(linha);
    }

    /** The write-back both operations end with: the account's new balance
        and the one transaction row explaining it, committed together. */
    method Gravar(id: int, saldo: real, registro: TransacaoModel)
      requires Valid() && id in contas
      requires LinhaCoerente(contas[id].(saldo := saldo))
      requires registro.contaId == id && registro.valor > 0.0
      requires registro.tipo == "deposito" || registro.tipo == "saque"
      requires saldo == contas[id].saldo + Efeito(registro, id)
      modifies this
      ensures Valid() && proximoId == old(proximoId)
      ensures contas == old(contas)[id := old(contas)[id].(saldo := saldo)]
      ensures transacoes == old(transacoes) + [registro]
    {
      AtualizacaoConsistente(contas, transacoes, id, saldo, registro);
      contas := contas[id := contas[id].(saldo := saldo)];
      transacoes := transacoes + [registro];
    }

    /** `depositar`: not found for a missing account; a non-positive amount
        is rejected when the `Deposito` is built; otherwise the stored
        balance grows by the amount and one "deposito" row is added. A
        failure changes nothing. */
    method Depositar(id: int, valor: real, agora: int) returns (r: Resultado<real>)
      requires Valid()
      modifies this
      ensures Valid() && proximoId == old(proximoId)
      ensures id !in old(contas) ==> r == Falha(ContaNaoEncontrada)
      ensures id in old(contas) && valor <= 0.0 ==> r == Falha(ValorInvalido)
      ensures r.Falha? ==> contas == old(contas) && transacoes == old(transacoes)
      ensures r.Falha? ==> StatusHttp(r.erro) == if id in old(contas) then 400 else 404
      ensures id in old(contas) && valor > 0.0 ==>
                var antes := old(contas)[id];
                r == Ok(antes.saldo + valor) &&
                contas == old(contas)[id := antes.(saldo := antes.saldo + valor)] &&
                transacoes == old(transacoes) + [TransacaoModel(id, "deposito", valor, agora)]
    {
      var busca := ObterConta(id);
      if busca.Falha? {
        return Falha(busca.erro);
      }
      var linha := busca.dado;
      var contaObj := Rehidratar(linha);
      var deposito := Transacao.Nova(Transacao.Deposito, valor, agora);
      if deposito.Falha? {
        return Falha(deposito.erro);
      }
      var _ := Transacao.Executar(deposito.dado, contaObj);
      assert contaObj.saldo == linha.saldo + valor;
      var registro := TransacaoModel(id, Transacao.GetTipo(deposito.dado), valor, deposito.dado.data);
      assert registro == TransacaoModel(id, "deposito", valor, agora);
      assert LinhaCoerente(linha.(saldo := contaObj.saldo));
      Gravar(id, contaObj.saldo, registro);
      r := Ok(contaObj.saldo);
    }

    /** `sacar`: not found for a missing account; a non-positive amount is
        rejected when the `Saque` is built; the account object's own
        `sacar` then decides, by its class's rule, whether the amount is
        available. On success the stored balance drops by the amount and
        one "saque" row is added; a failure changes nothing. */
    method Sacar(id: int, valor: real, agora: int) returns (r: Resultado<real>)
      requires Valid()
      modifies this
      ensures Valid() && proximoId == old(proximoId)
      ensures id !in old(contas) ==> r == Falha(ContaNaoEncontrada)
      ensures r.Falha? ==> contas == old(contas) && transacoes == old(transacoes)
      ensures r.Falha? ==> StatusHttp(r.erro) == if id in old(contas) then 400 else 404
      ensures id in old(contas) ==>
                var antes := old(contas)[id];
                var disponivel := Variantes.Disponivel(VarianteDe(antes), antes.saldo);
                (valor <= 0.0 ==> r == Falha(ValorInvalido)) &&
                (0.0 < valor && disponivel < valor ==> r == Falha(SaldoInsuficiente(disponivel))) &&
                (0.0 < valor <= disponivel ==>
                   r == Ok(antes.saldo - valor) &&
                   contas == old(contas)[id := antes.(saldo := antes.saldo - valor)] &&
                   transacoes == old(transacoes) + [TransacaoModel(id, "saque", valor, agora)])
    {
      var busca := ObterConta(id);
      if busca.Falha? {
        return Falha(busca.erro);
      }
      var linha := busca.dado;
      var contaObj := Rehidratar(linha);
      var saque := Transacao.Nova(Transacao.Saque, valor, agora);
      if saque.Falha? {
        return Falha(saque.erro);
      }
      var sacou := Variantes.Sacar(contaObj, valor);
      if sacou.Falha? {
        return Falha(sacou.erro);
      }
      var registro := TransacaoModel(id, Transacao.GetTipo(saque.dado), valor, saque.dado.data);
      Gravar(id, contaObj.saldo, registro);
      r := Ok(contaObj.saldo);
    }
  }
}
