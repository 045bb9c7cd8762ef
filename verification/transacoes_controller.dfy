/** The read-only queries of app/controllers/transacoes_controller.py over
    the two tables, given as values: a map from account id to account row
    and the sequence of transaction rows in insertion order. */
module TransacoesController {
  import opened Erros
  import opened Modelos

  /** The rows of account `id`, in table order (`WHERE conta_id = id`). */
  function DaConta(ts: seq<TransacaoModel>, id: int): (r: seq<TransacaoModel>)
    ensures |r| <= |ts|
    ensures forall t {:trigger t in r} :: t in r <==> t in ts && t.contaId == id
    ensures (forall t :: t in ts ==> t.contaId != id) ==> r == []
  {
    if ts == [] then []
    else
      assert forall t :: t in ts[..|ts| - 1] ==> t in ts;
      DaConta(ts[..|ts| - 1], id) + (if ts[|ts| - 1].contaId == id then [ts[|ts| - 1]] else [])
  }

  /** The rows of a given type, in order (`WHERE tipo = tipo`). */
  function DoTipo(rs: seq<TransacaoModel>, tipo: string): (r: seq<TransacaoModel>)
    ensures |r| <= |rs|
    ensures forall t {:trigger t in r} :: t in r <==> t in rs && t.tipo == tipo
  {
    if rs == [] then []
    else DoTipo(rs[..|rs| - 1], tipo) + (if rs[|rs| - 1].tipo == tipo then [rs[|rs| - 1]] else [])
  }

  /** `func.sum(valor) ... or 0.0`: the total amount, 0 for no rows. */
  function Soma(rs: seq<TransacaoModel>): real
  {
    if rs == [] then 0.0 else Soma(rs[..|rs| - 1]) + rs[|rs| - 1].valor
  }

  /** Reference definition of a per-account, per-type total: one pass over
      the whole table adding the amounts of the matching rows. */
  function SomaOnde(ts: seq<TransacaoModel>, id: int, tipo: string): real
  {
    if ts == [] then 0.0
    else
      var t := ts[|ts| - 1];
      SomaOnde(ts[..|ts| - 1], id, tipo) + (if t.contaId == id && t.tipo == tipo then t.valor else 0.0)
  }

  /** The account filter keeps each matching row exactly as often as the
      table holds it, and no other row. */
  lemma {:induction false} DaContaMultiplicidade(ts: seq<TransacaoModel>, id: int)
    ensures forall x :: multiset(DaConta(ts, id))[x] == if x.contaId == id then multiset(ts)[x] else 0
    decreases |ts|
  {
    if ts != [] {
      var init, t := ts[..|ts| - 1], ts[|ts| - 1];
      assert ts == init + [t];
      DaContaMultiplicidade(init, id);
    }
  }

  /** Appending one row extends the type filter by that row alone. */
  lemma DoTipoAnexo(rs: seq<TransacaoModel>, t: TransacaoModel, tipo: string)
    ensures DoTipo(rs + [t], tipo) == DoTipo(rs, tipo) + (if t.tipo == tipo then [t] else [])
  {
    assert (rs + [t])[..|rs|] == rs;
  }

  /** Appending one row adds its amount to the total. */
  lemma SomaAnexo(rs: seq<TransacaoModel>, t: TransacaoModel)
    ensures Soma(rs + [t]) == Soma(rs) + t.valor
  {
    assert (rs + [t])[..|rs|] == rs;
  }

  /** The last row moves the filtered total exactly as it moves the
      one-pass total. */
  lemma SomaFiltradaPasso(ts: seq<TransacaoModel>, id: int, tipo: string)
    requires ts != []
    ensures Soma(DoTipo(DaConta(ts, id), tipo))
            == Soma(DoTipo(DaConta(ts[..|ts| - 1], id), tipo)) +
               (if ts[|ts| - 1].contaId == id && ts[|ts| - 1].tipo == tipo then ts[|ts| - 1].valor else 0.0)
  {
    var t := ts[|ts| - 1];
    var a := DaConta(ts[..|ts| - 1], id);
    if t.contaId == id {
      assert DaConta(ts, id) == a + [t];
      DoTipoAnexo(a, t, tipo);
      if t.tipo == tipo {
        SomaAnexo(DoTipo(a, tipo), t);
      } else {
        assert DoTipo(a + [t], tipo) == DoTipo(a, tipo) + [] == DoTipo(a, tipo);
      }
    } else {
      assert DaConta(ts, id) == a + [] == a;
    }
  }

  /** Filtering by account, then by type, then summing, is the one-pass
      total. */
  lemma {:induction false} SomaFiltrada(ts: seq<TransacaoModel>, id: int, tipo: string)
    ensures Soma(DoTipo(DaConta(ts, id), tipo)) == SomaOnde(ts, id, tipo)
    decreases |ts|
  {
    if ts == [] {
      assert DaConta(ts, id) == [];
      assert DoTipo([], tipo) == [];
    } else {
      SomaFiltrada(ts[..|ts| - 1], id, tipo);
      SomaFiltradaPasso(ts, id, tipo);
    }
  }

  /** A sum over no matching rows is 0. */
  lemma {:induction false} SomaOndeVazia(ts: seq<TransacaoModel>, id: int, tipo: string)
    ensures (forall t :: t in ts ==> t.contaId != id || t.tipo != tipo) ==> SomaOnde(ts, id, tipo) == 0.0
    decreases |ts|
  {
    if ts != [] && forall t :: t in ts ==> t.contaId != id || t.tipo != tipo {
      var init := ts[..|ts| - 1];
      assert forall t :: t in init ==> t in ts;
      SomaOndeVazia(init, id, tipo);
    }
  }

  /** The result of `obter_estatisticas`. */
  datatype Estatisticas = Estatisticas(totalDepositos: real, totalSaques: real, totalTransacoes: nat, saldoAtual: real)

  /** `obter_estatisticas`: not found for a missing account; otherwise the
      deposit and withdrawal totals of that account's rows (0 when it has
      none), how many rows it has of any type, and its stored balance as is. */
  function ObterEstatisticas(contas: map<int, ContaModel>, ts: seq<TransacaoModel>, id: int): (r: Resultado<Estatisticas>)
    ensures r.Falha? <==> id !in contas
    ensures r.Falha? ==> r.erro == ContaNaoEncontrada && StatusHttp(r.erro) == 404
    ensures r.Ok? ==> r.dado.saldoAtual == contas[id].saldo
    ensures r.Ok? ==> r.dado.totalDepositos == SomaOnde(ts, id, "deposito")
    ensures r.Ok? ==> r.dado.totalSaques == SomaOnde(ts, id, "saque")
    ensures r.Ok? ==> r.dado.totalTransacoes == |DaConta(ts, id)| <= |ts|
    ensures r.Ok? && (forall t :: t in ts ==> t.contaId != id) ==>
              r.dado.totalDepositos == 0.0 && r.dado.totalSaques == 0.0 && r.dado.totalTransacoes == 0
  {
    if id !in contas then Falha(ContaNaoEncontrada)
    else
      var daConta := DaConta(ts, id);
      SomaFiltrada(ts, id, "deposito");
      SomaFiltrada(ts, id, "saque");
      SomaOndeVazia(ts, id, "deposito");
      SomaOndeVazia(ts, id, "saque");
      Ok(Estatisticas(Soma(DoTipo(daConta, "deposito")), Soma(DoTipo(daConta, "saque")), |daConta|, contas[id].saldo))
  }

  /** Newest first (`ORDER BY data DESC`). */
  ghost predicate OrdenadaPorDataDesc(rs: seq<TransacaoModel>)
  {
    forall i, j :: 0 <= i < j < |rs| ==> rs[i].data >= rs[j].data
  }

  /** Inserts a row into a newest-first sequence, keeping it newest first. */
  function Inserir(t: TransacaoModel, rs: seq<TransacaoModel>): (r: seq<TransacaoModel>)
    requires OrdenadaPorDataDesc(rs)
    ensures OrdenadaPorDataDesc(r)
    ensures multiset(r) == multiset(rs) + multiset{t}
    ensures r != [] && (r[0] == t || (rs != [] && r[0] == rs[0]))
    decreases |rs|
  {
    if rs == [] || t.data >= rs[0].data then
      OrdenadaComCabeca(t, rs);
      [t] + rs
    else
      var resto := Inserir(t, rs[1..]);
      assert rs == [rs[0]] + rs[1..];
      OrdenadaComCabeca(rs[0], resto);
      [rs[0]] + resto
  }

  /** A row no older than the head of a newest-first sequence can go in
      front of it. */
  lemma OrdenadaComCabeca(x: TransacaoModel, rs: seq<TransacaoModel>)
    requires OrdenadaPorDataDesc(rs)
    requires rs == [] || x.data >= rs[0].data
    ensures OrdenadaPorDataDesc([x] + rs)
  {
    var r := [x] + rs;
    forall i, j | 0 <= i < j < |r|
      ensures r[i].data >= r[j].data
    {
      if i == 0 {
        assert r[j] == rs[j - 1];
        assert rs[0].data >= rs[j - 1].data;
      } else {
        assert r[i] == rs[i - 1] && r[j] == rs[j - 1];
      }
    }
  }

  /** Sorts rows newest first; rows with equal `data` keep no promised order. */
  function OrdenarPorDataDesc(rs: seq<TransacaoModel>): (r: seq<TransacaoModel>)
    ensures OrdenadaPorDataDesc(r)
    ensures multiset(r) == multiset(rs)
    decreases |rs|
  {
    if rs == [] then []
    else
      assert rs == [rs[0]] + rs[1..];
      Inserir(rs[0], OrdenarPorDataDesc(rs[1..]))
  }

  /** `listar_transacoes`: not found for a missing account; otherwise
      exactly the rows of that account (each as often as stored), newest
      first. */
  function ListarTransacoes(contas: map<int, ContaModel>, ts: seq<TransacaoModel>, id: int): (r: Resultado<seq<TransacaoModel>>)
    ensures r.Falha? <==> id !in contas
    ensures r.Falha? ==> r.erro == ContaNaoEncontrada && StatusHttp(r.erro) == 404
    ensures r.Ok? ==> OrdenadaPorDataDesc(r.dado)
    ensures r.Ok? ==> multiset(r.dado) == multiset(DaConta(ts, id))
    ensures r.Ok? ==> forall x :: multiset(r.dado)[x] == if x.contaId == id then multiset(ts)[x] else 0
    ensures r.Ok? ==> forall t :: t in r.dado <==> t in ts && t.contaId == id
  {
    if id !in contas then Falha(ContaNaoEncontrada)
    else
      var daConta := DaConta(ts, id);
      DaContaMultiplicidade(ts, id);
      var rs := OrdenarPorDataDesc(daConta);
      assert forall t :: t in rs <==> t in multiset(rs);
      assert forall t :: t in daConta <==> t in multiset(daConta);
      Ok(rs)
  }
}
