/** The shapes of the two tables of app/models.py. */
module Modelos {

  /** A row of table `contas`. `tipo` is "corrente" or "poupanca";
      `limiteEspecial` is used only by checking accounts. */
  datatype ContaModel = ContaModel(id: int, titular: string, tipo: string, saldo: real, limiteEspecial: real)

  /** A row of table `transacoes`. `tipo` is the name `get_tipo` gives;
      `data` the creation time of the transaction object. The row's own id
      column is left out: its position in the table stands for it. */
  datatype TransacaoModel = TransacaoModel(contaId: int, tipo: string, valor: real, data: int)
}
