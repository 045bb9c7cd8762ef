/** Error kinds raised by the account objects and the controllers, and the
    result wrapper that stands in for Python's exceptions. */
module Erros {

  /** What went wrong. The first two are the `ValueError`s of the domain
      objects; the controllers turn them into HTTP 400. */
  datatype Erro =
    | ValorInvalido                        // an amount <= 0
    | SaldoInsuficiente(disponivel: real)  // a withdrawal above what the account allows
    | TipoContaInvalido                    // an account type other than "corrente"/"poupanca"
    | ContaNaoEncontrada                   // no row with that id

  /** Either the value a call returns or the error it raises. */
  datatype Resultado<+T> = Ok(dado: T) | Falha(erro: Erro)

  /** The HTTP status the controllers attach to each error kind. */
  function StatusHttp(e: Erro): (s: int)
    ensures s == 404 <==> e == ContaNaoEncontrada
    ensures s == 400 <==> e != ContaNaoEncontrada
  {
    if e == ContaNaoEncontrada then 404 else 400
  }
}
