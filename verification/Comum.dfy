/** Values shared by the other modules. */
module Comum {

  datatype Opcao<+T> = Nada | Algo(valor: T)

  datatype Resultado<+T, +E> = Ok(valor: T) | Err(erro: E)

  function Min(a: int, b: int): int {
    if a < b then a else b
  }

  function NaoNegativo(v: int): nat {
    if v < 0 then 0 else v
  }
}
