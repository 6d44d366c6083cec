/** Shared vocabulary of the accounting micro-service: optional values standing
    for Java's nullable references, a result type standing for the exceptions the
    service throws, Java's 32-bit `int`, the operation kind and the money unit. */
module Comun {

  /** A Java reference that may be null. */
  datatype Option<+T> = None | Some(value: T)

  /** The outcome of a service call: a value, or the exception it throws. */
  datatype Result<+T, +E> = Success(value: T) | Failure(error: E)

  /** Java's `int` (and the range of `Integer`). */
  type Int32 = x: int | -0x8000_0000 <= x < 0x8000_0000

  /** The primary key of `Cuenta` (an `Integer`). */
  type Id = Int32

  /** A money amount at scale 2, counted in hundredths (cents). */
  type Centimos = int

  /** `LocalDateTime` values, treated as opaque instants. */
  type FechaHora = int

  /** `TipoOperacion`: the kind of a movement. */
  datatype TipoOperacion = DEBITO | CREDITO

  /** The failures a caller of the service can observe. */
  datatype Error =
    | CuentaNoEncontrada   // CuentaNoEncontradaException
    | SaldoInsuficiente    // SaldoInsuficienteException
    | ViolacionIntegridad  // a NOT NULL or UNIQUE column constraint rejected the row
    | EntidadSeparada      // persist of an entity whose generated id is already set

  /** Two's-complement wrap-around of an integer into Java's `int`. */
  function Envolver32(x: int): (r: Int32)
    ensures (r - x) % 0x1_0000_0000 == 0
    ensures -0x8000_0000 <= x < 0x8000_0000 ==> r == x
  {
    (x + 0x8000_0000) % 0x1_0000_0000 - 0x8000_0000
  }
}
