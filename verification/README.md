# Account balance engine of the accounting micro-service, in Dafny

This project models the balance engine of the `ms-contabilidad` accounting
service: `CuentaService` and the entities it works on. The service keeps a
table of accounts (`Cuenta`: id, account number, client reference, balance,
version) and an append-only log of movements (`Transaccion`). It looks accounts
up by id or by number, creates accounts, debits and credits them. A debit is
refused with `SaldoInsuficiente` when the balance is below the amount. Every
successful debit or credit saves the account and appends exactly one log entry.

Money is counted in hundredths (`Centimos`, an unbounded `int`). Every money
column has scale 2, and `BigDecimal` addition, subtraction and comparison are
exact, so integer cents give the same answers.

## Layout

- `comun.dfy` (module `Comun`): `Option` for Java's nullable references,
  `Result` for the exceptions, `Int32`, `TipoOperacion`, the `Error` kinds, and
  32-bit wrap-around.
- `cuenta.dfy` (module `ModeloCuenta`): class `Cuenta` with nullable, mutable
  fields, `equals` and `hashCode` by id, and the stored row `FilaCuenta`.
- `transaccion.dfy` (module `ModeloTransaccion`): class `Transaccion`, its
  constructors and the `alCrear` persist hook, and the stored row `FilaTransaccion`.
- `cuenta_tecnica.dfy` (module `ModeloCuentaTecnica`): class `CuentaTecnica` and
  its initialising constructor.
- `libro.dfy` (module `Libro`): the state as a value (`Estado`: table and log).
  Each operation is a function of that state: `Debito`, `Credito`, `Alta`, and
  `Movimiento` for the endpoint's dispatch. Series of requests are `Ejecutar`.
  This module also holds the lemmas about these functions.
- `servicio.dfy` (module `Servicio`): class `CuentaService`. Its fields
  `cuentas: map<Id, FilaCuenta>` and `transacciones: seq<FilaTransaccion>` are the
  two repositories. Its methods load a `Cuenta` entity, change it, write it back
  and append a `Transaccion`, as the Java code does. Each method is proved to
  leave the state that the matching `Libro` function computes, and to keep the
  class invariant `Valid()`.

The class invariant (`Libro.Invariante`) has three parts:
- account numbers are unique;
- every log entry refers to a stored account;
- every balance equals its opening balance plus the net of its log entries
  (`Neto`). So the table never disagrees with the movement history.

The opening balances are kept in a ghost field.

Outside inputs are parameters. The random UUID of each log entry is
`referencia`, `LocalDateTime.now()` is `ahora`, and the next value of the
identity column is `idNuevo`, which must not be in use yet.

### Behaviour of the code worth knowing

- The service does not check that an amount is positive. Only the request
  endpoint's validation (`@Positive` on `TransaccionRequestDTO.monto`) does. So
  `Credito` with a negative amount lowers a balance, and can drive it below zero
  (`Libro.CreditoNegativoRompeNoNegativos`). Non-negativity is proved under the
  endpoint's precondition (`Libro.EjecutarConservaNoNegativos`).
- `crearCuenta` stores a seeded balance as given, negative included
  (`Libro.AltaAdmiteSaldoNegativo`).
- The code has no idempotency key. Every movement gets a fresh random UUID and
  nothing is deduplicated. Two equal credits are both applied
  (`Libro.Escenario`: 100.00 − 30.00 + 50.00 + 50.00 = 170.00, not 120.00).
- There is no retry loop, no `Busy` and no `Timeout`. Each call is one
  transaction.
- Debit and credit find the account by id only, never by a bank code.

## Model

| member | source | states |
|---|---|---|
| `ModeloCuenta.Cuenta.constructor` | src/main/java/com/switchbank/mscontabilidad/modelo/Cuenta.java:34-35 | the empty constructor leaves every field null |
| `ModeloCuenta.Cuenta.ConId` | src/main/java/com/switchbank/mscontabilidad/modelo/Cuenta.java:38-40 | `Cuenta(id)` sets the id and leaves every other field null |
| `ModeloCuenta.Cuenta.DesdeFila` | src/main/java/com/switchbank/mscontabilidad/modelo/Cuenta.java:16-31 | the entity loaded for a row has every NOT NULL column set and writes back as that same row |
| `ModeloCuenta.Cuenta.Equals` | src/main/java/com/switchbank/mscontabilidad/modelo/Cuenta.java:42-50 | an account equals its argument exactly when the argument is a `Cuenta` with the same id (both null counts as the same); never null nor another class |
| `ModeloCuenta.Cuenta.HashCode` | src/main/java/com/switchbank/mscontabilidad/modelo/Cuenta.java:52-55 | `Objects.hash(id)` is 31 for a null id and 31 + id otherwise, wrapping past `Integer.MAX_VALUE` |
| `ModeloCuenta.IgualdadPorId` | src/main/java/com/switchbank/mscontabilidad/modelo/Cuenta.java:42-50 | two accounts are equal exactly when their ids are equal, whatever their other fields |
| `ModeloCuenta.IgualdadReflexiva` | src/main/java/com/switchbank/mscontabilidad/modelo/Cuenta.java:44-45 | every account equals itself |
| `ModeloCuenta.IgualdadEquivalencia` | src/main/java/com/switchbank/mscontabilidad/modelo/Cuenta.java:42-50 | `equals` is symmetric and transitive |
| `ModeloCuenta.DistintaDeNuloYOtraClase` | src/main/java/com/switchbank/mscontabilidad/modelo/Cuenta.java:46-47 | an account never equals null or an object of another class |
| `ModeloCuenta.IgualesMismoHash` | src/main/java/com/switchbank/mscontabilidad/modelo/Cuenta.java:42-55 | equal accounts have equal hash codes |
| `ModeloTransaccion.Transaccion.Vacia` | src/main/java/com/switchbank/mscontabilidad/modelo/Transaccion.java:15 | the no-argument constructor leaves every field null |
| `ModeloTransaccion.Transaccion.constructor` | src/main/java/com/switchbank/mscontabilidad/modelo/Transaccion.java:44-49 | stores account, amount, kind and reference exactly as given; the creation time stays unset |
| `ModeloTransaccion.Transaccion.AlCrear` | src/main/java/com/switchbank/mscontabilidad/modelo/Transaccion.java:39-42 | the persist hook sets the creation time to the clock reading and changes nothing else |
| `ModeloCuentaTecnica.CuentaTecnica.Vacia` | src/main/java/com/switchbank/mscontabilidad/modelo/CuentaTecnica.java:29 | the no-argument constructor leaves every field null |
| `ModeloCuentaTecnica.CuentaTecnica.constructor` | src/main/java/com/switchbank/mscontabilidad/modelo/CuentaTecnica.java:20-37 | stores the BIC code unchanged, a balance of exactly 0.00 and the signature `"INITIAL_HASH"`; the result meets the column constraints iff the code is present and at most 20 characters long |
| `Libro.Debito` | src/main/java/com/switchbank/mscontabilidad/servicio/CuentaService.java:57-75 | an unknown id gives `CuentaNoEncontrada` and a balance below the amount gives `SaldoInsuficiente`; it succeeds iff the account exists and amount ≤ balance; on success only that account changes, to balance − amount with version + 1, and the log gains exactly one DEBITO entry with that account, amount and reference |
| `Libro.Credito` | src/main/java/com/switchbank/mscontabilidad/servicio/CuentaService.java:77-91 | fails (with `CuentaNoEncontrada`) iff the id is unknown; otherwise only that account changes, to balance + amount with version + 1, with no funds check, and the log gains exactly one CREDITO entry |
| `Libro.Alta` | src/main/java/com/switchbank/mscontabilidad/servicio/CuentaService.java:46-55 | a DTO carrying an id is refused; a missing number or client reference, or a number already in use, breaks a column constraint; otherwise exactly one row is added and the log is untouched; the new row, read back as a DTO, is the given DTO with the new id and the balance defaulted to 0 when absent; its version is 0 |
| `Libro.SaldoInicial` | src/main/java/com/switchbank/mscontabilidad/servicio/CuentaService.java:50-52 | a balance given on creation is kept as it is; a missing one becomes zero |
| `Libro.Movimiento` | src/main/java/com/switchbank/mscontabilidad/controlador/CuentaController.java:59-63 | a movement fails exactly when the account is unknown (`CuentaNoEncontrada`) or it is a DEBITO above the balance (`SaldoInsuficiente`); on success only that account changes, by minus the amount for DEBITO and plus it for CREDITO, and the log gains exactly one entry of the requested kind |
| `Libro.Ejecutar` | src/main/java/com/switchbank/mscontabilidad/controlador/CuentaController.java:53-66 | a run of endpoint calls never adds or removes an account, and the log only grows: its old entries stay in front and it gains at most one entry per call |
| `Libro.NetoConcat` | src/main/java/com/switchbank/mscontabilidad/servicio/CuentaService.java:93-96 | appending a log entry adds exactly that entry's effect to every account's net movement |
| `Libro.NetoAjeno` | src/main/java/com/switchbank/mscontabilidad/servicio/CuentaService.java:46-55 | an account that no log entry refers to, such as a just-created one, has a net movement of zero |
| `Libro.AplicadoConservaInvariante` | src/main/java/com/switchbank/mscontabilidad/servicio/CuentaService.java:69-72 | saving a balance changed by an amount and logging that amount keeps unique numbers, valid log references, and balances equal to opening balance plus logged net |
| `Libro.DebitoConservaInvariante` | src/main/java/com/switchbank/mscontabilidad/servicio/CuentaService.java:62-72 | a successful debit keeps the invariant |
| `Libro.CreditoConservaInvariante` | src/main/java/com/switchbank/mscontabilidad/servicio/CuentaService.java:82-88 | a successful credit keeps the invariant |
| `Libro.AltaConservaInvariante` | src/main/java/com/switchbank/mscontabilidad/servicio/CuentaService.java:47-55 | a successful creation keeps the invariant, with the new account's opening balance set to the stored balance |
| `Libro.EjecutarConservaInvariante` | src/main/java/com/switchbank/mscontabilidad/controlador/CuentaController.java:54-63 | any series of debit and credit requests, each one atomic, keeps the invariant |
| `Libro.DebitoConservaNoNegativos` | src/main/java/com/switchbank/mscontabilidad/servicio/CuentaService.java:65-70 | the funds guard means a debit never leaves a negative balance, whatever the sign of the amount |
| `Libro.CreditoConservaNoNegativos` | src/main/java/com/switchbank/mscontabilidad/servicio/CuentaService.java:85-86 | a credit of a non-negative amount keeps all balances ≥ 0 |
| `Libro.CreditoNegativoRompeNoNegativos` | src/main/java/com/switchbank/mscontabilidad/servicio/CuentaService.java:82-86 | the service accepts a negative credit, which turns a zero balance into −0.01 |
| `Libro.AltaAdmiteSaldoNegativo` | src/main/java/com/switchbank/mscontabilidad/servicio/CuentaService.java:50-53 | a seeded balance of −1.00 is stored as given |
| `Libro.EjecutarConservaNoNegativos` | src/main/java/com/switchbank/mscontabilidad/dto/TransaccionRequestDTO.java:15-17 | any series of requests with positive amounts, as the endpoint's validation demands, keeps all balances ≥ 0 |
| `Libro.CreditoDeshaceDebito` | src/main/java/com/switchbank/mscontabilidad/servicio/CuentaService.java:65-88 | crediting back a debited amount always succeeds and restores the account row except for version + 2; the log gains the DEBITO then the CREDITO entry |
| `Libro.DebitoDeshaceCredito` | src/main/java/com/switchbank/mscontabilidad/servicio/CuentaService.java:65-88 | on a non-negative balance, debiting a credited amount always passes the funds guard and restores the balance |
| `Libro.CreditosAcumulan` | src/main/java/com/switchbank/mscontabilidad/servicio/CuentaService.java:82-88 | N credits on one account raise its balance by their sum and its version by N; the log keeps its old entries and gains exactly N; no other account changes |
| `Libro.SumaMontosUniforme` | src/main/java/com/switchbank/mscontabilidad/servicio/CuentaService.java:85 | N credits of the same amount m add up to N·m |
| `Libro.Escenario` | src/main/java/com/switchbank/mscontabilidad/servicio/CuentaService.java:57-91 | 100.00 debited 30.00 gives 70.00 and one DEBITO entry; a further debit of 80.00 is refused; two credits of 50.00 with the same reference both apply (170.00, three entries) |
| `Servicio.ADto` | src/main/java/com/switchbank/mscontabilidad/mapper/CuentaMapper.java:10 | the DTO of a fully loaded account carries exactly its id and its stored number, client reference and balance (not its version) |
| `Servicio.AEntidad` | src/main/java/com/switchbank/mscontabilidad/mapper/CuentaMapper.java:12-13 | the mapper builds a new entity with the DTO's id, number, client reference and balance, and no version |
| `Servicio.CuentaService.Cargar` | src/main/java/com/switchbank/mscontabilidad/servicio/CuentaService.java:62-63 | `findById` gives an entity iff the id is stored, and that entity holds the stored row |
| `Servicio.CuentaService.Guardar` | src/main/java/com/switchbank/mscontabilidad/servicio/CuentaService.java:69-70 | saving the loaded account rewrites its row with the new balance and raises its version by one; no other row changes |
| `Servicio.CuentaService.Persistir` | src/main/java/com/switchbank/mscontabilidad/servicio/CuentaService.java:53 | persisting a new account fails when it already has an id, when a NOT NULL column is missing, or when its number is in use; a failure writes nothing; otherwise one row is inserted under the new id with version 0 |
| `Servicio.CuentaService.ObtenerCuentaPorId` | src/main/java/com/switchbank/mscontabilidad/servicio/CuentaService.java:30-36 | succeeds iff the id is stored, returning that account's id, number, client reference and balance; otherwise `CuentaNoEncontrada`; nothing changes |
| `Servicio.CuentaService.ObtenerCuentaPorNumero` | src/main/java/com/switchbank/mscontabilidad/servicio/CuentaService.java:38-44 | succeeds iff some account has the number, and returns an account with that number; with unique numbers that is the only such account; otherwise `CuentaNoEncontrada` |
| `Servicio.CuentaService.CrearCuenta` | src/main/java/com/switchbank/mscontabilidad/servicio/CuentaService.java:46-55 | leaves exactly the state `Alta` computes (nothing written on failure) and returns the stored account; keeps the invariant |
| `Servicio.CuentaService.Debitar` | src/main/java/com/switchbank/mscontabilidad/servicio/CuentaService.java:57-75 | leaves exactly the state `Debito` computes: on failure neither table nor log is written; on success it returns the updated account; keeps the invariant |
| `Servicio.CuentaService.Acreditar` | src/main/java/com/switchbank/mscontabilidad/servicio/CuentaService.java:77-91 | leaves exactly the state `Credito` computes and returns the updated account; keeps the invariant |
| `Servicio.CuentaService.RegistrarTransaccion` | src/main/java/com/switchbank/mscontabilidad/servicio/CuentaService.java:93-96 | appends exactly one entry, carrying the account's id, the amount, the kind, the UUID and the persist-time stamp; earlier entries and the table are untouched |
| `Servicio.RealizarTransaccion` | src/main/java/com/switchbank/mscontabilidad/controlador/CuentaController.java:53-66 | a validated request (amount present and positive, kind present) goes to `debitar` when it is a DEBITO and to `acreditar` otherwise; it keeps the invariant and keeps balances non-negative |

## Left out

- HTTP routing, status codes, `ManejadorExcepciones` and `toString`: rendering only. The exceptions are the `Error` values of a `Result`.
- `@Transactional` isolation and rollback, and JPA `@Version` conflicts: each public method is one atomic step, and the version check at save always passes. Interleavings and retries are not modelled.
- `Objects.requireNonNull` on ids, amounts and the DTO: Dafny parameters cannot be null, so the `NullPointerException` path does not exist in the model.
- `BigDecimal` scale (`0` versus `0.00`) and rescaling of amounts with more than two decimals: amounts are whole cents.
- Column precision (19 and 18 digits) and `Long` overflow of `version`: integers are unbounded.
- The identity generator and the UUID generator: `idNuevo` and `referencia` are parameters.
- The surrogate id of `Transaccion` and the UUID key of `CuentaTecnica`: not stored. A log entry is identified by its position in the log.
- Uniqueness of `CuentaTecnica.codigoBic` across its table: the service that stores technical accounts (`LedgerService`, with `Movimiento`) is not part of this model.
- Hibernate returns a lazy proxy for `Transaccion.cuenta`, and `getClass()` of a proxy is a subclass. That case is the `OtraClase` argument of `Equals`.
- `Libro.Debito`: the version goes up by one on every successful call. Hibernate skips the update, and so the version increment, when an amount of zero leaves the balance unchanged. The endpoint never sends a zero amount.
- `Libro.Credito`: the version goes up by one even for an amount of zero, for the same reason as in `Libro.Debito`.
- `Servicio.CuentaService.Guardar`: only models a save of an entity loaded by `Cargar` whose balance alone changed. That is the only use the service makes of it.
- `Libro.Alta` and `Servicio.CuentaService.Persistir`: refusing a DTO that carries an id (`EntidadSeparada`) assumes a Hibernate version that rejects persisting an IDENTITY entity whose id is set (the build file that fixes the version is not part of this model). Earlier versions insert the row under a freshly generated id instead; the model does not capture that behaviour.
