/** `CuentaService`: the account balance engine. It holds the account table and
    the transaction log, loads an account as a `Cuenta` entity, changes the
    entity's balance, writes it back and appends a `Transaccion` for it. Each
    public method is one unit of work and is proved to follow the function of
    module `Libro` that specifies it. */
module Servicio {
  import opened Comun
  import opened ModeloCuenta
  import opened ModeloTransaccion
  import opened Libro

  /** `CuentaMapper.aDTO`: copies id, number, client reference and balance. */
  function ADto(c: Cuenta): (d: CuentaDTO)
    reads c
    ensures c.Completa() ==> d == FilaADto(c.id.value, c.AFila())
  {
    CuentaDTO(c.id, c.numeroCuenta, c.referenciaClienteId, c.saldo)
  }

  /** `CuentaMapper.aEntidad`: a new entity with the DTO's four fields and no version. */
  method AEntidad(dto: CuentaDTO) returns (c: Cuenta)
    ensures fresh(c)
    ensures c.id == dto.id && c.numeroCuenta == dto.numeroCuenta
    ensures c.referenciaClienteId == dto.referenciaClienteId && c.saldo == dto.saldo
    ensures c.version == None
  {
    c := new Cuenta();
    c.id := dto.id;
    c.numeroCuenta := dto.numeroCuenta;
    c.referenciaClienteId := dto.referenciaClienteId;
    c.saldo := dto.saldo;
  }

  class CuentaService {
    /** The `Cuenta` table, by primary key. */
    var cuentas: map<Id, FilaCuenta>
    /** The `Transaccion` table, in insertion order. */
    var transacciones: seq<FilaTransaccion>
    /** The balance each account was created with. */
    ghost var saldosIniciales: map<Id, Centimos>

    ghost function Actual(): Estado
      reads this
    {
      Estado(cuentas, transacciones)
    }

    ghost predicate Valid()
      reads this
    {
      Invariante(Actual(), saldosIniciales)
    }

    /** A service over empty tables. */
    constructor ()
      ensures Valid() && cuentas == map[] && transacciones == []
    {
      cuentas, transacciones := map[], [];
      saldosIniciales := map[];
    }

    /** `findById`: the stored row `id` as a new entity, if there is one. */
    method Cargar(id: Id) returns (c: Option<Cuenta>)
      ensures c.Some? <==> id in cuentas
      ensures c.Some? ==> fresh(c.value) && c.value.Completa() && c.value.id == Some(id)
      ensures c.Some? ==> c.value.AFila() == cuentas[id]
    {
      if id in cuentas {
        var cuenta := new Cuenta.DesdeFila(id, cuentas[id]);
        return Some(cuenta);
      }
      return None;
    }

    /** `save` of an entity loaded by `Cargar` whose balance alone was changed:
        the row is rewritten and the version moves one up. */
    method Guardar(cuenta: Cuenta) returns (guardada: Cuenta)
      requires cuenta.Completa() && cuenta.id.value in cuentas
      requires cuenta.numeroCuenta.value == cuentas[cuenta.id.value].numeroCuenta
      requires cuenta.referenciaClienteId.value == cuentas[cuenta.id.value].referenciaClienteId
      requires cuenta.version.value == cuentas[cuenta.id.value].version
      modifies this`cuentas, cuenta`version
      ensures guardada == cuenta && cuenta.Completa()
      ensures cuenta.version == Some(old(cuenta.version.value) + 1)
      ensures cuentas == old(cuentas)[cuenta.id.value := cuenta.AFila()]
    {
      cuenta.version := Some(cuenta.version.value + 1);
      cuentas := cuentas[cuenta.id.value := cuenta.AFila()];
      guardada := cuenta;
    }

    /** `save` of a new entity: the identity column supplies `idNuevo`; an
        entity that already carries an id is refused, and so is one that
        breaks a NOT NULL or the UNIQUE constraint; otherwise the row is
        inserted with version 0. */
    method Persistir(cuenta: Cuenta, idNuevo: Id) returns (r: Result<Cuenta, Error>)
      requires idNuevo !in cuentas
      modifies this`cuentas, cuenta
      ensures old(cuenta.id).Some? ==> r == Failure(EntidadSeparada)
      ensures r.Success? <==>
        old(cuenta.id).None? && cuenta.numeroCuenta.Some? && cuenta.referenciaClienteId.Some?
        && cuenta.saldo.Some? && !NumeroEnUso(old(cuentas), cuenta.numeroCuenta.value)
      ensures r.Failure? ==> cuentas == old(cuentas) && unchanged(cuenta)
      ensures r.Failure? && old(cuenta.id).None? ==> r.error == ViolacionIntegridad
      ensures r.Success? ==> r.value == cuenta && cuenta.Completa() && cuenta.id == Some(idNuevo)
      ensures r.Success? ==> cuenta.version == Some(0) && cuentas == old(cuentas)[idNuevo := cuenta.AFila()]
      ensures cuenta.numeroCuenta == old(cuenta.numeroCuenta) && cuenta.saldo == old(cuenta.saldo)
      ensures cuenta.referenciaClienteId == old(cuenta.referenciaClienteId)
    {
      if cuenta.id.Some? {
        return Failure(EntidadSeparada);
      }
      if cuenta.numeroCuenta.None? || cuenta.referenciaClienteId.None? || cuenta.saldo.None? {
        return Failure(ViolacionIntegridad);
      }
      if NumeroEnUso(cuentas, cuenta.numeroCuenta.value) {
        return Failure(ViolacionIntegridad);
      }
      cuenta.id := Some(idNuevo);
      cuenta.version := Some(0);
      cuentas := cuentas[idNuevo := cuenta.AFila()];
      r := Success(cuenta);
    }

    /** `obtenerCuentaPorId`: the DTO of account `id`, or `CuentaNoEncontrada`. */
    method ObtenerCuentaPorId(id: Id) returns (r: Result<CuentaDTO, Error>)
      ensures r.Success? <==> id in cuentas
      ensures r.Success? ==> r.value == FilaADto(id, cuentas[id])
      ensures r.Failure? ==> r.error == CuentaNoEncontrada
    {
      var hallada := Cargar(id);
      if hallada.None? {
        return Failure(CuentaNoEncontrada);
      }
      r := Success(ADto(hallada.value));
    }

    /** `obtenerCuentaPorNumero`: the DTO of the account with number `numero`,
        or `CuentaNoEncontrada`. With numbers unique the answer is the one
        account holding that number. */
    method ObtenerCuentaPorNumero(numero: string) returns (r: Result<CuentaDTO, Error>)
      ensures r.Success? <==> NumeroEnUso(cuentas, numero)
      ensures r.Failure? ==> r.error == CuentaNoEncontrada
      ensures r.Success? ==>
        exists k :: k in cuentas && cuentas[k].numeroCuenta == numero && r.value == FilaADto(k, cuentas[k])
      ensures NumerosUnicos(cuentas) ==>
        forall k :: k in cuentas && cuentas[k].numeroCuenta == numero ==> r == Success(FilaADto(k, cuentas[k]))
    {
      if !NumeroEnUso(cuentas, numero) {
        return Failure(CuentaNoEncontrada);
      }
      var id :| id in cuentas && cuentas[id].numeroCuenta == numero;
      var cuenta := new Cuenta.DesdeFila(id, cuentas[id]);
      r := Success(ADto(cuenta));
    }

    /** `crearCuenta`: stores the DTO as a new account, with balance zero when
        none is given, and returns what was stored. */
    method CrearCuenta(dto: CuentaDTO, idNuevo: Id) returns (r: Result<CuentaDTO, Error>)
      requires Valid()
      requires idNuevo !in cuentas
      modifies this
      ensures Valid()
      ensures Alta(old(Actual()), dto, idNuevo).Failure? ==>
        r == Failure(Alta(old(Actual()), dto, idNuevo).error) && Actual() == old(Actual())
      ensures Alta(old(Actual()), dto, idNuevo).Success? ==>
        Actual() == Alta(old(Actual()), dto, idNuevo).value && r == Success(FilaADto(idNuevo, cuentas[idNuevo]))
    {
      var cuenta := AEntidad(dto);
      if cuenta.saldo.None? {
        cuenta.saldo := Some(0);
      }
      var guardada := Persistir(cuenta, idNuevo);
      if guardada.Failure? {
        return Failure(guardada.error);
      }
      AltaConservaInvariante(old(Actual()), saldosIniciales, dto, idNuevo);
      saldosIniciales := saldosIniciales[idNuevo := guardada.value.saldo.value];
      r := Success(ADto(guardada.value));
    }

    /** `debitar`: refuses an unknown account and a balance below the amount,
        writing nothing; otherwise lowers the balance by the amount, saves the
        account and logs one DEBITO entry for it. */
    method Debitar(cuentaId: Id, monto: Centimos, referencia: string, ahora: FechaHora)
      returns (r: Result<CuentaDTO, Error>)
      requires Valid()
      modifies this
      ensures Valid() && saldosIniciales == old(saldosIniciales)
      ensures Debito(old(Actual()), cuentaId, monto, referencia, ahora).Failure? ==>
        r == Failure(Debito(old(Actual()), cuentaId, monto, referencia, ahora).error) && Actual() == old(Actual())
      ensures Debito(old(Actual()), cuentaId, monto, referencia, ahora).Success? ==>
        Actual() == Debito(old(Actual()), cuentaId, monto, referencia, ahora).value
        && r == Success(FilaADto(cuentaId, cuentas[cuentaId]))
    {
      ghost var antes := Actual();
      var hallada := Cargar(cuentaId);
      if hallada.None? {
        return Failure(CuentaNoEncontrada);
      }
      var cuenta := hallada.value;
      if cuenta.saldo.value < monto {
        return Failure(SaldoInsuficiente);
      }
      ghost var despues := Debito(antes, cuentaId, monto, referencia, ahora).value;
      DebitoConservaInvariante(antes, saldosIniciales, cuentaId, monto, referencia, ahora);
      cuenta.saldo := Some(cuenta.saldo.value - monto);
      var actualizada := Guardar(cuenta);
      assert cuentas == despues.cuentas;
      RegistrarTransaccion(actualizada, monto, DEBITO, referencia, ahora);
      assert transacciones == despues.transacciones;
      r := Success(ADto(actualizada));
    }

    /** `acreditar`: refuses an unknown account, writing nothing; otherwise
        raises the balance by the amount, saves the account and logs one
        CREDITO entry for it. */
    method Acreditar(cuentaId: Id, monto: Centimos, referencia: string, ahora: FechaHora)
      returns (r: Result<CuentaDTO, Error>)
      requires Valid()
      modifies this
      ensures Valid() && saldosIniciales == old(saldosIniciales)
      ensures Credito(old(Actual()), cuentaId, monto, referencia, ahora).Failure? ==>
        r == Failure(CuentaNoEncontrada) && Actual() == old(Actual())
      ensures Credito(old(Actual()), cuentaId, monto, referencia, ahora).Success? ==>
        Actual() == Credito(old(Actual()), cuentaId, monto, referencia, ahora).value
        && r == Success(FilaADto(cuentaId, cuentas[cuentaId]))
    {
      ghost var antes := Actual();
      var hallada := Cargar(cuentaId);
      if hallada.None? {
        return Failure(CuentaNoEncontrada);
      }
      var cuenta := hallada.value;
      ghost var despues := Credito(antes, cuentaId, monto, referencia, ahora).value;
      CreditoConservaInvariante(antes, saldosIniciales, cuentaId, monto, referencia, ahora);
      cuenta.saldo := Some(cuenta.saldo.value + monto);
      var actualizada := Guardar(cuenta);
      assert cuentas == despues.cuentas;
      RegistrarTransaccion(actualizada, monto, CREDITO, referencia, ahora);
      assert transacciones == despues.transacciones;
      r := Success(ADto(actualizada));
    }

    /** `registrarTransaccion`: builds the log entry for the saved account,
        stamps it through the persist hook and appends it; `referencia` is the
        fresh random UUID and `ahora` the clock reading. */
    method RegistrarTransaccion(cuenta: Cuenta, monto: Centimos, tipo: TipoOperacion,
                                referencia: string, ahora: FechaHora)
      requires cuenta.id.Some?
      modifies this`transacciones
      ensures transacciones == old(transacciones) + [FilaTransaccion(cuenta.id.value, monto, tipo, referencia, Some(ahora))]
    {
      var log := new Transaccion(cuenta, Some(monto), Some(tipo), Some(referencia));
      log.AlCrear(ahora);
      transacciones := transacciones + [log.AFila()];
    }
  }

  /** `TransaccionRequestDTO`: the body of a transaction request. */
  datatype TransaccionRequest = TransaccionRequest(monto: Option<Centimos>, tipo: Option<TipoOperacion>)

  /** `realizarTransaccion` of the account endpoint: a request that passed its
      validation (amount present and positive, kind present) is sent to
      `debitar` when it is a DEBITO and to `acreditar` otherwise. */
  method RealizarTransaccion(servicio: CuentaService, id: Id, request: TransaccionRequest,
                             referencia: string, ahora: FechaHora)
    returns (r: Result<CuentaDTO, Error>)
    requires servicio.Valid()
    requires request.monto.Some? && request.monto.value > 0 && request.tipo.Some?
    modifies servicio
    ensures servicio.Valid()
    ensures SaldosNoNegativos(old(servicio.cuentas)) ==> SaldosNoNegativos(servicio.cuentas)
    ensures var m := Movimiento(old(servicio.Actual()), id, request.monto.value, request.tipo.value, referencia, ahora);
      && (m.Failure? ==> r == Failure(m.error) && servicio.Actual() == old(servicio.Actual()))
      && (m.Success? ==> servicio.Actual() == m.value && r == Success(FilaADto(id, servicio.cuentas[id])))
  {
    ghost var antes := servicio.Actual();
    var monto := request.monto.value;
    if request.tipo.value == DEBITO {
      r := servicio.Debitar(id, monto, referencia, ahora);
      if SaldosNoNegativos(antes.cuentas) {
        DebitoConservaNoNegativos(antes, id, monto, referencia, ahora);
      }
    } else {
      r := servicio.Acreditar(id, monto, referencia, ahora);
      if SaldosNoNegativos(antes.cuentas) {
        CreditoConservaNoNegativos(antes, id, monto, referencia, ahora);
      }
    }
  }
}
