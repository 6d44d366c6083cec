/** The state behind `CuentaService` (the account table and the transaction log)
    and what each of its operations does to that state, written as functions.
    The class in module `Servicio` is proved to follow these functions; the
    lemmas here state what the functions guarantee. */
module Libro {
  import opened Comun
  import opened ModeloCuenta
  import opened ModeloTransaccion

  /** `CuentaDTO`: what the service hands back (the mapper copies these four
      fields of the entity; `version` is not exposed). */
  datatype CuentaDTO = CuentaDTO(
    id: Option<Id>,
    numeroCuenta: Option<string>,
    referenciaClienteId: Option<string>,
    saldo: Option<Centimos>)

  /** The account table keyed by id, and the transaction log in insertion order. */
  datatype Estado = Estado(cuentas: map<Id, FilaCuenta>, transacciones: seq<FilaTransaccion>)

  /** The DTO of the stored account `id`. */
  function FilaADto(id: Id, f: FilaCuenta): (d: CuentaDTO) {
    CuentaDTO(Some(id), Some(f.numeroCuenta), Some(f.referenciaClienteId), Some(f.saldo))
  }

  /** Some stored account has number `numero`. */
  predicate NumeroEnUso(cuentas: map<Id, FilaCuenta>, numero: string) {
    exists k :: k in cuentas && cuentas[k].numeroCuenta == numero
  }

  /** Column `numerocuenta` is UNIQUE. */
  ghost predicate NumerosUnicos(cuentas: map<Id, FilaCuenta>) {
    forall a, b :: a in cuentas && b in cuentas && cuentas[a].numeroCuenta == cuentas[b].numeroCuenta ==> a == b
  }

  /** Every log entry points at a stored account (the foreign key `cuentaId`). */
  ghost predicate ReferenciasValidas(e: Estado) {
    forall i :: 0 <= i < |e.transacciones| ==> e.transacciones[i].cuentaId in e.cuentas
  }

  ghost predicate SaldosNoNegativos(cuentas: map<Id, FilaCuenta>) {
    forall k :: k in cuentas ==> cuentas[k].saldo >= 0
  }

  /** What log entry `t` does to the balance of account `id`. */
  function Efecto(t: FilaTransaccion, id: Id): (delta: int) {
    if t.cuentaId != id then 0
    else if t.tipo == DEBITO then -t.monto
    else t.monto
  }

  /** The net movement the log records for account `id`. */
  function Neto(log: seq<FilaTransaccion>, id: Id): (neto: int) {
    if log == [] then 0 else Efecto(log[0], id) + Neto(log[1..], id)
  }

  /** Each balance is its opening balance plus the net of its log entries:
      the table never disagrees with the movement history. */
  ghost predicate Cuadra(e: Estado, iniciales: map<Id, Centimos>) {
    && iniciales.Keys == e.cuentas.Keys
    && forall k :: k in e.cuentas ==> e.cuentas[k].saldo == iniciales[k] + Neto(e.transacciones, k)
  }

  /** What every operation of the service keeps. */
  ghost predicate Invariante(e: Estado, iniciales: map<Id, Centimos>) {
    NumerosUnicos(e.cuentas) && ReferenciasValidas(e) && Cuadra(e, iniciales)
  }

  /** `despues` is `antes` with one movement applied to account `id`: that
      account gets balance `saldo` and a version one higher, every other
      account is as it was, and the log gains exactly entry `t` at its end. */
  ghost predicate Aplicado(antes: Estado, despues: Estado, id: Id, saldo: Centimos, t: FilaTransaccion) {
    && id in antes.cuentas
    && despues.cuentas.Keys == antes.cuentas.Keys
    && (forall k :: k in antes.cuentas && k != id ==> despues.cuentas[k] == antes.cuentas[k])
    && despues.cuentas[id] == antes.cuentas[id].(saldo := saldo, version := antes.cuentas[id].version + 1)
    && despues.transacciones == antes.transacciones + [t]
  }

  /** `debitar`: an unknown id and a balance below the amount are refused;
      otherwise the amount is taken off and one DEBITO entry is logged. */
  function Debito(e: Estado, id: Id, monto: Centimos, referencia: string, ahora: FechaHora): (r: Result<Estado, Error>)
    ensures id !in e.cuentas ==> r == Failure(CuentaNoEncontrada)
    ensures id in e.cuentas && e.cuentas[id].saldo < monto ==> r == Failure(SaldoInsuficiente)
    ensures r.Success? <==> id in e.cuentas && monto <= e.cuentas[id].saldo
    ensures r.Success? ==>
      Aplicado(e, r.value, id, e.cuentas[id].saldo - monto, FilaTransaccion(id, monto, DEBITO, referencia, Some(ahora)))
  {
    if id !in e.cuentas then Failure(CuentaNoEncontrada)
    else
      var f := e.cuentas[id];
      if f.saldo < monto then Failure(SaldoInsuficiente)
      else
        Success(Estado(e.cuentas[id := f.(saldo := f.saldo - monto, version := f.version + 1)],
                       e.transacciones + [FilaTransaccion(id, monto, DEBITO, referencia, Some(ahora))]))
  }

  /** `acreditar`: an unknown id is refused; otherwise the amount is added,
      with no check of its sign, and one CREDITO entry is logged. */
  function Credito(e: Estado, id: Id, monto: Centimos, referencia: string, ahora: FechaHora): (r: Result<Estado, Error>)
    ensures r.Failure? <==> id !in e.cuentas
    ensures r.Failure? ==> r.error == CuentaNoEncontrada
    ensures r.Success? ==>
      Aplicado(e, r.value, id, e.cuentas[id].saldo + monto, FilaTransaccion(id, monto, CREDITO, referencia, Some(ahora)))
  {
    if id !in e.cuentas then Failure(CuentaNoEncontrada)
    else
      var f := e.cuentas[id];
      Success(Estado(e.cuentas[id := f.(saldo := f.saldo + monto, version := f.version + 1)],
                     e.transacciones + [FilaTransaccion(id, monto, CREDITO, referencia, Some(ahora))]))
  }

  /** The balance `crearCuenta` stores: the given one, or zero when none is given. */
  function SaldoInicial(saldo: Option<Centimos>): (s: Centimos)
    ensures saldo.Some? ==> Some(s) == saldo
    ensures saldo.None? ==> s == 0
  {
    if saldo.None? then 0 else saldo.value
  }

  /** `crearCuenta` with `idNuevo` the next value of the identity column: a DTO
      carrying an id cannot be persisted, a missing number or client reference
      and a number already in use break a column constraint; otherwise exactly
      one new row is stored, holding the DTO's data with the id filled in, the
      balance defaulted and version 0, and the log is untouched. */
  function Alta(e: Estado, dto: CuentaDTO, idNuevo: Id): (r: Result<Estado, Error>)
    requires idNuevo !in e.cuentas
    ensures dto.id.Some? ==> r == Failure(EntidadSeparada)
    ensures r.Success? <==>
      dto.id.None? && dto.numeroCuenta.Some? && dto.referenciaClienteId.Some?
      && !NumeroEnUso(e.cuentas, dto.numeroCuenta.value)
    ensures r.Failure? && dto.id.None? ==> r.error == ViolacionIntegridad
    ensures r.Success? ==>
      && r.value.transacciones == e.transacciones
      && r.value.cuentas.Keys == e.cuentas.Keys + {idNuevo}
      && (forall k :: k in e.cuentas ==> r.value.cuentas[k] == e.cuentas[k])
      && FilaADto(idNuevo, r.value.cuentas[idNuevo]) == dto.(id := Some(idNuevo), saldo := Some(SaldoInicial(dto.saldo)))
      && r.value.cuentas[idNuevo].version == 0
  {
    if dto.id.Some? then Failure(EntidadSeparada)
    else if dto.numeroCuenta.None? || dto.referenciaClienteId.None? then Failure(ViolacionIntegridad)
    else if NumeroEnUso(e.cuentas, dto.numeroCuenta.value) then Failure(ViolacionIntegridad)
    else
      var fila := FilaCuenta(dto.numeroCuenta.value, dto.referenciaClienteId.value, SaldoInicial(dto.saldo), 0);
      Success(Estado(e.cuentas[idNuevo := fila], e.transacciones))
  }

  /** The request endpoint's dispatch: DEBITO goes to `debitar`, every other
      kind to `acreditar`. */
  function Movimiento(e: Estado, id: Id, monto: Centimos, tipo: TipoOperacion, referencia: string,
                      ahora: FechaHora): (r: Result<Estado, Error>)
    ensures r.Failure? <==> id !in e.cuentas || (tipo == DEBITO && e.cuentas[id].saldo < monto)
    ensures r.Failure? ==> r == Failure(if id !in e.cuentas then CuentaNoEncontrada else SaldoInsuficiente)
    ensures r.Success? ==>
      var t := FilaTransaccion(id, monto, tipo, referencia, Some(ahora));
      Aplicado(e, r.value, id, e.cuentas[id].saldo + Efecto(t, id), t)
  {
    if tipo == DEBITO then Debito(e, id, monto, referencia, ahora)
    else Credito(e, id, monto, referencia, ahora)
  }

  /** One request to the transaction endpoint. */
  datatype Orden = Orden(cuentaId: Id, tipo: TipoOperacion, monto: Centimos, referencia: string, ahora: FechaHora)

  /** A series of requests, each one its own unit of work: a refused request
      leaves the state as it found it and the next one goes on from there. */
  function Ejecutar(e: Estado, ordenes: seq<Orden>): (r: Estado)
    ensures r.cuentas.Keys == e.cuentas.Keys
    ensures |e.transacciones| <= |r.transacciones| <= |e.transacciones| + |ordenes|
    ensures r.transacciones[..|e.transacciones|] == e.transacciones
    decreases |ordenes|
  {
    if ordenes == [] then e
    else
      var o := ordenes[0];
      var r := Movimiento(e, o.cuentaId, o.monto, o.tipo, o.referencia, o.ahora);
      Ejecutar(if r.Success? then r.value else e, ordenes[1..])
  }

  function SumaMontos(ordenes: seq<Orden>): (suma: int) {
    if ordenes == [] then 0 else ordenes[0].monto + SumaMontos(ordenes[1..])
  }

  // ---------------------------------------------------------------------------
  // The log and the balances

  /** Appending an entry adds its effect to the net of every account. */
  lemma {:induction false} NetoConcat(log: seq<FilaTransaccion>, t: FilaTransaccion, id: Id)
    ensures Neto(log + [t], id) == Neto(log, id) + Efecto(t, id)
  {
    if log != [] {
      assert (log + [t])[1..] == log[1..] + [t];
      NetoConcat(log[1..], t, id);
    }
  }

  /** An account no entry points at has a zero net. */
  lemma {:induction false} NetoAjeno(log: seq<FilaTransaccion>, id: Id)
    requires forall i :: 0 <= i < |log| ==> log[i].cuentaId != id
    ensures Neto(log, id) == 0
  {
    if log != [] {
      NetoAjeno(log[1..], id);
    }
  }

  /** A movement that sets the balance to old balance plus the entry's effect
      keeps the invariant. */
  lemma AplicadoConservaInvariante(antes: Estado, despues: Estado, id: Id, saldo: Centimos,
                                   t: FilaTransaccion, iniciales: map<Id, Centimos>)
    requires Invariante(antes, iniciales)
    requires Aplicado(antes, despues, id, saldo, t)
    requires t.cuentaId == id && saldo == antes.cuentas[id].saldo + Efecto(t, id)
    ensures Invariante(despues, iniciales)
  {
    forall k | k in despues.cuentas
      ensures despues.cuentas[k].saldo == iniciales[k] + Neto(despues.transacciones, k)
    {
      NetoConcat(antes.transacciones, t, k);
    }
  }

  /** A successful debit keeps the table in line with the log. */
  lemma DebitoConservaInvariante(e: Estado, iniciales: map<Id, Centimos>, id: Id, monto: Centimos,
                                 referencia: string, ahora: FechaHora)
    requires Invariante(e, iniciales)
    ensures Debito(e, id, monto, referencia, ahora).Success? ==>
      Invariante(Debito(e, id, monto, referencia, ahora).value, iniciales)
  {
    var r := Debito(e, id, monto, referencia, ahora);
    if r.Success? {
      AplicadoConservaInvariante(e, r.value, id, e.cuentas[id].saldo - monto,
        FilaTransaccion(id, monto, DEBITO, referencia, Some(ahora)), iniciales);
    }
  }

  /** A successful credit keeps the table in line with the log. */
  lemma CreditoConservaInvariante(e: Estado, iniciales: map<Id, Centimos>, id: Id, monto: Centimos,
                                  referencia: string, ahora: FechaHora)
    requires Invariante(e, iniciales)
    ensures Credito(e, id, monto, referencia, ahora).Success? ==>
      Invariante(Credito(e, id, monto, referencia, ahora).value, iniciales)
  {
    var r := Credito(e, id, monto, referencia, ahora);
    if r.Success? {
      AplicadoConservaInvariante(e, r.value, id, e.cuentas[id].saldo + monto,
        FilaTransaccion(id, monto, CREDITO, referencia, Some(ahora)), iniciales);
    }
  }

  /** Creating an account keeps the invariant, the new account opening with
      the balance it was created with and no log entries. */
  lemma AltaConservaInvariante(e: Estado, iniciales: map<Id, Centimos>, dto: CuentaDTO, idNuevo: Id)
    requires Invariante(e, iniciales)
    requires idNuevo !in e.cuentas
    ensures Alta(e, dto, idNuevo).Success? ==>
      Invariante(Alta(e, dto, idNuevo).value, iniciales[idNuevo := SaldoInicial(dto.saldo)])
  {
    var r := Alta(e, dto, idNuevo);
    if r.Success? {
      NetoAjeno(e.transacciones, idNuevo);
    }
  }

  /** Any series of requests keeps the invariant. */
  lemma {:induction false} EjecutarConservaInvariante(e: Estado, iniciales: map<Id, Centimos>, ordenes: seq<Orden>)
    requires Invariante(e, iniciales)
    ensures Invariante(Ejecutar(e, ordenes), iniciales)
    decreases |ordenes|
  {
    if ordenes != [] {
      var o := ordenes[0];
      DebitoConservaInvariante(e, iniciales, o.cuentaId, o.monto, o.referencia, o.ahora);
      CreditoConservaInvariante(e, iniciales, o.cuentaId, o.monto, o.referencia, o.ahora);
      var r := Movimiento(e, o.cuentaId, o.monto, o.tipo, o.referencia, o.ahora);
      EjecutarConservaInvariante(if r.Success? then r.value else e, iniciales, ordenes[1..]);
    }
  }

  // ---------------------------------------------------------------------------
  // Non-negative balances

  /** A debit never leaves a negative balance behind, whatever the amount's sign. */
  lemma DebitoConservaNoNegativos(e: Estado, id: Id, monto: Centimos, referencia: string, ahora: FechaHora)
    requires SaldosNoNegativos(e.cuentas)
    ensures Debito(e, id, monto, referencia, ahora).Success? ==>
      SaldosNoNegativos(Debito(e, id, monto, referencia, ahora).value.cuentas)
  {
  }

  /** A credit of a non-negative amount keeps balances non-negative. */
  lemma CreditoConservaNoNegativos(e: Estado, id: Id, monto: Centimos, referencia: string, ahora: FechaHora)
    requires SaldosNoNegativos(e.cuentas)
    requires monto >= 0
    ensures Credito(e, id, monto, referencia, ahora).Success? ==>
      SaldosNoNegativos(Credito(e, id, monto, referencia, ahora).value.cuentas)
  {
  }

  /** The service alone does not keep balances non-negative: a negative credit
      goes through and drives a zero balance below zero. */
  lemma CreditoNegativoRompeNoNegativos()
    ensures var e := Estado(map[1 := FilaCuenta("0001", "cliente", 0, 0)], []);
      && SaldosNoNegativos(e.cuentas)
      && Credito(e, 1, -1, "ref", 0).Success?
      && !SaldosNoNegativos(Credito(e, 1, -1, "ref", 0).value.cuentas)
  {
    var e := Estado(map[1 := FilaCuenta("0001", "cliente", 0, 0)], []);
    assert Credito(e, 1, -1, "ref", 0).value.cuentas[1].saldo == -1;
  }

  /** Neither does account creation: a seeded negative balance is stored as given. */
  lemma AltaAdmiteSaldoNegativo()
    ensures var e := Estado(map[], []);
      var dto := CuentaDTO(None, Some("0001"), Some("cliente"), Some(-100));
      && Alta(e, dto, 1).Success?
      && Alta(e, dto, 1).value.cuentas[1].saldo == -100
  {
  }

  /** Every request of the endpoint, whose amounts are positive, keeps
      balances non-negative. */
  lemma {:induction false} EjecutarConservaNoNegativos(e: Estado, ordenes: seq<Orden>)
    requires SaldosNoNegativos(e.cuentas)
    requires forall i :: 0 <= i < |ordenes| ==> ordenes[i].monto > 0
    ensures SaldosNoNegativos(Ejecutar(e, ordenes).cuentas)
    decreases |ordenes|
  {
    if ordenes != [] {
      var o := ordenes[0];
      DebitoConservaNoNegativos(e, o.cuentaId, o.monto, o.referencia, o.ahora);
      CreditoConservaNoNegativos(e, o.cuentaId, o.monto, o.referencia, o.ahora);
      var r := Movimiento(e, o.cuentaId, o.monto, o.tipo, o.referencia, o.ahora);
      EjecutarConservaNoNegativos(if r.Success? then r.value else e, ordenes[1..]);
    }
  }

  // ---------------------------------------------------------------------------
  // Debit and credit undo each other

  /** Crediting back a debited amount restores the balance; two entries are
      logged and the version has moved twice. */
  lemma CreditoDeshaceDebito(e: Estado, id: Id, monto: Centimos, r1: string, t1: FechaHora, r2: string, t2: FechaHora)
    requires Debito(e, id, monto, r1, t1).Success?
    ensures var d := Debito(e, id, monto, r1, t1).value;
      var c := Credito(d, id, monto, r2, t2);
      && c.Success?
      && c.value.cuentas[id] == e.cuentas[id].(version := e.cuentas[id].version + 2)
      && c.value.transacciones == e.transacciones
           + [FilaTransaccion(id, monto, DEBITO, r1, Some(t1)), FilaTransaccion(id, monto, CREDITO, r2, Some(t2))]
  {
  }

  /** On a non-negative balance a credited amount can always be debited again,
      which restores the balance. */
  lemma DebitoDeshaceCredito(e: Estado, id: Id, monto: Centimos, r1: string, t1: FechaHora, r2: string, t2: FechaHora)
    requires id in e.cuentas && e.cuentas[id].saldo >= 0
    ensures var c := Credito(e, id, monto, r1, t1).value;
      var d := Debito(c, id, monto, r2, t2);
      && d.Success?
      && d.value.cuentas[id] == e.cuentas[id].(version := e.cuentas[id].version + 2)
      && |d.value.transacciones| == |e.transacciones| + 2
  {
  }

  // ---------------------------------------------------------------------------
  // Series of credits

  /** N credits on one account raise its balance by their sum, log exactly N
      entries after the existing ones, and leave every other account alone. */
  lemma {:induction false} CreditosAcumulan(e: Estado, id: Id, ordenes: seq<Orden>)
    requires id in e.cuentas
    requires forall i :: 0 <= i < |ordenes| ==> ordenes[i].cuentaId == id && ordenes[i].tipo == CREDITO
    ensures var f := Ejecutar(e, ordenes);
      && f.cuentas.Keys == e.cuentas.Keys
      && f.cuentas[id].saldo == e.cuentas[id].saldo + SumaMontos(ordenes)
      && f.cuentas[id].version == e.cuentas[id].version + |ordenes|
      && |f.transacciones| == |e.transacciones| + |ordenes|
      && f.transacciones[..|e.transacciones|] == e.transacciones
      && (forall k :: k in e.cuentas && k != id ==> f.cuentas[k] == e.cuentas[k])
    decreases |ordenes|
  {
    if ordenes != [] {
      var o := ordenes[0];
      var s := Credito(e, id, o.monto, o.referencia, o.ahora).value;
      CreditosAcumulan(s, id, ordenes[1..]);
      var f := Ejecutar(s, ordenes[1..]);
      assert f.transacciones[..|e.transacciones|] == f.transacciones[..|s.transacciones|][..|e.transacciones|];
    }
  }

  /** N equal amounts m add up to N * m. */
  lemma {:induction false} SumaMontosUniforme(ordenes: seq<Orden>, m: Centimos)
    requires forall i :: 0 <= i < |ordenes| ==> ordenes[i].monto == m
    ensures SumaMontos(ordenes) == |ordenes| * m
  {
    if ordenes != [] {
      SumaMontosUniforme(ordenes[1..], m);
    }
  }

  /** A balance of 100.00 debited 30.00 becomes 70.00 with one DEBITO entry; a
      further debit of 80.00 is refused; two credits of 50.00 carrying the
      same reference are both applied, giving 170.00 and three entries. */
  lemma Escenario()
    ensures var e := Estado(map[7 := FilaCuenta("0007", "cliente", 10000, 0)], []);
      var d := Debito(e, 7, 3000, "r1", 1);
      && d.Success?
      && d.value.cuentas[7].saldo == 7000
      && d.value.transacciones == [FilaTransaccion(7, 3000, DEBITO, "r1", Some(1))]
      && Debito(d.value, 7, 8000, "r2", 2) == Failure(SaldoInsuficiente)
      && var c1 := Credito(d.value, 7, 5000, "X", 3);
         && c1.Success?
         && var c2 := Credito(c1.value, 7, 5000, "X", 4);
            && c2.Success?
            && c2.value.cuentas[7].saldo == 17000
            && |c2.value.transacciones| == 3
  {
  }
}
