/** The `Transaccion` entity: one movement of the audit log, pointing at the
    account it moved. */
module ModeloTransaccion {
  import opened Comun
  import opened ModeloCuenta

  /** A stored row of table `Transaccion`. `cuentaId` is the foreign key of the
      many-to-one link to `Cuenta`; `fechaCreacion` is the one nullable column. */
  datatype FilaTransaccion = FilaTransaccion(
    cuentaId: Id,
    monto: Centimos,
    tipo: TipoOperacion,
    referenciaUuid: string,
    fechaCreacion: Option<FechaHora>)

  class Transaccion {
    var cuenta: Cuenta?
    var monto: Option<Centimos>
    var tipo: Option<TipoOperacion>
    var referenciaUuid: Option<string>
    var fechaCreacion: Option<FechaHora>

    /** The no-argument constructor: every field unset. */
    constructor Vacia()
      ensures cuenta == null && monto == None && tipo == None
      ensures referenciaUuid == None && fechaCreacion == None
    {
      cuenta, monto, tipo, referenciaUuid, fechaCreacion := null, None, None, None, None;
    }

    /** The four-argument constructor: stores its arguments as given and leaves
        the creation time unset. */
    constructor (cuenta: Cuenta?, monto: Option<Centimos>, tipo: Option<TipoOperacion>,
                 referenciaUuid: Option<string>)
      ensures this.cuenta == cuenta && this.monto == monto && this.tipo == tipo
      ensures this.referenciaUuid == referenciaUuid && fechaCreacion == None
    {
      this.cuenta := cuenta;
      this.monto := monto;
      this.tipo := tipo;
      this.referenciaUuid := referenciaUuid;
      fechaCreacion := None;
    }

    /** The persist hook: stamps the creation time and touches nothing else. */
    method AlCrear(ahora: FechaHora)
      modifies this`fechaCreacion
      ensures fechaCreacion == Some(ahora)
    {
      fechaCreacion := Some(ahora);
    }

    /** The NOT NULL columns are all set, and the account has a key. */
    predicate Persistible()
      reads this, if cuenta == null then {} else {cuenta}
    {
      cuenta != null && cuenta.id.Some? && monto.Some? && tipo.Some? && referenciaUuid.Some?
    }

    /** The row this entity is written as. */
    function AFila(): FilaTransaccion
      reads this, cuenta
      requires Persistible()
    {
      FilaTransaccion(cuenta.id.value, monto.value, tipo.value, referenciaUuid.value, fechaCreacion)
    }
  }
}
