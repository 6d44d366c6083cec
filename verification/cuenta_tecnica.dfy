/** The `CuentaTecnica` entity: a settlement account of a participant bank, keyed
    by its BIC code. */
module ModeloCuentaTecnica {
  import opened Comun

  /** The signature a technical account is born with. */
  const FirmaInicial: string := "INITIAL_HASH"

  /** Width of column `codigoBic`. */
  const LongitudBic: nat := 20

  class CuentaTecnica {
    /** The UUID key, generated when the row is first stored. */
    var id: Option<string>
    var codigoBic: Option<string>
    var saldoDisponible: Option<Centimos>
    var firmaIntegridad: Option<string>

    /** The no-argument constructor: every field unset. */
    constructor Vacia()
      ensures id == None && codigoBic == None && saldoDisponible == None && firmaIntegridad == None
    {
      id, codigoBic, saldoDisponible, firmaIntegridad := None, None, None, None;
    }

    /** `new CuentaTecnica(codigoBic)`: the given code, a zero balance at scale 2
        and the initial signature; the key is left to the store. */
    constructor (codigoBic: Option<string>)
      ensures this.codigoBic == codigoBic
      ensures saldoDisponible == Some(0) && firmaIntegridad == Some(FirmaInicial) && id == None
      ensures Persistible() <==> codigoBic.Some? && |codigoBic.value| <= LongitudBic
    {
      this.codigoBic := codigoBic;
      saldoDisponible := Some(0);
      firmaIntegridad := Some(FirmaInicial);
      id := None;
    }

    /** The column constraints a row must meet: a code of at most 20
        characters, a balance and a signature. */
    predicate Persistible()
      reads this
    {
      codigoBic.Some? && |codigoBic.value| <= LongitudBic
      && saldoDisponible.Some? && firmaIntegridad.Some?
    }
  }
}
