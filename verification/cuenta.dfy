/** The `Cuenta` entity: a customer account with a balance, identified by its
    surrogate id. Its fields are nullable and mutable (Lombok setters); equality
    and hashing look at the id only. */
module ModeloCuenta {
  import opened Comun

  /** A stored row of table `Cuenta`. Every column but the key is here; the
      NOT NULL constraints make each of them present. */
  datatype FilaCuenta = FilaCuenta(
    numeroCuenta: string,
    referenciaClienteId: string,
    saldo: Centimos,
    version: int)

  /** The argument of `equals(Object)`: null, an object of another class, or an
      account. */
  datatype Objeto = Nulo | OtraClase | UnaCuenta(cuenta: Cuenta) {
    function Lecturas(): set<object> {
      if UnaCuenta? then {cuenta} else {}
    }
  }

  class Cuenta {
    var id: Option<Id>
    var numeroCuenta: Option<string>
    var referenciaClienteId: Option<string>
    var saldo: Option<Centimos>
    /** Optimistic-concurrency counter, advanced by the store on every update. */
    var version: Option<int>

    /** `new Cuenta()`: every field unset. */
    constructor ()
      ensures id == None && numeroCuenta == None && referenciaClienteId == None
      ensures saldo == None && version == None
    {
      id, numeroCuenta, referenciaClienteId, saldo, version := None, None, None, None, None;
    }

    /** `new Cuenta(id)`: only the id is set. */
    constructor ConId(id: Option<Id>)
      ensures this.id == id
      ensures numeroCuenta == None && referenciaClienteId == None
      ensures saldo == None && version == None
    {
      this.id := id;
      numeroCuenta, referenciaClienteId, saldo, version := None, None, None, None;
    }

    /** The entity the store hands out for the row with key `id`. */
    constructor DesdeFila(id: Id, f: FilaCuenta)
      ensures Completa() && this.id == Some(id) && AFila() == f
    {
      this.id := Some(id);
      numeroCuenta := Some(f.numeroCuenta);
      referenciaClienteId := Some(f.referenciaClienteId);
      saldo := Some(f.saldo);
      version := Some(f.version);
    }

    /** Every column the row needs is set. */
    predicate Completa()
      reads this
    {
      id.Some? && numeroCuenta.Some? && referenciaClienteId.Some? && saldo.Some? && version.Some?
    }

    /** The row this entity is written as. */
    function AFila(): FilaCuenta
      reads this
      requires Completa()
    {
      FilaCuenta(numeroCuenta.value, referenciaClienteId.value, saldo.value, version.value)
    }

    /** `equals(Object o)`: the same object, or another `Cuenta` whose id is
        equal (two unset ids are equal, as `Objects.equals` has it). */
    predicate Equals(o: Objeto)
      reads this, o.Lecturas()
      ensures Equals(o) <==> o.UnaCuenta? && o.cuenta.id == id
    {
      if o.UnaCuenta? && o.cuenta == this then true
      else if !o.UnaCuenta? then false
      else id == o.cuenta.id
    }

    /** `hashCode()`: `Objects.hash(id)`, that is `31 * 1 + id.hashCode()` (0 for
        a null id) in 32-bit arithmetic. */
    function HashCode(): (h: Int32)
      reads this
      ensures id.None? ==> h == 31
      ensures id.Some? && id.value < 0x8000_0000 - 31 ==> h == 31 + id.value
      ensures id.Some? && id.value >= 0x8000_0000 - 31 ==> h == id.value + 31 - 0x1_0000_0000
    {
      Envolver32(31 + if id.Some? then id.value else 0)
    }
  }

  /** Two accounts are equal exactly when their ids are, whatever their
      numbers, balances or versions. */
  lemma IgualdadPorId(a: Cuenta, b: Cuenta)
    ensures a.Equals(UnaCuenta(b)) <==> a.id == b.id
  {
  }

  /** `equals` is reflexive. */
  lemma IgualdadReflexiva(a: Cuenta)
    ensures a.Equals(UnaCuenta(a))
  {
  }

  /** `equals` is symmetric and transitive, so it is an equivalence. */
  lemma IgualdadEquivalencia(a: Cuenta, b: Cuenta, c: Cuenta)
    ensures a.Equals(UnaCuenta(b)) <==> b.Equals(UnaCuenta(a))
    ensures a.Equals(UnaCuenta(b)) && b.Equals(UnaCuenta(c)) ==> a.Equals(UnaCuenta(c))
  {
  }

  /** An account never equals null nor an object of another class. */
  lemma DistintaDeNuloYOtraClase(a: Cuenta)
    ensures !a.Equals(Nulo) && !a.Equals(OtraClase)
  {
  }

  /** Equal accounts have equal hash codes. */
  lemma IgualesMismoHash(a: Cuenta, b: Cuenta)
    requires a.Equals(UnaCuenta(b))
    ensures a.HashCode() == b.HashCode()
  {
  }
}
