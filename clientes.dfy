/**
 * The customer registry (`ClienteService` over its repository): customers are
 * unique by their normalised name, which the database enforces with a unique
 * constraint. The repository is a map from normalised name to record.
 */
module Clientes {
  import opened Wrappers
  import Text

  const AlreadyExistsMessage := "El cliente ya existe"

  datatype Cliente = Cliente(
    id: string,
    nombre: string,
    nombreNormalizado: string,
    telefono: Option<string>,
    email: Option<string>)

  /** The `clientes` table, keyed by `nombre_normalizado`. */
  type Registry = map<string, Cliente>

  /** Every record sits under its own normalised name, and ids are distinct. */
  predicate WellFormed(reg: Registry) {
    && (forall k | k in reg :: reg[k].nombreNormalizado == k)
    && (forall k1, k2 | k1 in reg && k2 in reg && k1 != k2 :: reg[k1].id != reg[k2].id)
  }

  /** No stored record has this id (what `uuid4()` provides). */
  predicate FreshId(reg: Registry, id: string) {
    forall k | k in reg :: reg[k].id != id
  }

  /**
   * `ClienteRepository.get_by_nombre_normalizado(n)`: nothing for an empty
   * argument, otherwise the record whose normalised name is `n.strip().lower()`.
   */
  function FindByNombreNormalizado(reg: Registry, n: string): (c: Option<Cliente>)
    ensures c.Some? <==> n != [] && Text.NormalizeName(n) in reg
    ensures c.Some? ==> c == Some(reg[Text.NormalizeName(n)])
  {
    if n == [] then None
    else
      var key := Text.NormalizeName(n);
      if key in reg then Some(reg[key]) else None
  }

  datatype ClienteError =
    | AlreadyExists     // ValueError("El cliente ya existe")
    | UniqueViolation   // IntegrityError from uq_clientes_nombre_normalizado

  /**
   * An approximation of `str()` of the database's IntegrityError: the real text
   * also names the driver's exception class and appends the failing SQL.
   */
  const UniqueViolationText := "duplicate key value violates unique constraint \"uq_clientes_nombre_normalizado\""

  /** `str(exc)` for the exception a refused create raises. */
  function ErrorText(e: ClienteError): (t: string)
    ensures t != []
    ensures e.AlreadyExists? <==> t == AlreadyExistsMessage
  {
    match e
    case AlreadyExists => AlreadyExistsMessage
    case UniqueViolation => UniqueViolationText
  }

  /**
   * `create_cliente(data)` against registry `reg`, the new record taking id
   * `id`. A customer whose normalised name is already found is refused with
   * AlreadyExists and nothing is created. Otherwise the record is stored with
   * the raw name and the normalised one. A blank name normalises to "", which
   * the lookup never finds; a second blank customer therefore reaches the
   * insert and is refused by the unique constraint.
   */
  function Create(reg: Registry, nombre: string, telefono: Option<string>, email: Option<string>, id: string)
    : (out: (Result<Cliente, ClienteError>, Registry))
    ensures var key := Text.NormalizeName(nombre);
      && (out.0.Err? <==> key in reg)
      && (out.0 == Err(AlreadyExists) <==> key in reg && key != [])
      && (out.0.Err? ==> out.1 == reg)
      && (out.0.Ok? ==> out.0.value == Cliente(id, nombre, key, telefono, email) && out.1 == reg[key := out.0.value])
  {
    var normalized := Text.NormalizeName(nombre);
    var existing := FindByNombreNormalizado(reg, normalized);
    if existing.Some? then
      Text.NormalizeNameIdempotent(nombre);
      (Err(AlreadyExists), reg)
    else
      Text.NormalizeNameIdempotent(nombre);
      var c := Cliente(id, nombre, normalized, telefono, email);
      if normalized in reg then (Err(UniqueViolation), reg)
      else (Ok(c), reg[normalized := c])
  }

  /** A successful create keeps the registry well formed and leaves every earlier record as it was. */
  lemma CreatePreservesWellFormed(reg: Registry, nombre: string, telefono: Option<string>, email: Option<string>, id: string)
    requires WellFormed(reg) && FreshId(reg, id)
    ensures var (res, reg') := Create(reg, nombre, telefono, email, id);
      && WellFormed(reg')
      && (forall k | k in reg :: k in reg' && reg'[k] == reg[k])
      && |reg'.Keys| == |reg.Keys| + (if res.Ok? then 1 else 0)
  {
    var (res, reg') := Create(reg, nombre, telefono, email, id);
    if res.Ok? {
      var key := Text.NormalizeName(nombre);
      assert reg'.Keys == reg.Keys + {key};
    }
  }

  /** Once a customer is created, any other create with the same normalised name fails. */
  lemma SecondCreateFails(reg: Registry, nombre: string, tel: Option<string>, email: Option<string>, id: string,
                          nombre2: string, tel2: Option<string>, email2: Option<string>, id2: string)
    requires Create(reg, nombre, tel, email, id).0.Ok?
    requires Text.NormalizeName(nombre2) == Text.NormalizeName(nombre)
    ensures var reg' := Create(reg, nombre, tel, email, id).1;
      Create(reg', nombre2, tel2, email2, id2).0.Err?
      && Create(reg', nombre2, tel2, email2, id2).1 == reg'
  {
  }

  /** A blank customer name can be stored once; a second blank name hits the unique constraint. */
  lemma BlankNameReachesConstraint(reg: Registry, id: string, id2: string)
    requires "" !in reg
    ensures var (res, reg') := Create(reg, "  ", None, None, id);
      res.Ok? && Create(reg', "", None, None, id2).0 == Err(UniqueViolation)
  {
    Text.StripCharsEmptyIff("  ", Text.Whitespace);
  }

  /**
   * `ClienteService.get_by_nombre_normalizado(n)`: nothing for blank input,
   * otherwise the record stored under `n.strip().lower()`.
   */
  function GetByNombreNormalizado(reg: Registry, n: string): (c: Option<Cliente>)
    ensures Text.IsBlank(n) ==> c.None?
    ensures !Text.IsBlank(n) ==> (c.Some? <==> Text.NormalizeName(n) in reg)
    ensures c.Some? ==> c.value == reg[Text.NormalizeName(n)]
  {
    if Text.Strip(n) == [] then None
    else
      Text.NormalizeNameIdempotent(n);
      Text.StripLower(Text.Strip(n));
      FindByNombreNormalizado(reg, Text.Lower(Text.Strip(n)))
  }

  /** A created customer is found again by any spelling of its name that normalises the same. */
  lemma CreatedIsFound(reg: Registry, nombre: string, tel: Option<string>, email: Option<string>, id: string, query: string)
    requires !Text.IsBlank(nombre) && Text.NormalizeName(query) == Text.NormalizeName(nombre)
    requires Create(reg, nombre, tel, email, id).0.Ok?
    ensures var (res, reg') := Create(reg, nombre, tel, email, id);
      GetByNombreNormalizado(reg', query) == Some(res.value)
  {
    assert |Text.NormalizeName(nombre)| == |Text.Strip(nombre)|;
    assert |Text.NormalizeName(query)| == |Text.Strip(query)|;
  }

  /** `get_cliente(id)`: the record with that id, or nothing. */
  function GetCliente(reg: Registry, id: string): (c: Option<Cliente>)
    requires WellFormed(reg)
    ensures c.Some? <==> exists k | k in reg :: reg[k].id == id
    ensures c.Some? ==> c.value in reg.Values && c.value.id == id
  {
    if exists k | k in reg :: reg[k].id == id then
      var k :| k in reg && reg[k].id == id;
      Some(reg[k])
    else None
  }

  /** Whether a record matches `ILIKE '%q%'` on its name, phone or email (NULL never matches). */
  predicate Matches(c: Cliente, q: string) {
    || Text.ContainsIgnoringCase(c.nombre, q)
    || (c.telefono.Some? && Text.ContainsIgnoringCase(c.telefono.value, q))
    || (c.email.Some? && Text.ContainsIgnoringCase(c.email.value, q))
  }

  /**
   * `search_clientes(term)`: nothing for a blank term; otherwise every record
   * matching the trimmed term on name, phone or email.
   */
  function SearchClientes(reg: Registry, term: string): (found: set<Cliente>)
    ensures Text.IsBlank(term) ==> found == {}
    ensures !Text.IsBlank(term) ==> forall c :: c in found <==> c in reg.Values && Matches(c, Text.Strip(term))
  {
    if Text.Strip(term) == [] then {}
    else
      var q := Text.Strip(term);
      set k | k in reg && Matches(reg[k], q) :: reg[k]
  }

  /** The service object; its repository is the only state it changes. */
  class ClienteService {
    var registry: Registry

    constructor(initial: Registry)
      ensures registry == initial
    {
      registry := initial;
    }

    /** `create_cliente`: looks the name up, then inserts, as `Create` describes. */
    method CreateCliente(nombre: string, telefono: Option<string>, email: Option<string>, id: string)
      returns (r: Result<Cliente, ClienteError>)
      modifies this
      ensures (r, registry) == Create(old(registry), nombre, telefono, email, id)
    {
      var normalized := Text.NormalizeName(nombre);
      var existing := FindByNombreNormalizado(registry, normalized);
      if existing.Some? {
        return Err(AlreadyExists);
      }
      if normalized in registry {
        return Err(UniqueViolation);
      }
      var created := Cliente(id, nombre, normalized, telefono, email);
      registry := registry[normalized := created];
      r := Ok(created);
    }
  }
}
