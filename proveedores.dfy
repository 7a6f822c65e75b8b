/**
 * The supplier registry (`ProveedorService` over its repository): suppliers
 * are unique by normalised name. A supplier passes through `ProveedorEntity`
 * validation before it is stored, so its stored fields are trimmed.
 */
module Proveedores {
  import opened Wrappers
  import opened ProveedorEntity
  import Text
  import Validators

  const AlreadyExistsMessage := "El proveedor ya existe"

  /** A stored supplier row: the validated entity plus its normalised name. */
  datatype Row = Row(proveedor: Proveedor, nombreNormalizado: string)

  /** The `proveedores` table, keyed by `nombre_normalizado`. */
  type Registry = map<string, Row>

  predicate WellFormed(reg: Registry) {
    && (forall k | k in reg :: reg[k].nombreNormalizado == k && k != [])
    && (forall k1, k2 | k1 in reg && k2 in reg && k1 != k2 :: reg[k1].proveedor.id != reg[k2].proveedor.id)
  }

  predicate FreshId(reg: Registry, id: string) {
    forall k | k in reg :: reg[k].proveedor.id != id
  }

  /** The limits `ProveedorRequest` enforces on what reaches the service. */
  predicate ValidRequest(nombre: string, telefono: Option<string>, email: Option<string>) {
    && 1 <= |nombre| <= 255
    && (telefono.Some? ==> |telefono.value| <= 100)
    && (email.Some? ==> |email.value| <= 255)
  }

  /** `get_by_nombre_normalizado(n)`: nothing for "", otherwise the row under `n.strip().lower()`. */
  function FindByNombreNormalizado(reg: Registry, n: string): (p: Option<Proveedor>)
    ensures p.Some? <==> n != [] && Text.NormalizeName(n) in reg
    ensures p.Some? ==> p.value == reg[Text.NormalizeName(n)].proveedor
  {
    if n == [] then None
    else
      var key := Text.NormalizeName(n);
      if key in reg then Some(reg[key].proveedor) else None
  }

  datatype ProveedorError =
    | AlreadyExists                               // ValueError("El proveedor ya existe")
    | Invalid(errors: seq<Validators.FieldError>) // pydantic ValidationError from ProveedorEntity

  /**
   * `create_proveedor(data)` against `reg`, the entity taking id `id`: a
   * supplier whose normalised name is already stored is refused; otherwise the
   * entity is validated and, when valid, stored under the normalised name.
   */
  function Create(reg: Registry, nombre: string, telefono: Option<string>, email: Option<string>, id: string)
    : (out: (Result<Proveedor, ProveedorError>, Registry))
    ensures var key := Text.NormalizeName(nombre);
      var entity := Validate(ProveedorInput(id, Some(nombre), telefono, email, None));
      && (out.0 == Err(AlreadyExists) <==> key != [] && key in reg)
      && (out.0.Err? ==> out.1 == reg)
      && (out.0.Err? && out.0 != Err(AlreadyExists) ==> entity.Err? && out.0 == Err(Invalid(entity.error)))
      && (out.0.Ok? <==> key !in reg && entity.Ok?)
      && (out.0.Ok? ==> out.0.value == entity.value && out.1 == reg[key := Row(entity.value, key)])
  {
    var normalized := Text.NormalizeName(nombre);
    Text.NormalizeNameIdempotent(nombre);
    var existing := FindByNombreNormalizado(reg, normalized);
    if existing.Some? then (Err(AlreadyExists), reg)
    else
      var entity := Validate(ProveedorInput(id, Some(nombre), telefono, email, None));
      if entity.Err? then (Err(Invalid(entity.error)), reg)
      else
        assert normalized != [] by {
          assert |normalized| == |Text.Strip(nombre)|;
        }
        (Ok(entity.value), reg[normalized := Row(entity.value, normalized)])
  }

  /**
   * For a request the DTO accepted, create succeeds unless the name is taken
   * or blank once trimmed; what is stored is the trimmed name, and blank
   * phone or email become None.
   */
  lemma CreateOutcome(reg: Registry, nombre: string, telefono: Option<string>, email: Option<string>, id: string)
    requires ValidRequest(nombre, telefono, email)
    ensures var (res, reg') := Create(reg, nombre, telefono, email, id);
      && (res.Ok? <==> !Text.IsBlank(nombre) && Text.NormalizeName(nombre) !in reg)
      && (res.Err? && !Text.IsBlank(nombre) ==> res == Err(AlreadyExists))
      && (res.Ok? ==> res.value.nombre == Text.Strip(nombre) && res.value.id == id
                      && res.value.telefono == Validators.OptionalText(telefono)
                      && res.value.email == Validators.OptionalText(email))
  {
    var key := Text.NormalizeName(nombre);
    assert |key| == |Text.Strip(nombre)|;
    if telefono.Some? {
      assert |Text.Strip(telefono.value)| <= |telefono.value|;
    }
  }

  /** A successful create keeps names unique and ids distinct, and leaves earlier rows alone. */
  lemma CreatePreservesWellFormed(reg: Registry, nombre: string, telefono: Option<string>, email: Option<string>, id: string)
    requires WellFormed(reg) && FreshId(reg, id)
    ensures var (res, reg') := Create(reg, nombre, telefono, email, id);
      && WellFormed(reg')
      && (forall k | k in reg :: k in reg' && reg'[k] == reg[k])
  {
    var key := Text.NormalizeName(nombre);
    assert |key| == |Text.Strip(nombre)|;
  }

  /** Once a supplier is created, a create with the same normalised name is refused as a duplicate. */
  lemma SecondCreateFails(reg: Registry, nombre: string, tel: Option<string>, email: Option<string>, id: string,
                          nombre2: string, tel2: Option<string>, email2: Option<string>, id2: string)
    requires Create(reg, nombre, tel, email, id).0.Ok?
    requires Text.NormalizeName(nombre2) == Text.NormalizeName(nombre)
    ensures var reg' := Create(reg, nombre, tel, email, id).1;
      Create(reg', nombre2, tel2, email2, id2) == (Err(AlreadyExists), reg')
  {
    assert |Text.NormalizeName(nombre)| == |Text.Strip(nombre)|;
  }

  /** `get_proveedor(id)`: the supplier with that id, or nothing. */
  function GetProveedor(reg: Registry, id: string): (p: Option<Proveedor>)
    requires WellFormed(reg)
    ensures p.Some? <==> exists k | k in reg :: reg[k].proveedor.id == id
    ensures p.Some? ==> p.value.id == id && exists k | k in reg :: reg[k].proveedor == p.value
  {
    if exists k | k in reg :: reg[k].proveedor.id == id then
      var k :| k in reg && reg[k].proveedor.id == id;
      Some(reg[k].proveedor)
    else None
  }

  /** `ILIKE '%q%'` on name, phone or email. */
  predicate Matches(p: Proveedor, q: string) {
    || Text.ContainsIgnoringCase(p.nombre, q)
    || (p.telefono.Some? && Text.ContainsIgnoringCase(p.telefono.value, q))
    || (p.email.Some? && Text.ContainsIgnoringCase(p.email.value, q))
  }

  /** `search_proveedores(term)`: nothing for a blank term, else every supplier matching the trimmed term. */
  function SearchProveedores(reg: Registry, term: string): (found: set<Proveedor>)
    ensures Text.IsBlank(term) ==> found == {}
    ensures !Text.IsBlank(term) ==> forall p :: p in found <==>
      (exists k | k in reg :: reg[k].proveedor == p) && Matches(p, Text.Strip(term))
  {
    if Text.Strip(term) == [] then {}
    else
      var q := Text.Strip(term);
      set k | k in reg && Matches(reg[k].proveedor, q) :: reg[k].proveedor
  }

  class ProveedorService {
    var registry: Registry

    constructor(initial: Registry)
      ensures registry == initial
    {
      registry := initial;
    }

    /** `create_proveedor`: duplicate check, entity validation, insert, as `Create` describes. */
    method CreateProveedor(nombre: string, telefono: Option<string>, email: Option<string>, id: string)
      returns (r: Result<Proveedor, ProveedorError>)
      modifies this
      ensures (r, registry) == Create(old(registry), nombre, telefono, email, id)
    {
      var normalized := Text.NormalizeName(nombre);
      var existing := FindByNombreNormalizado(registry, normalized);
      if existing.Some? {
        return Err(AlreadyExists);
      }
      var entity := Validate(ProveedorInput(id, Some(nombre), telefono, email, None));
      if entity.Err? {
        return Err(Invalid(entity.error));
      }
      registry := registry[normalized := Row(entity.value, normalized)];
      r := Ok(entity.value);
    }
  }
}
