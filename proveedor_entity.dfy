/** The supplier entity (`ProveedorEntity`). */
module ProveedorEntity {
  import opened Wrappers
  import opened Validators
  import Text

  const NombreRequired := "El nombre es requerido"

  datatype Proveedor = Proveedor(
    id: string,
    nombre: string,
    telefono: Option<string>,
    email: Option<string>,
    createdAt: Option<int>)

  datatype ProveedorInput = ProveedorInput(
    id: string,
    nombre: Option<string>,
    telefono: Option<string>,
    email: Option<string>,
    createdAt: Option<int>)

  function CheckNombre(i: ProveedorInput): Result<string, FieldError> {
    RequiredBounded("nombre", i.nombre, NombreRequired, 255)
  }

  function CheckTelefono(i: ProveedorInput): Result<Option<string>, FieldError> {
    OptionalLength("telefono", OptionalText(i.telefono), 100)
  }

  function CheckEmail(i: ProveedorInput): Result<Option<string>, FieldError> {
    OptionalLength("email", OptionalText(i.email), 255)
  }

  /**
   * `ProveedorEntity(**fields)`: the name is trimmed, must be non-blank
   * ("El nombre es requerido") and at most 255 characters; phone and email are
   * trimmed with blank turned into None, at most 100 and 255 characters.
   */
  function Validate(i: ProveedorInput): (r: Result<Proveedor, seq<FieldError>>)
    ensures r.Ok? <==>
      && i.nombre.Some? && !Text.IsBlank(i.nombre.value) && |Text.Strip(i.nombre.value)| <= 255
      && (OptionalText(i.telefono).Some? ==> |Text.Strip(i.telefono.value)| <= 100)
      && (OptionalText(i.email).Some? ==> |Text.Strip(i.email.value)| <= 255)
    ensures r.Ok? ==>
      && r.value.nombre == Text.Strip(i.nombre.value) && r.value.nombre != []
      && r.value.telefono == OptionalText(i.telefono) && r.value.email == OptionalText(i.email)
      && r.value.id == i.id && r.value.createdAt == i.createdAt
    ensures i.nombre.None? || Text.IsBlank(i.nombre.value) ==>
      r.Err? && FieldError("nombre", ValueError(NombreRequired)) in r.error
  {
    var nombre, telefono, email := CheckNombre(i), CheckTelefono(i), CheckEmail(i);
    if nombre.Ok? && telefono.Ok? && email.Ok? then
      Ok(Proveedor(i.id, nombre.value, telefono.value, email.value, i.createdAt))
    else
      Err(Errors(nombre) + Errors(telefono) + Errors(email))
  }

  /** The attributes `from_model` reads back from a stored supplier. */
  function AsInput(p: Proveedor): ProveedorInput {
    ProveedorInput(p.id, Some(p.nombre), p.telefono, p.email, p.createdAt)
  }

  /** `from_model` on a supplier that was itself validated gives the same supplier back. */
  lemma RevalidateUnchanged(i: ProveedorInput)
    requires Validate(i).Ok?
    ensures Validate(AsInput(Validate(i).value)) == Validate(i)
  {
    RequiredBoundedStable("nombre", i.nombre, NombreRequired, 255);
    OptionalTextIdempotent(i.telefono);
    OptionalTextIdempotent(i.email);
  }
}
