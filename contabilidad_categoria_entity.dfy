/** The accounting category entity (`ContabilidadCategoriaEntity`): an income or expense heading. */
module ContabilidadCategoriaEntity {
  import opened Wrappers
  import opened Validators
  import Text

  const UserRequired := "creada_por_whatsapp_user_id es requerido"

  datatype CategoriaTipo = Ingreso | Egreso

  datatype ContabilidadCategoria = ContabilidadCategoria(
    id: string,
    nombre: string,
    tipo: CategoriaTipo,
    descripcion: Option<string>,
    activa: bool,
    creadaPorWhatsappUserId: string,
    createdAt: Option<int>)

  /** The constructor's arguments; `activa` is `None` when omitted. */
  datatype ContabilidadCategoriaInput = ContabilidadCategoriaInput(
    id: string,
    nombre: Option<string>,
    tipo: CategoriaTipo,
    descripcion: Option<string>,
    activa: Option<bool>,
    creadaPorWhatsappUserId: Option<string>,
    createdAt: Option<int>)

  function CheckNombre(i: ContabilidadCategoriaInput): Result<string, FieldError> {
    StrippedNonEmpty("nombre", i.nombre, Some(150))
  }

  function CheckUser(i: ContabilidadCategoriaInput): Result<string, FieldError> {
    RequiredBounded("creada_por_whatsapp_user_id", i.creadaPorWhatsappUserId, UserRequired, 255)
  }

  /**
   * `ContabilidadCategoriaEntity(**fields)`: the name is trimmed (None counts
   * as empty) and must then have 1 to 150 characters; blank descriptions become
   * None; the creating user is trimmed, non-blank and at most 255 characters;
   * `activa` defaults to true.
   */
  function Validate(i: ContabilidadCategoriaInput): (r: Result<ContabilidadCategoria, seq<FieldError>>)
    ensures r.Ok? <==>
      && i.nombre.Some? && !Text.IsBlank(i.nombre.value) && |Text.Strip(i.nombre.value)| <= 150
      && i.creadaPorWhatsappUserId.Some? && !Text.IsBlank(i.creadaPorWhatsappUserId.value)
      && |Text.Strip(i.creadaPorWhatsappUserId.value)| <= 255
    ensures r.Ok? ==>
      && r.value.nombre == Text.Strip(i.nombre.value)
      && r.value.descripcion == OptionalText(i.descripcion)
      && r.value.creadaPorWhatsappUserId == Text.Strip(i.creadaPorWhatsappUserId.value)
      && r.value.activa == i.activa.GetOr(true)
      && r.value.id == i.id && r.value.tipo == i.tipo && r.value.createdAt == i.createdAt
    ensures i.nombre.None? || Text.IsBlank(i.nombre.value) ==> r.Err? && FieldError("nombre", TooShort(1)) in r.error
  {
    var nombre, user := CheckNombre(i), CheckUser(i);
    if nombre.Ok? && user.Ok? then
      Ok(ContabilidadCategoria(i.id, nombre.value, i.tipo, OptionalText(i.descripcion),
                               i.activa.GetOr(true), user.value, i.createdAt))
    else
      Err(Errors(nombre) + Errors(user))
  }

  /** The attributes `from_model` reads back from a stored category. */
  function AsInput(c: ContabilidadCategoria): ContabilidadCategoriaInput {
    ContabilidadCategoriaInput(c.id, Some(c.nombre), c.tipo, c.descripcion, Some(c.activa),
                               Some(c.creadaPorWhatsappUserId), c.createdAt)
  }

  /** `from_model` on a category that was itself validated gives the same category back. */
  lemma RevalidateUnchanged(i: ContabilidadCategoriaInput)
    requires Validate(i).Ok?
    ensures Validate(AsInput(Validate(i).value)) == Validate(i)
  {
    StrippedStable("nombre", i.nombre, Some(150));
    RequiredBoundedStable("creada_por_whatsapp_user_id", i.creadaPorWhatsappUserId, UserRequired, 255);
    OptionalTextIdempotent(i.descripcion);
  }
}
