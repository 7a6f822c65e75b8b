/** The product category entity (`CategoryEntity`). */
module CategoryEntity {
  import opened Wrappers
  import opened Validators
  import Text

  datatype Category = Category(
    categoriaId: Option<int>,
    nombre: string,
    estado: bool,
    fechaCreacion: Option<int>,
    fechaActualizacion: Option<int>,
    descripcion: Option<string>,
    creadoPorId: Option<int>,
    actualizadoPorId: Option<int>,
    creadoPorNombre: Option<string>,
    actualizadoPorNombre: Option<string>)

  /** The constructor's arguments; `estado` is `None` when omitted. */
  datatype CategoryInput = CategoryInput(
    categoriaId: Option<int>,
    nombre: Option<string>,
    estado: Option<bool>,
    fechaCreacion: Option<int>,
    fechaActualizacion: Option<int>,
    descripcion: Option<string>,
    creadoPorId: Option<int>,
    actualizadoPorId: Option<int>,
    creadoPorNombre: Option<string>,
    actualizadoPorNombre: Option<string>)

  function CheckNombre(v: Option<string>): Result<string, FieldError> {
    StrippedNonEmpty("nombre", v, None)
  }

  /**
   * `CategoryEntity(**fields)`: the name is trimmed (None counts as empty) and
   * rejected by `min_length=1` when that leaves nothing; `estado` defaults to
   * true; every other field is kept as given, None by default.
   */
  function Validate(i: CategoryInput): (r: Result<Category, seq<FieldError>>)
    ensures r.Ok? <==> i.nombre.Some? && !Text.IsBlank(i.nombre.value)
    ensures r.Ok? ==>
      && r.value.nombre == Text.Strip(i.nombre.value)
      && r.value.estado == i.estado.GetOr(true)
      && r.value.categoriaId == i.categoriaId && r.value.descripcion == i.descripcion
      && r.value.fechaCreacion == i.fechaCreacion && r.value.fechaActualizacion == i.fechaActualizacion
      && r.value.creadoPorId == i.creadoPorId && r.value.actualizadoPorId == i.actualizadoPorId
      && r.value.creadoPorNombre == i.creadoPorNombre && r.value.actualizadoPorNombre == i.actualizadoPorNombre
    ensures r.Err? ==> r.error == [FieldError("nombre", TooShort(1))]
  {
    var nombre := CheckNombre(i.nombre);
    if nombre.Ok? then
      Ok(Category(i.categoriaId, nombre.value, i.estado.GetOr(true), i.fechaCreacion, i.fechaActualizacion,
                  i.descripcion, i.creadoPorId, i.actualizadoPorId, i.creadoPorNombre, i.actualizadoPorNombre))
    else
      Err(Errors(nombre))
  }

  /** A category given only a name: active, every optional field None. */
  lemma NameOnlyDefaults(nombre: string)
    requires !Text.IsBlank(nombre)
    ensures var r := Validate(CategoryInput(None, Some(nombre), None, None, None, None, None, None, None, None));
      && r.Ok? && r.value.estado
      && r.value.categoriaId.None? && r.value.descripcion.None? && r.value.fechaCreacion.None?
      && r.value.fechaActualizacion.None? && r.value.creadoPorId.None? && r.value.actualizadoPorId.None?
  {
  }

  /**
   * `category.nombre = v` under `validate_assignment`: trimmed as at
   * construction; on success only the name changes, otherwise the assignment
   * raises and the category is unchanged.
   */
  function AssignNombre(c: Category, v: Option<string>): (r: Result<Category, seq<FieldError>>)
    ensures r.Ok? <==> v.Some? && !Text.IsBlank(v.value)
    ensures r.Ok? ==> r.value == c.(nombre := Text.Strip(v.value))
    ensures r.Err? ==> r.error == [FieldError("nombre", TooShort(1))]
  {
    var nombre := CheckNombre(v);
    if nombre.Ok? then Ok(c.(nombre := nombre.value)) else Err(Errors(nombre))
  }

  /** Assigning a name through `validate_assignment` agrees with building the category with it. */
  lemma AssignMatchesConstruction(i: CategoryInput, v: Option<string>)
    requires Validate(i).Ok?
    ensures AssignNombre(Validate(i).value, v) == Validate(i.(nombre := v))
  {
  }

  /** The attributes `from_model` reads back from a stored category. */
  function AsInput(c: Category): CategoryInput {
    CategoryInput(c.categoriaId, Some(c.nombre), Some(c.estado), c.fechaCreacion, c.fechaActualizacion,
                  c.descripcion, c.creadoPorId, c.actualizadoPorId, c.creadoPorNombre, c.actualizadoPorNombre)
  }

  /** `from_model` on a category that was itself validated gives the same category back. */
  lemma RevalidateUnchanged(i: CategoryInput)
    requires Validate(i).Ok?
    ensures Validate(AsInput(Validate(i).value)) == Validate(i)
  {
    StrippedStable("nombre", i.nombre, None);
  }
}
