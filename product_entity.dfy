/** The product entity (`ProductEntity`): a catalogue row with validated name and prices. */
module ProductEntity {
  import opened Wrappers
  import opened Validators
  import Text

  const NegativePrice := "El precio no puede ser negativo"
  const NegativeMargin := "El margen no puede ser negativo"

  /** A validated product. Amounts are cents; dates are opaque timestamps. */
  datatype Product = Product(
    productoId: Option<int>,
    codigoBarras: string,
    nombre: string,
    categoriaId: Option<int>,
    descripcion: Option<string>,
    precioVenta: int,
    costo: int,
    margen: Option<int>,
    creadoPorId: Option<int>,
    actualizadoPorId: Option<int>,
    fechaCreacion: Option<int>,
    fechaActualizacion: Option<int>,
    estado: bool)

  /** The values handed to the constructor; `None` is an omitted or None field. */
  datatype ProductInput = ProductInput(
    productoId: Option<int>,
    codigoBarras: string,
    nombre: Option<string>,
    categoriaId: Option<int>,
    descripcion: Option<string>,
    precioVenta: Option<int>,
    costo: Option<int>,
    margen: Option<int>,
    creadoPorId: Option<int>,
    actualizadoPorId: Option<int>,
    fechaCreacion: Option<int>,
    fechaActualizacion: Option<int>,
    estado: Option<bool>)

  function CheckCodigo(i: ProductInput): Result<string, FieldError> {
    Length("codigo_barras", i.codigoBarras, 1, None)
  }

  function CheckNombre(v: Option<string>): Result<string, FieldError> {
    StrippedNonEmpty("nombre", v, None)
  }

  function CheckPrecio(i: ProductInput): Result<int, FieldError> {
    NonNegative("precio_venta", i.precioVenta, NegativePrice)
  }

  function CheckCosto(i: ProductInput): Result<int, FieldError> {
    NonNegative("costo", i.costo, NegativePrice)
  }

  function CheckMargen(i: ProductInput): Result<Option<int>, FieldError> {
    OptionalNonNegative("margen", i.margen, NegativeMargin)
  }

  /**
   * `ProductEntity(**fields)`: a non-empty barcode, a name that is non-blank
   * once trimmed, and prices, cost and margin that are not negative; an
   * absent price or cost is 0, an absent margin stays absent and `estado`
   * defaults to true. Otherwise every failing field is reported, in field order.
   */
  function Validate(i: ProductInput): (r: Result<Product, seq<FieldError>>)
    ensures r.Ok? <==>
      && i.codigoBarras != []
      && i.nombre.Some? && !Text.IsBlank(i.nombre.value)
      && i.precioVenta.GetOr(0) >= 0 && i.costo.GetOr(0) >= 0
      && (i.margen.Some? ==> i.margen.value >= 0)
    ensures r.Ok? ==>
      && r.value.nombre == Text.Strip(i.nombre.value)
      && r.value.codigoBarras == i.codigoBarras
      && r.value.precioVenta == i.precioVenta.GetOr(0) && r.value.costo == i.costo.GetOr(0)
      && r.value.margen == i.margen
      && r.value.estado == i.estado.GetOr(true)
      && r.value.categoriaId == i.categoriaId && r.value.descripcion == i.descripcion
      && r.value.fechaCreacion == i.fechaCreacion && r.value.fechaActualizacion == i.fechaActualizacion
      && r.value.productoId == i.productoId
      && r.value.creadoPorId == i.creadoPorId && r.value.actualizadoPorId == i.actualizadoPorId
    ensures r.Err? ==> r.error != []
    ensures i.codigoBarras == [] ==> r.Err? && FieldError("codigo_barras", TooShort(1)) in r.error
    ensures i.nombre.None? || Text.IsBlank(i.nombre.value) ==> r.Err? && FieldError("nombre", TooShort(1)) in r.error
    ensures i.precioVenta.GetOr(0) < 0 ==> r.Err? && FieldError("precio_venta", ValueError(NegativePrice)) in r.error
    ensures i.costo.GetOr(0) < 0 ==> r.Err? && FieldError("costo", ValueError(NegativePrice)) in r.error
    ensures i.margen.Some? && i.margen.value < 0 ==> r.Err? && FieldError("margen", ValueError(NegativeMargin)) in r.error
  {
    var codigo, nombre := CheckCodigo(i), CheckNombre(i.nombre);
    var precio, costo, margen := CheckPrecio(i), CheckCosto(i), CheckMargen(i);
    if codigo.Ok? && nombre.Ok? && precio.Ok? && costo.Ok? && margen.Ok? then
      Ok(Product(i.productoId, codigo.value, nombre.value, i.categoriaId, i.descripcion,
                 precio.value, costo.value, margen.value, i.creadoPorId, i.actualizadoPorId,
                 i.fechaCreacion, i.fechaActualizacion, i.estado.GetOr(true)))
    else
      Err(Errors(codigo) + Errors(nombre) + Errors(precio) + Errors(costo) + Errors(margen))
  }

  /** The attributes `from_model` reads back from a stored product. */
  function AsInput(p: Product): ProductInput {
    ProductInput(p.productoId, p.codigoBarras, Some(p.nombre), p.categoriaId, p.descripcion,
                 Some(p.precioVenta), Some(p.costo), p.margen, p.creadoPorId, p.actualizadoPorId,
                 p.fechaCreacion, p.fechaActualizacion, Some(p.estado))
  }

  /** `from_model` on a product that was itself validated gives the same product back. */
  lemma RevalidateUnchanged(i: ProductInput)
    requires Validate(i).Ok?
    ensures Validate(AsInput(Validate(i).value)) == Validate(i)
  {
    StrippedStable("nombre", i.nombre, None);
  }

  /** `is_active()`: `bool(estado)`. */
  predicate IsActive(p: Product) {
    p.estado
  }

  /** A product created without an explicit `estado` is active. */
  lemma NewProductActive(i: ProductInput)
    requires Validate(i).Ok? && i.estado.None?
    ensures IsActive(Validate(i).value)
  {
  }

  /**
   * `product.nombre = v` under `validate_assignment`: the new name is validated
   * like at construction; on success only `nombre` changes, otherwise the
   * assignment raises and the product is left as it was.
   */
  function AssignNombre(p: Product, v: Option<string>): (r: Result<Product, seq<FieldError>>)
    ensures r.Ok? <==> v.Some? && !Text.IsBlank(v.value)
    ensures r.Ok? ==> r.value == p.(nombre := Text.Strip(v.value))
    ensures r.Err? ==> r.error == [FieldError("nombre", TooShort(1))]
  {
    var nombre := CheckNombre(v);
    if nombre.Ok? then Ok(p.(nombre := nombre.value)) else Err(Errors(nombre))
  }

  /** Assigning a name through `validate_assignment` agrees with building the product with it. */
  lemma AssignMatchesConstruction(i: ProductInput, v: Option<string>)
    requires Validate(i).Ok?
    ensures AssignNombre(Validate(i).value, v) == Validate(i.(nombre := v))
  {
    var j := i.(nombre := v);
    assert CheckCodigo(j).Ok? && CheckPrecio(j).Ok? && CheckCosto(j).Ok? && CheckMargen(j).Ok?;
    if CheckNombre(v).Err? {
      assert Errors(CheckNombre(v)) == [FieldError("nombre", TooShort(1))];
      var e := Errors(CheckNombre(v));
      assert Validate(j).error == [] + e + [] + [] + [];
      assert [] + e + [] + [] + [] == e;
    } else {
      var p := Validate(i).value;
      assert Validate(j) == Ok(p.(nombre := CheckNombre(v).value));
    }
  }
}
