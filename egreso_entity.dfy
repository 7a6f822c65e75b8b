/** The expense entity (`EgresoEntity`): an outgoing payment recorded from WhatsApp. */
module EgresoEntity {
  import opened Wrappers
  import opened Validators
  import Text

  const NegativeMonto := "El monto no puede ser negativo"
  const Required := "Campo requerido"

  datatype MedioPago = Efectivo | Tarjeta | Transferencia

  /** A validated expense. `monto` is in cents; ids and dates are opaque values. */
  datatype Egreso = Egreso(
    id: string,
    fecha: int,
    monto: int,
    medioPago: MedioPago,
    descripcion: Option<string>,
    categoriaId: string,
    whatsappUserId: string,
    phoneNumber: string,
    proveedor: Option<string>,
    createdAt: Option<int>)

  /** The constructor's arguments; the id is the value `uuid4()` supplied. */
  datatype EgresoInput = EgresoInput(
    id: string,
    fecha: int,
    monto: Option<int>,
    medioPago: MedioPago,
    descripcion: Option<string>,
    categoriaId: string,
    whatsappUserId: Option<string>,
    phoneNumber: Option<string>,
    proveedor: Option<string>,
    createdAt: Option<int>)

  function CheckMonto(i: EgresoInput): Result<int, FieldError> {
    NonNegative("monto", i.monto, NegativeMonto)
  }

  function CheckUser(i: EgresoInput): Result<string, FieldError> {
    RequiredBounded("whatsapp_user_id", i.whatsappUserId, Required, 255)
  }

  function CheckPhone(i: EgresoInput): Result<string, FieldError> {
    RequiredBounded("phone_number", i.phoneNumber, Required, 50)
  }

  function CheckProveedor(i: EgresoInput): Result<Option<string>, FieldError> {
    OptionalLength("proveedor", OptionalText(i.proveedor), 255)
  }

  /**
   * `EgresoEntity(**fields)`: the amount (None counts as 0) must not be
   * negative; the user id and phone number are trimmed and must be non-blank,
   * at most 255 and 50 characters; description and supplier are trimmed with
   * blank turned into None, the supplier at most 255 characters.
   */
  function Validate(i: EgresoInput): (r: Result<Egreso, seq<FieldError>>)
    ensures r.Ok? <==>
      && i.monto.GetOr(0) >= 0
      && i.whatsappUserId.Some? && !Text.IsBlank(i.whatsappUserId.value) && |Text.Strip(i.whatsappUserId.value)| <= 255
      && i.phoneNumber.Some? && !Text.IsBlank(i.phoneNumber.value) && |Text.Strip(i.phoneNumber.value)| <= 50
      && (OptionalText(i.proveedor).Some? ==> |Text.Strip(i.proveedor.value)| <= 255)
    ensures r.Ok? ==>
      && r.value.monto == i.monto.GetOr(0)
      && r.value.whatsappUserId == Text.Strip(i.whatsappUserId.value)
      && r.value.phoneNumber == Text.Strip(i.phoneNumber.value)
      && r.value.descripcion == OptionalText(i.descripcion)
      && r.value.proveedor == OptionalText(i.proveedor)
      && r.value.id == i.id && r.value.fecha == i.fecha && r.value.medioPago == i.medioPago
      && r.value.categoriaId == i.categoriaId && r.value.createdAt == i.createdAt
    ensures r.Err? ==> r.error != []
    ensures i.monto.GetOr(0) < 0 ==> r.Err? && FieldError("monto", ValueError(NegativeMonto)) in r.error
    ensures i.whatsappUserId.None? || Text.IsBlank(i.whatsappUserId.value) ==>
      r.Err? && FieldError("whatsapp_user_id", ValueError(Required)) in r.error
    ensures i.whatsappUserId.Some? && !Text.IsBlank(i.whatsappUserId.value) && |Text.Strip(i.whatsappUserId.value)| > 255 ==>
      r.Err? && FieldError("whatsapp_user_id", TooLong(255)) in r.error
    ensures i.phoneNumber.None? || Text.IsBlank(i.phoneNumber.value) ==>
      r.Err? && FieldError("phone_number", ValueError(Required)) in r.error
    ensures i.phoneNumber.Some? && !Text.IsBlank(i.phoneNumber.value) && |Text.Strip(i.phoneNumber.value)| > 50 ==>
      r.Err? && FieldError("phone_number", TooLong(50)) in r.error
    ensures OptionalText(i.proveedor).Some? && |Text.Strip(i.proveedor.value)| > 255 ==>
      r.Err? && FieldError("proveedor", TooLong(255)) in r.error
  {
    var monto, user, phone, proveedor := CheckMonto(i), CheckUser(i), CheckPhone(i), CheckProveedor(i);
    if monto.Ok? && user.Ok? && phone.Ok? && proveedor.Ok? then
      Ok(Egreso(i.id, i.fecha, monto.value, i.medioPago, OptionalText(i.descripcion), i.categoriaId,
                user.value, phone.value, proveedor.value, i.createdAt))
    else
      Err(Errors(monto) + Errors(user) + Errors(phone) + Errors(proveedor))
  }

  /** The attributes `from_model` reads back from a stored expense. */
  function AsInput(e: Egreso): EgresoInput {
    EgresoInput(e.id, e.fecha, Some(e.monto), e.medioPago, e.descripcion, e.categoriaId,
                Some(e.whatsappUserId), Some(e.phoneNumber), e.proveedor, e.createdAt)
  }

  /** `from_model` on an expense that was itself validated gives the same expense back. */
  lemma RevalidateUnchanged(i: EgresoInput)
    requires Validate(i).Ok?
    ensures Validate(AsInput(Validate(i).value)) == Validate(i)
  {
    RequiredBoundedStable("whatsapp_user_id", i.whatsappUserId, Required, 255);
    RequiredBoundedStable("phone_number", i.phoneNumber, Required, 50);
    OptionalTextIdempotent(i.descripcion);
    OptionalTextIdempotent(i.proveedor);
  }
}
