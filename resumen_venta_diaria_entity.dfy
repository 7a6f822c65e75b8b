/** The daily sales summary entity (`ResumenVentaDiariaEntity`). */
module ResumenVentaDiariaEntity {
  import opened Wrappers
  import opened Validators
  import Text

  const NegativeTotal := "El total no puede ser negativo"
  const UserRequired := "generado_por_whatsapp_user_id es requerido"

  /** A validated summary; the four totals are non-negative cents. */
  datatype Resumen = Resumen(
    id: string,
    fecha: int,
    totalVentas: int,
    totalEfectivo: int,
    totalTarjeta: int,
    totalTransferencia: int,
    cantidadTransacciones: int,
    generadoPorWhatsappUserId: string,
    createdAt: Option<int>)

  /** The constructor's arguments; an omitted total or count is `None`. */
  datatype ResumenInput = ResumenInput(
    id: string,
    fecha: int,
    totalVentas: Option<int>,
    totalEfectivo: Option<int>,
    totalTarjeta: Option<int>,
    totalTransferencia: Option<int>,
    cantidadTransacciones: Option<int>,
    generadoPorWhatsappUserId: Option<string>,
    createdAt: Option<int>)

  function Total(field: string, v: Option<int>): Result<int, FieldError> {
    NonNegative(field, v, NegativeTotal)
  }

  /** `cantidad_transacciones: int = Field(default=0, ge=0)`: no validator, only the sign bound. */
  function Count(v: Option<int>): (r: Result<int, FieldError>)
    ensures r.Ok? <==> v.GetOr(0) >= 0
    ensures r.Ok? ==> r.value == v.GetOr(0)
  {
    var n := v.GetOr(0);
    if n < 0 then Err(FieldError("cantidad_transacciones", Negative)) else Ok(n)
  }

  function CheckUser(i: ResumenInput): Result<string, FieldError> {
    RequiredBounded("generado_por_whatsapp_user_id", i.generadoPorWhatsappUserId, UserRequired, 255)
  }

  /**
   * `ResumenVentaDiariaEntity(**fields)`: each total (absent counts as 0) and
   * the transaction count must not be negative; the generating user is trimmed,
   * non-blank and at most 255 characters.
   */
  function Validate(i: ResumenInput): (r: Result<Resumen, seq<FieldError>>)
    ensures r.Ok? <==>
      && i.totalVentas.GetOr(0) >= 0 && i.totalEfectivo.GetOr(0) >= 0
      && i.totalTarjeta.GetOr(0) >= 0 && i.totalTransferencia.GetOr(0) >= 0
      && i.cantidadTransacciones.GetOr(0) >= 0
      && i.generadoPorWhatsappUserId.Some? && !Text.IsBlank(i.generadoPorWhatsappUserId.value)
      && |Text.Strip(i.generadoPorWhatsappUserId.value)| <= 255
    ensures r.Ok? ==>
      && r.value.totalVentas == i.totalVentas.GetOr(0) && r.value.totalEfectivo == i.totalEfectivo.GetOr(0)
      && r.value.totalTarjeta == i.totalTarjeta.GetOr(0) && r.value.totalTransferencia == i.totalTransferencia.GetOr(0)
      && r.value.cantidadTransacciones == i.cantidadTransacciones.GetOr(0)
      && r.value.generadoPorWhatsappUserId == Text.Strip(i.generadoPorWhatsappUserId.value)
      && r.value.id == i.id && r.value.fecha == i.fecha && r.value.createdAt == i.createdAt
    ensures r.Err? ==> r.error != []
    ensures i.totalVentas.GetOr(0) < 0 ==> r.Err? && FieldError("total_ventas", ValueError(NegativeTotal)) in r.error
    ensures i.totalEfectivo.GetOr(0) < 0 ==> r.Err? && FieldError("total_efectivo", ValueError(NegativeTotal)) in r.error
    ensures i.totalTarjeta.GetOr(0) < 0 ==> r.Err? && FieldError("total_tarjeta", ValueError(NegativeTotal)) in r.error
    ensures i.totalTransferencia.GetOr(0) < 0 ==> r.Err? && FieldError("total_transferencia", ValueError(NegativeTotal)) in r.error
    ensures i.cantidadTransacciones.GetOr(0) < 0 ==> r.Err? && FieldError("cantidad_transacciones", Negative) in r.error
    ensures CheckUser(i).Err? ==> r.Err? && CheckUser(i).error in r.error
  {
    var ventas, efectivo := Total("total_ventas", i.totalVentas), Total("total_efectivo", i.totalEfectivo);
    var tarjeta, transferencia := Total("total_tarjeta", i.totalTarjeta), Total("total_transferencia", i.totalTransferencia);
    var count, user := Count(i.cantidadTransacciones), CheckUser(i);
    if ventas.Ok? && efectivo.Ok? && tarjeta.Ok? && transferencia.Ok? && count.Ok? && user.Ok? then
      Ok(Resumen(i.id, i.fecha, ventas.value, efectivo.value, tarjeta.value, transferencia.value,
                 count.value, user.value, i.createdAt))
    else
      Err(Errors(ventas) + Errors(efectivo) + Errors(tarjeta) + Errors(transferencia) + Errors(count) + Errors(user))
  }

  /** A validated summary has only non-negative totals and count. */
  lemma TotalsNonNegative(i: ResumenInput)
    requires Validate(i).Ok?
    ensures var s := Validate(i).value;
      s.totalVentas >= 0 && s.totalEfectivo >= 0 && s.totalTarjeta >= 0 && s.totalTransferencia >= 0
      && s.cantidadTransacciones >= 0
  {
  }

  /** The attributes `from_model` reads back from a stored summary. */
  function AsInput(s: Resumen): ResumenInput {
    ResumenInput(s.id, s.fecha, Some(s.totalVentas), Some(s.totalEfectivo), Some(s.totalTarjeta),
                 Some(s.totalTransferencia), Some(s.cantidadTransacciones), Some(s.generadoPorWhatsappUserId),
                 s.createdAt)
  }

  /** `from_model` on a summary that was itself validated gives the same summary back. */
  lemma RevalidateUnchanged(i: ResumenInput)
    requires Validate(i).Ok?
    ensures Validate(AsInput(Validate(i).value)) == Validate(i)
  {
    RequiredBoundedStable("generado_por_whatsapp_user_id", i.generadoPorWhatsappUserId, UserRequired, 255);
  }
}
