/** The cash-register closing entity (`CierreCajaEntity`). */
module CierreCajaEntity {
  import opened Wrappers
  import opened Validators
  import Text

  const UserRequired := "cerrado_por_whatsapp_user_id es requerido"

  /** A validated closing. Amounts are cents and may be negative (a shortfall). */
  datatype CierreCaja = CierreCaja(
    id: string,
    fecha: int,
    saldoInicial: int,
    totalIngresos: int,
    totalEgresos: int,
    saldoTeorico: int,
    saldoReal: int,
    diferencia: int,
    observaciones: Option<string>,
    cerradoPorWhatsappUserId: string,
    createdAt: Option<int>)

  /** The constructor's arguments; an omitted amount is `None`. */
  datatype CierreCajaInput = CierreCajaInput(
    id: string,
    fecha: int,
    saldoInicial: Option<int>,
    totalIngresos: Option<int>,
    totalEgresos: Option<int>,
    saldoTeorico: Option<int>,
    saldoReal: Option<int>,
    diferencia: Option<int>,
    observaciones: Option<string>,
    cerradoPorWhatsappUserId: Option<string>,
    createdAt: Option<int>)

  /** `Decimal(str(v or "0"))` without a sign check: absent is 0, anything else is kept. */
  function Amount(v: Option<int>): (x: int)
    ensures v.Some? ==> x == v.value
    ensures v.None? ==> x == 0
  {
    v.GetOr(0)
  }

  function CheckUser(i: CierreCajaInput): Result<string, FieldError> {
    RequiredBounded("cerrado_por_whatsapp_user_id", i.cerradoPorWhatsappUserId, UserRequired, 255)
  }

  /**
   * `CierreCajaEntity(**fields)`: only the closing user can be rejected (blank
   * once trimmed, or longer than 255); the six amounts are taken as given,
   * negative ones included, with absent ones 0; blank remarks become None.
   */
  function Validate(i: CierreCajaInput): (r: Result<CierreCaja, seq<FieldError>>)
    ensures r.Ok? <==>
      i.cerradoPorWhatsappUserId.Some? && !Text.IsBlank(i.cerradoPorWhatsappUserId.value)
      && |Text.Strip(i.cerradoPorWhatsappUserId.value)| <= 255
    ensures r.Ok? ==>
      && r.value.saldoInicial == i.saldoInicial.GetOr(0) && r.value.totalIngresos == i.totalIngresos.GetOr(0)
      && r.value.totalEgresos == i.totalEgresos.GetOr(0) && r.value.saldoTeorico == i.saldoTeorico.GetOr(0)
      && r.value.saldoReal == i.saldoReal.GetOr(0) && r.value.diferencia == i.diferencia.GetOr(0)
      && r.value.observaciones == OptionalText(i.observaciones)
      && r.value.cerradoPorWhatsappUserId == Text.Strip(i.cerradoPorWhatsappUserId.value)
      && r.value.id == i.id && r.value.fecha == i.fecha && r.value.createdAt == i.createdAt
    ensures r.Err? ==> |r.error| == 1 && r.error[0].field == "cerrado_por_whatsapp_user_id"
  {
    var user := CheckUser(i);
    if user.Ok? then
      Ok(CierreCaja(i.id, i.fecha, Amount(i.saldoInicial), Amount(i.totalIngresos), Amount(i.totalEgresos),
                    Amount(i.saldoTeorico), Amount(i.saldoReal), Amount(i.diferencia),
                    OptionalText(i.observaciones), user.value, i.createdAt))
    else
      Err(Errors(user))
  }

  /** No sign check: a closing with a negative difference (cash missing) is accepted as is. */
  lemma NegativeAmountsAccepted(i: CierreCajaInput, d: int)
    requires Validate(i).Ok? && d < 0
    ensures Validate(i.(diferencia := Some(d))).Ok?
    ensures Validate(i.(diferencia := Some(d))).value.diferencia == d
  {
  }

  /** With every amount omitted, all six are 0. */
  lemma OmittedAmountsZero(id: string, fecha: int, user: string)
    requires !Text.IsBlank(user) && |Text.Strip(user)| <= 255
    ensures var r := Validate(CierreCajaInput(id, fecha, None, None, None, None, None, None, None, Some(user), None));
      && r.Ok?
      && r.value.saldoInicial == 0 && r.value.totalIngresos == 0 && r.value.totalEgresos == 0
      && r.value.saldoTeorico == 0 && r.value.saldoReal == 0 && r.value.diferencia == 0
      && r.value.observaciones.None?
  {
  }

  /** The attributes `from_model` reads back from a stored closing. */
  function AsInput(c: CierreCaja): CierreCajaInput {
    CierreCajaInput(c.id, c.fecha, Some(c.saldoInicial), Some(c.totalIngresos), Some(c.totalEgresos),
                    Some(c.saldoTeorico), Some(c.saldoReal), Some(c.diferencia), c.observaciones,
                    Some(c.cerradoPorWhatsappUserId), c.createdAt)
  }

  /** `from_model` on a closing that was itself validated gives the same closing back. */
  lemma RevalidateUnchanged(i: CierreCajaInput)
    requires Validate(i).Ok?
    ensures Validate(AsInput(Validate(i).value)) == Validate(i)
  {
    RequiredBoundedStable("cerrado_por_whatsapp_user_id", i.cerradoPorWhatsappUserId, UserRequired, 255);
    OptionalTextIdempotent(i.observaciones);
  }
}
