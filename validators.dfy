/**
 * The field validators shared by the pydantic entities, and the length and sign
 * constraints pydantic applies to a field after its validator has run.
 *
 * Amounts are whole numbers of cents; an absent or falsy input (None, 0, "")
 * is `None`. Each field yields at most one error, as in pydantic.
 */
module Validators {
  import opened Wrappers
  import Text

  /** Why a field was rejected. */
  datatype Problem =
    | ValueError(message: string)   // raised by a field validator
    | TooShort(minLength: nat)      // `min_length`
    | TooLong(maxLength: nat)       // `max_length`
    | Negative                      // `ge=0`

  datatype FieldError = FieldError(field: string, problem: Problem)

  /** The errors a field contributes to a `ValidationError`. */
  function Errors<T>(r: Result<T, FieldError>): (es: seq<FieldError>)
    ensures es == [] <==> r.Ok?
    ensures r.Err? ==> es == [r.error]
  {
    if r.Ok? then [] else [r.error]
  }

  /** `(v or "").strip()`: None becomes the empty string. */
  function StripOrEmpty(v: Option<string>): (r: string)
    ensures r == [] <==> v.None? || Text.IsBlank(v.value)
    ensures v.Some? ==> r == Text.Strip(v.value)
  {
    Text.Strip(v.GetOr(""))
  }

  /**
   * `None if v is None else (str(v).strip() or None)`: blank text becomes
   * None, other text is trimmed.
   */
  function OptionalText(v: Option<string>): (r: Option<string>)
    ensures r.None? <==> v.None? || Text.IsBlank(v.value)
    ensures r.Some? ==> r.value == Text.Strip(v.value) && r.value != []
  {
    if v.None? then None
    else
      var s := Text.Strip(v.value);
      if s == [] then None else Some(s)
  }

  /** `(v or "").strip()`, raising `ValueError(message)` when that is empty. */
  function RequiredText(field: string, v: Option<string>, message: string): (r: Result<string, FieldError>)
    ensures r.Ok? <==> v.Some? && !Text.IsBlank(v.value)
    ensures r.Ok? ==> r.value == Text.Strip(v.value) && r.value != []
    ensures r.Err? ==> r.error == FieldError(field, ValueError(message))
  {
    var s := StripOrEmpty(v);
    if s == [] then Err(FieldError(field, ValueError(message))) else Ok(s)
  }

  /** `Decimal(str(v or "0"))`, raising `ValueError(message)` when negative. */
  function NonNegative(field: string, v: Option<int>, message: string): (r: Result<int, FieldError>)
    ensures r.Ok? <==> v.None? || v.value >= 0
    ensures r.Ok? ==> r.value == v.GetOr(0) && r.value >= 0
    ensures r.Err? ==> r.error == FieldError(field, ValueError(message))
  {
    var x := v.GetOr(0);
    if x < 0 then Err(FieldError(field, ValueError(message))) else Ok(x)
  }

  /** Like `NonNegative`, but None stays None instead of becoming 0. */
  function OptionalNonNegative(field: string, v: Option<int>, message: string): (r: Result<Option<int>, FieldError>)
    ensures r.Ok? <==> v.None? || v.value >= 0
    ensures r.Ok? ==> r.value == v
    ensures r.Err? ==> r.error == FieldError(field, ValueError(message))
  {
    if v.Some? && v.value < 0 then Err(FieldError(field, ValueError(message))) else Ok(v)
  }

  /** pydantic's `min_length`/`max_length` check on a string field's final value. */
  function Length(field: string, s: string, minLength: nat, maxLength: Option<nat>): (r: Result<string, FieldError>)
    ensures r.Ok? <==> minLength <= |s| && (maxLength.Some? ==> |s| <= maxLength.value)
    ensures r.Ok? ==> r.value == s
    ensures r.Err? ==> r.error.field == field
  {
    if |s| < minLength then Err(FieldError(field, TooShort(minLength)))
    else if maxLength.Some? && |s| > maxLength.value then Err(FieldError(field, TooLong(maxLength.value)))
    else Ok(s)
  }

  /** `max_length` on an optional string field: None always passes. */
  function OptionalLength(field: string, s: Option<string>, maxLength: nat): (r: Result<Option<string>, FieldError>)
    ensures r.Ok? <==> s.None? || |s.value| <= maxLength
    ensures r.Ok? ==> r.value == s
  {
    if s.Some? && |s.value| > maxLength then Err(FieldError(field, TooLong(maxLength))) else Ok(s)
  }

  /** A required text field with its length bounds: validator first, constraints on its result. */
  function RequiredBounded(field: string, v: Option<string>, message: string, maxLength: nat): (r: Result<string, FieldError>)
    ensures r.Ok? <==> v.Some? && !Text.IsBlank(v.value) && |Text.Strip(v.value)| <= maxLength
    ensures r.Ok? ==> r.value == Text.Strip(v.value) && r.value != []
    ensures v.None? || Text.IsBlank(v.value) ==> r == Err(FieldError(field, ValueError(message)))
    ensures v.Some? && !Text.IsBlank(v.value) && |Text.Strip(v.value)| > maxLength ==> r == Err(FieldError(field, TooLong(maxLength)))
  {
    var s :- RequiredText(field, v, message);
    Length(field, s, 1, Some(maxLength))
  }

  /** A stripped field without its own error, rejected by `min_length=1` when blank. */
  function StrippedNonEmpty(field: string, v: Option<string>, maxLength: Option<nat>): (r: Result<string, FieldError>)
    ensures r.Ok? <==> v.Some? && !Text.IsBlank(v.value) && (maxLength.Some? ==> |Text.Strip(v.value)| <= maxLength.value)
    ensures r.Ok? ==> r.value == Text.Strip(v.value) && r.value != []
    ensures v.None? || Text.IsBlank(v.value) ==> r == Err(FieldError(field, TooShort(1)))
  {
    Length(field, StripOrEmpty(v), 1, maxLength)
  }

  // ----- validating an already valid value again changes nothing -----------------

  lemma StripOrEmptyIdempotent(v: Option<string>)
    ensures StripOrEmpty(Some(StripOrEmpty(v))) == StripOrEmpty(v)
  {
    Text.StripIdempotent(v.GetOr(""));
  }

  lemma OptionalTextIdempotent(v: Option<string>)
    ensures OptionalText(OptionalText(v)) == OptionalText(v)
  {
    if v.Some? {
      Text.StripIdempotent(v.value);
    }
  }

  lemma RequiredTextStable(field: string, v: Option<string>, message: string)
    requires RequiredText(field, v, message).Ok?
    ensures var s := RequiredText(field, v, message).value;
      RequiredText(field, Some(s), message) == Ok(s)
  {
    Text.StripIdempotent(v.value);
  }

  lemma StrippedStable(field: string, v: Option<string>, maxLength: Option<nat>)
    requires StrippedNonEmpty(field, v, maxLength).Ok?
    ensures var s := StrippedNonEmpty(field, v, maxLength).value;
      StrippedNonEmpty(field, Some(s), maxLength) == Ok(s)
  {
    Text.StripIdempotent(v.value);
  }

  lemma RequiredBoundedStable(field: string, v: Option<string>, message: string, maxLength: nat)
    requires RequiredBounded(field, v, message, maxLength).Ok?
    ensures var s := RequiredBounded(field, v, message, maxLength).value;
      RequiredBounded(field, Some(s), message, maxLength) == Ok(s)
  {
    Text.StripIdempotent(v.value);
  }
}
