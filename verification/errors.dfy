/**
 * The standard error envelope of the HTTP API (`formatError` in
 * `backend/utils/errors.js`). `parseContractError` has an empty body and is
 * not part of this model.
 */
module Errors {
  import opened JsValues

  /** `{ error, message, context, code }` */
  datatype ErrorEnvelope = ErrorEnvelope(error: bool, message: JsValue, context: JsValue, code: JsValue)

  const DefaultMessage := "An error occurred"
  const DefaultContext := "Unknown"
  const DefaultCode := "UNKNOWN_ERROR"

  /**
   * Reading `error.<field>`: an error object yields its property, another
   * primitive has no such property, and `undefined`/`null` throw a TypeError
   * (its message is the one V8 produces).
   */
  function GetField(error: Thrown, message: bool): Completion<JsValue>
  {
    match error
    case ErrorObject(m, c) => Normal(if message then m else c)
    case ThrownPrimitive(v) =>
      if v.Undefined? || v.Null? then
        var holder := if v.Undefined? then "undefined" else "null";
        var field := if message then "message" else "code";
        Abrupt(ErrorObject(Str("Cannot read properties of " + holder + " (reading '" + field + "')"), Undefined))
      else Normal(Undefined)
  }

  /**
   * `formatError(error, context = 'Unknown')`; an omitted `context` is
   * `Undefined`, which is what triggers the default (an explicit `null` does not).
   */
  function FormatError(error: Thrown, context: JsValue): (r: Completion<ErrorEnvelope>)
    ensures r.Abrupt? <==> error == ThrownPrimitive(Undefined) || error == ThrownPrimitive(Null)
    ensures r.Normal? ==> r.value.error && Truthy(r.value.message) && Truthy(r.value.code)
    ensures r.Normal? && error.ErrorObject? && Truthy(error.message) ==> r.value.message == error.message
    ensures r.Normal? && !(error.ErrorObject? && Truthy(error.message)) ==> r.value.message == Str(DefaultMessage)
    ensures r.Normal? && error.ErrorObject? && Truthy(error.code) ==> r.value.code == error.code
    ensures r.Normal? && !(error.ErrorObject? && Truthy(error.code)) ==> r.value.code == Str(DefaultCode)
    ensures r.Normal? ==> (r.value.context == if context == Undefined then Str(DefaultContext) else context)
  {
    match GetField(error, true)
    case Abrupt(e) => Abrupt(e)
    case Normal(message) =>
      match GetField(error, false)
      case Abrupt(e) => Abrupt(e)
      case Normal(code) =>
        Normal(ErrorEnvelope(
          error := true,
          message := Or(message, Str(DefaultMessage)),
          context := if context.Undefined? then Str(DefaultContext) else context,
          code := Or(code, Str(DefaultCode))))
  }

  /** A falsy message (missing, `''`, `0`, `null`, `false`, NaN) falls back to the default text, whatever the code. */
  lemma FalsyMessageFallsBack(message: JsValue, code: JsValue, context: JsValue)
    requires !Truthy(message)
    ensures FormatError(ErrorObject(message, code), context).Normal?
    ensures FormatError(ErrorObject(message, code), context).value.message == Str(DefaultMessage)
    ensures FormatError(ErrorObject(message, code), context).value.code == (if Truthy(code) then code else Str(DefaultCode))
  {
  }

  /** A falsy code falls back to `UNKNOWN_ERROR`, whatever the message. */
  lemma FalsyCodeFallsBack(message: JsValue, code: JsValue, context: JsValue)
    requires !Truthy(code)
    ensures FormatError(ErrorObject(message, code), context).Normal?
    ensures FormatError(ErrorObject(message, code), context).value.code == Str(DefaultCode)
    ensures FormatError(ErrorObject(message, code), context).value.message == (if Truthy(message) then message else Str(DefaultMessage))
  {
  }

  /** A thrown string or number has no fields, so only defaults appear. */
  lemma PrimitiveThrowUsesDefaults(v: JsValue, context: JsValue)
    requires !v.Undefined? && !v.Null?
    ensures FormatError(ThrownPrimitive(v), context)
            == Normal(ErrorEnvelope(true, Str(DefaultMessage), if context.Undefined? then Str(DefaultContext) else context, Str(DefaultCode)))
  {
  }

  /**
   * Formatting is a fixed point on its own output: re-throwing an envelope's
   * message and code under its context gives back the same envelope.
   */
  lemma {:induction false} FormatErrorIsIdempotent(error: Thrown, context: JsValue)
    requires FormatError(error, context).Normal?
    ensures var env := FormatError(error, context).value;
            FormatError(ErrorObject(env.message, env.code), env.context) == Normal(env)
  {
    var env := FormatError(error, context).value;
    assert env.context != Undefined;
  }
}
