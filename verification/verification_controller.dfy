/**
 * The four verification handlers (`backend/controllers/verificationController.js`):
 * which fields they read from the request, the JSON they answer with, and
 * the error path. The blockchain calls are still placeholders in the
 * handlers, so every successful answer carries `transactionHash: null`.
 *
 * The JSON body parser always leaves an object in `req.body`, so the
 * destructuring itself cannot throw; what can still throw inside a handler
 * (sending the response, future contract calls) is the `fault` parameter.
 */
module VerificationController {
  import opened JsValues
  import opened JsNumbers
  import opened JsStrings
  import opened Errors

  /** The body fields the handlers read; a field the client did not send is `Undefined`. */
  datatype RequestBody = RequestBody(
    signerAddress: JsValue,
    productId: JsValue,
    qualityScore: JsValue,
    compliant: JsValue,
    certificateHash: JsValue,
    notes: JsValue)

  /** The JSON object a handler answers with. */
  datatype Payload =
    | Authenticity(success: bool, isValid: bool, transactionHash: JsValue, message: string)
    | Quality(success: bool, transactionHash: JsValue, passed: bool, message: string)
    | Compliance(success: bool, transactionHash: JsValue, compliant: JsValue, message: string)
    | History(success: bool, verifications: seq<JsValue>)
    | Failure(envelope: ErrorEnvelope)

  /**
   * A response sent with a status, or no response at all: when the `catch`
   * block itself throws, the async handler's promise rejects and nothing
   * is sent.
   */
  datatype Reply = Reply(status: nat, payload: Payload) | Unanswered(reason: Thrown)

  const AuthenticityVerified := "Product authenticity verified"
  const QualityCheckPerformed := "Quality check performed"
  const MarkedCompliant := "Product marked as compliant"
  const MarkedNonCompliant := "Product marked as non-compliant"
  const PassMark := 50

  /** A destructuring default `{ x = d }`: only a missing (`undefined`) value is replaced. */
  function WithDefault(v: JsValue, d: JsValue): JsValue
  {
    if v.Undefined? then d else v
  }

  /** The `notes = ''` binding of the authenticity and quality handlers. */
  function Notes(body: RequestBody): (notes: JsValue)
    ensures notes != Undefined
    ensures body.notes != Undefined ==> notes == body.notes
    ensures body.notes == Undefined ==> notes == Str("")
  {
    WithDefault(body.notes, Str(""))
  }

  /** The `certificateHash = ''` binding of the compliance handler. */
  function CertificateHash(body: RequestBody): (hash: JsValue)
    ensures hash != Undefined
    ensures body.certificateHash != Undefined ==> hash == body.certificateHash
    ensures body.certificateHash == Undefined ==> hash == Str("")
  {
    WithDefault(body.certificateHash, Str(""))
  }

  /** The `try { res.json(ok) } catch (error) { res.status(500).json(formatError(error, name)) }` shape shared by all handlers. */
  function Respond(handler: string, fault: Option<Thrown>, ok: Payload): (r: Reply)
    requires !ok.Failure?
    ensures r.Reply? && r.status == 200 <==> fault.None?
    ensures r.Reply? && r.status == 200 ==> r.payload == ok
    ensures r.Reply? ==> r.status == 200 || r.status == 500
    ensures r.Reply? && r.status == 500 ==>
              r.payload.Failure? && r.payload.envelope.error && r.payload.envelope.context == Str(handler)
    ensures r.Unanswered? <==> fault == Some(ThrownPrimitive(Undefined)) || fault == Some(ThrownPrimitive(Null))
  {
    match fault
    case None => Reply(200, ok)
    case Some(e) =>
      match FormatError(e, Str(handler))
      case Normal(envelope) => Reply(500, Failure(envelope))
      case Abrupt(reason) => Unanswered(reason)
  }

  /** `verifyAuthenticity`: the validity flag is still a placeholder `false`. */
  function VerifyAuthenticity(body: RequestBody, fault: Option<Thrown>): (r: Reply)
    ensures r.Reply? && r.status == 200 ==>
              r.payload.Authenticity? && r.payload.success && !r.payload.isValid
              && r.payload.transactionHash == Null && r.payload.message == AuthenticityVerified
    ensures r.Reply? && r.status == 500 ==> r.payload.Failure? && r.payload.envelope.context == Str("verifyAuthenticity")
  {
    Respond("verifyAuthenticity", fault, Authenticity(true, false, Null, AuthenticityVerified))
  }

  /** `performQualityCheck`: `passed: qualityScore >= 50`. */
  function PerformQualityCheck(body: RequestBody, fault: Option<Thrown>): (r: Reply)
    ensures r.Reply? && r.status == 200 ==>
              r.payload.Quality? && r.payload.success && r.payload.transactionHash == Null
              && r.payload.message == QualityCheckPerformed
              && (r.payload.passed <==> AtLeast(body.qualityScore, PassMark))
    ensures r.Reply? && r.status == 500 ==> r.payload.Failure? && r.payload.envelope.context == Str("performQualityCheck")
  {
    Respond("performQualityCheck", fault,
            Quality(true, Null, AtLeast(body.qualityScore, PassMark), QualityCheckPerformed))
  }

  /** `checkCompliance`: the flag is echoed and named in the message. */
  function CheckCompliance(body: RequestBody, fault: Option<Thrown>): (r: Reply)
    ensures r.Reply? && r.status == 200 ==>
              r.payload.Compliance? && r.payload.success && r.payload.transactionHash == Null
              && r.payload.compliant == body.compliant
              && (r.payload.message == MarkedCompliant <==> Truthy(body.compliant))
              && (r.payload.message == MarkedNonCompliant <==> !Truthy(body.compliant))
    ensures r.Reply? && r.status == 500 ==> r.payload.Failure? && r.payload.envelope.context == Str("checkCompliance")
  {
    var message := if Truthy(body.compliant) then MarkedCompliant else MarkedNonCompliant;
    assert MarkedCompliant != MarkedNonCompliant by {
      assert MarkedCompliant[18] != MarkedNonCompliant[18];
    }
    Respond("checkCompliance", fault, Compliance(true, Null, body.compliant, message))
  }

  /** The id `getVerificationHistory` reads from the path: `parseInt(req.params.productId)`. */
  function HistoryProductId(productIdParam: string): Number
  {
    ParseInt(productIdParam)
  }

  /** `getVerificationHistory`: the parsed id is not used yet and the list of verifications is still a placeholder `[]`. */
  function GetVerificationHistory(productIdParam: string, fault: Option<Thrown>): (r: Reply)
    ensures r.Reply? && r.status == 200 ==> r.payload == History(true, [])
    ensures r.Reply? && r.status == 500 ==> r.payload.Failure? && r.payload.envelope.context == Str("getVerificationHistory")
  {
    Respond("getVerificationHistory", fault, History(true, []))
  }

  // ----- lemmas -----

  /** A numeric score, whole or fractional, passes exactly from 50 up. */
  lemma {:induction false} QualityPassesFromFifty(body: RequestBody, x: real)
    requires body.qualityScore == Num(Finite(x))
    ensures PerformQualityCheck(body, None) == Reply(200, Quality(true, Null, x >= 50.0, QualityCheckPerformed))
  {
  }

  /** `Infinity` passes, while `-Infinity` and `NaN` fail: NaN compares false with everything. */
  lemma {:induction false} QualityOfNonFiniteScores(body: RequestBody)
    ensures body.qualityScore == Num(PosInf) ==> PerformQualityCheck(body, None).payload.passed
    ensures body.qualityScore == Num(NegInf) ==> !PerformQualityCheck(body, None).payload.passed
    ensures body.qualityScore == Num(NaN) ==> !PerformQualityCheck(body, None).payload.passed
  {
  }

  /** A score sent as decimal text (a form-encoded body) is compared by its value. */
  lemma {:induction false} QualityScoreAsText(body: RequestBody, k: int)
    requires body.qualityScore == Str(IntToDecimal(k))
    ensures PerformQualityCheck(body, None) == Reply(200, Quality(true, Null, k >= 50, QualityCheckPerformed))
  {
    StringToNumberOfDecimal(k);
  }

  /**
   * A missing score (NaN), `null`, `''`, `false` and `true` all fail the
   * check: none of them converts to a number of at least 50.
   */
  lemma {:induction false} QualityFailsWithoutScore(body: RequestBody)
    requires body.qualityScore in {Undefined, Null, Str(""), Bool(false), Bool(true)}
    ensures PerformQualityCheck(body, None).payload.Quality?
    ensures !PerformQualityCheck(body, None).payload.passed
  {
    if body.qualityScore == Str("") {
      TrimEmptyString();
    }
  }

  /** `Trim("")` is empty, so ToNumber('') is 0. */
  lemma TrimEmptyString()
    ensures StringToNumber("") == Finite(0.0)
  {
    assert AllSpace("");
    TrimEmptyIffAllSpace("");
  }

  /** The string `"false"` is truthy, so a form-encoded `compliant=false` is reported as compliant. */
  lemma {:induction false} StringFalseReadsCompliant(body: RequestBody)
    requires body.compliant == Str("false")
    ensures CheckCompliance(body, None).payload.message == MarkedCompliant
  {
  }

  /** Every handler answers a thrown error object with status 500 and the formatted error named after the handler. */
  lemma {:induction false} ThrownErrorsGive500(body: RequestBody, param: string, message: JsValue, code: JsValue)
    ensures var fault := Some(ErrorObject(message, code));
            && VerifyAuthenticity(body, fault) == Reply(500, Failure(FormatError(ErrorObject(message, code), Str("verifyAuthenticity")).value))
            && PerformQualityCheck(body, fault) == Reply(500, Failure(FormatError(ErrorObject(message, code), Str("performQualityCheck")).value))
            && CheckCompliance(body, fault) == Reply(500, Failure(FormatError(ErrorObject(message, code), Str("checkCompliance")).value))
            && GetVerificationHistory(param, fault) == Reply(500, Failure(FormatError(ErrorObject(message, code), Str("getVerificationHistory")).value))
  {
  }

  /** The path parameter reads back as the id it was written from. */
  lemma HistoryReadsDecimalId(k: int)
    ensures HistoryProductId(IntToDecimal(k)) == Finite(k as real)
  {
    ParseIntOfDecimal(k);
  }
}
