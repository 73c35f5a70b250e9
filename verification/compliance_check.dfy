/**
 * The regulator's compliance form (`frontend/src/components/Verification/ComplianceCheck.jsx`):
 * what one `handleSubmit` sends and the form state it leaves, as a pure
 * function of the state at submission and of how the request settled.
 * React batches the state updates; only the state after the handler has
 * finished is modelled.
 */
module ComplianceCheck {
  import opened JsValues
  import opened JsStrings
  import VerificationController

  /** The component's state; `error` and `success` are `Null` when cleared. */
  datatype FormState = FormState(
    compliant: bool,
    certificateHash: string,
    notes: string,
    isSubmitting: bool,
    error: JsValue,
    success: JsValue)

  /** The `useState` initial values. */
  const InitialForm := FormState(true, "", "", false, Null, Null)

  /** The object passed to `verificationAPI.checkCompliance`. */
  datatype ComplianceRequest = ComplianceRequest(
    signerAddress: JsValue,
    productId: JsValue,
    compliant: bool,
    certificateHash: string)

  /** The fields of `response.data` the handler reads; a missing field is `Undefined`. */
  datatype ResponseData = ResponseData(success: JsValue, autoVerified: JsValue, isAuthentic: JsValue, message: JsValue)

  /**
   * How the request settled: a response whose `data` may be absent, or a
   * rejection carrying `err.response?.data?.message` (`Undefined` when
   * there is no response body) and `err.message`.
   */
  datatype Settled =
    | Responded(data: Option<ResponseData>)
    | Rejected(responseMessage: JsValue, message: JsValue)

  /** The request sent, the state left, and the `(productId, compliant)` the completion callback received, if it was called. */
  datatype Submission = Submission(request: ComplianceRequest, state: FormState, callback: Option<(JsValue, bool)>)

  const MarkedPrefix := "Product marked as "
  const AutoVerifiedSuffix := " \U{2713} Product authenticity automatically verified!"
  const CheckFailed := "Compliance check failed"
  const RequestFailed := "Failed to perform compliance check"

  /** The flag the success message names, written as the message writes it. */
  function FlagWord(compliant: bool): string
  {
    if compliant then "compliant" else "non-compliant"
  }

  /** `Product marked as …!`, plus the authenticity note when both response flags are truthy. */
  function SuccessMessage(compliant: bool, data: ResponseData): (m: string)
    ensures |m| > |MarkedPrefix| && m[..|MarkedPrefix|] == MarkedPrefix
    ensures m[|MarkedPrefix|] == (if compliant then 'c' else 'n')
    ensures |m| > |MarkedPrefix + FlagWord(compliant) + "!"|
            <==> Truthy(data.autoVerified) && Truthy(data.isAuthentic)
    ensures |m| > |MarkedPrefix + FlagWord(compliant) + "!"| ==>
              m[|MarkedPrefix + FlagWord(compliant) + "!"|..] == AutoVerifiedSuffix
  {
    var base := MarkedPrefix + FlagWord(compliant) + "!";
    if Truthy(data.autoVerified) && Truthy(data.isAuthentic) then base + AutoVerifiedSuffix else base
  }

  /** The succeeded branch is taken when `response.data && response.data.success`. */
  predicate Succeeded(settled: Settled)
  {
    settled.Responded? && settled.data.Some? && Truthy(settled.data.value.success)
  }

  /** The text `setError` receives on the two failure paths. */
  function FailureMessage(settled: Settled): (e: JsValue)
    requires !Succeeded(settled)
    ensures Truthy(e)
    ensures settled.Responded? && settled.data.Some? && Truthy(settled.data.value.message) ==> e == settled.data.value.message
    ensures settled.Responded? && (settled.data.None? || !Truthy(settled.data.value.message)) ==> e == Str(CheckFailed)
    ensures settled.Rejected? && Truthy(settled.responseMessage) ==> e == settled.responseMessage
    ensures settled.Rejected? && !Truthy(settled.responseMessage) && Truthy(settled.message) ==> e == settled.message
    ensures settled.Rejected? && !Truthy(settled.responseMessage) && !Truthy(settled.message) ==> e == Str(RequestFailed)
  {
    match settled
    case Responded(data) =>
      Or(if data.Some? then data.value.message else Undefined, Str(CheckFailed))
    case Rejected(responseMessage, message) =>
      Or(responseMessage, Or(message, Str(RequestFailed)))
  }

  /** `handleSubmit`, from the state at submission to the state after the `finally` block. */
  function HandleSubmit(form: FormState, productId: JsValue, signerAddress: JsValue,
                        hasCallback: bool, settled: Settled): (r: Submission)
    ensures r.request == ComplianceRequest(signerAddress, productId, form.compliant, Trim(form.certificateHash))
    ensures !r.state.isSubmitting
    ensures Succeeded(settled) ==>
              && r.state.success == Str(SuccessMessage(form.compliant, settled.data.value))
              && r.state.error == Null
              && r.state.compliant && r.state.certificateHash == "" && r.state.notes == ""
              && r.callback == (if hasCallback then Some((productId, form.compliant)) else None)
    ensures !Succeeded(settled) ==>
              && r.state.success == Null
              && Truthy(r.state.error)
              && r.state.compliant == form.compliant
              && r.state.certificateHash == form.certificateHash
              && r.state.notes == form.notes
              && r.callback.None?
  {
    var request := ComplianceRequest(signerAddress, productId, form.compliant, Trim(form.certificateHash));
    if Succeeded(settled) then
      var message := SuccessMessage(form.compliant, settled.data.value);
      Submission(request, FormState(true, "", "", false, Null, Str(message)),
                 if hasCallback then Some((productId, form.compliant)) else None)
    else
      Submission(request, form.(isSubmitting := false, error := FailureMessage(settled), success := Null), None)
  }

  // ----- lemmas -----

  /** The message names the submitted flag: two success messages that agree were for the same flag. */
  lemma {:induction false} SuccessMessageNamesFlag(c1: bool, d1: ResponseData, c2: bool, d2: ResponseData)
    requires SuccessMessage(c1, d1) == SuccessMessage(c2, d2)
    ensures c1 == c2
  {
    var k := |MarkedPrefix|;
    assert SuccessMessage(c1, d1)[k] == SuccessMessage(c2, d2)[k];
  }

  /** The frontend's message is the backend's compliance message for the same flag, with `!` added. */
  lemma {:induction false} MessageAgreesWithBackend(compliant: bool, data: ResponseData)
    ensures SuccessMessage(compliant, data)[..|MarkedPrefix + FlagWord(compliant) + "!"|]
            == (if Truthy(Bool(compliant)) then VerificationController.MarkedCompliant
                else VerificationController.MarkedNonCompliant) + "!"
  {
    var base := MarkedPrefix + FlagWord(compliant) + "!";
    assert SuccessMessage(compliant, data)[..|base|] == base;
  }

  /** After a success the editable fields are back at their initial values. */
  lemma {:induction false} SuccessResetsForm(form: FormState, productId: JsValue, signerAddress: JsValue,
                                             hasCallback: bool, settled: Settled)
    requires Succeeded(settled)
    ensures var s := HandleSubmit(form, productId, signerAddress, hasCallback, settled).state;
            s.(success := Null) == InitialForm
  {
  }

  /**
   * The hash is sent without surrounding whitespace, and submitting the
   * form a second time with the hash as sent sends the same request.
   */
  lemma {:induction false} SentHashIsTrimmed(form: FormState, productId: JsValue, signerAddress: JsValue,
                                             hasCallback: bool, settled: Settled, again: Settled)
    ensures var sent := HandleSubmit(form, productId, signerAddress, hasCallback, settled).request;
            && (sent.certificateHash == "" || (!IsJsSpace(sent.certificateHash[0])
                                               && !IsJsSpace(sent.certificateHash[|sent.certificateHash| - 1])))
            && HandleSubmit(form.(certificateHash := sent.certificateHash), productId, signerAddress, hasCallback, again).request
               == sent
  {
    var hash := Trim(form.certificateHash);
    TrimEndsNotSpace(form.certificateHash);
    TrimIdempotent(form.certificateHash);
    assert HandleSubmit(form, productId, signerAddress, hasCallback, settled).request.certificateHash == hash;
    assert HandleSubmit(form.(certificateHash := hash), productId, signerAddress, hasCallback, again).request.certificateHash
           == Trim(hash);
  }

  /** A successful submission from the reset form submits `compliant: true` with an empty hash. */
  lemma {:induction false} ResubmitAfterSuccess(form: FormState, productId: JsValue, signerAddress: JsValue,
                                                hasCallback: bool, settled: Settled, again: Settled)
    requires Succeeded(settled)
    ensures var s := HandleSubmit(form, productId, signerAddress, hasCallback, settled).state;
            HandleSubmit(s, productId, signerAddress, hasCallback, again).request
            == ComplianceRequest(signerAddress, productId, true, "")
  {
    assert AllSpace("");
    TrimEmptyIffAllSpace("");
  }
}
