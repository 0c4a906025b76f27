/** What the two form controllers share: the error map and how FormField
    displays it, the required-field tests, the toast, and the reaction to a
    gateway outcome. */
module FormCommon {
  import opened JsString
  import opened Types

  /** `Record<string, string>` from field key to message. */
  type ErrorMap = map<string, string>

  /** FormField renders the error paragraph only for a truthy message, so a
      key mapped to `""` shows nothing. */
  predicate Shows(errors: ErrorMap, key: string) {
    key in errors && errors[key] != ""
  }

  /** How a validator tests one leaf: not at all, `!x` (fails only on the empty
      string), or `!x.trim()` (fails on a string of trimmable characters). */
  datatype Check = Unchecked | Present | NonBlank

  predicate Missing(check: Check, v: string) {
    match check
    case Unchecked => false
    case Present => v == ""
    case NonBlank => Trim(v) == ""
  }

  /** The two tests told apart: a non-empty run of blanks passes `!x` and fails
      `!x.trim()`. */
  lemma MissingMeaning(v: string)
    ensures Missing(Present, v) <==> v == ""
    ensures Missing(NonBlank, v) <==> AllTrimmable(v)
    ensures !Missing(Unchecked, v)
  {
    TrimEmptyIff(v);
  }

  /** The "clear error when user starts typing" step:
      `if (errors[key]) errors = { ...errors, [key]: '' }`. The key is kept,
      its message emptied; nothing else changes. */
  function ClearError(errors: ErrorMap, key: string): (r: ErrorMap)
    ensures r.Keys == errors.Keys
    ensures !Shows(r, key)
    ensures forall k :: k in errors && k != key ==> r[k] == errors[k]
    ensures !Shows(errors, key) ==> r == errors
    ensures Shows(errors, key) ==> r[key] == ""
  {
    if Shows(errors, key) then errors[key := ""] else errors
  }

  // ----- toast -----

  datatype ToastKind = SuccessToast | ErrorToast

  datatype Toast = Toast(isVisible: bool, message: string, kind: ToastKind)

  /** `{ isVisible: false, message: '', type: 'success' }` */
  const InitialToast := Toast(false, "", SuccessToast)

  /** The toast's `onClose`: `setToast(prev => ({ ...prev, isVisible: false }))`. */
  function Closed(t: Toast): (r: Toast)
    ensures !r.isVisible && r.message == t.message && r.kind == t.kind
  {
    t.(isVisible := false)
  }

  const ValidationFailedMessage := "Please fill in all required fields"
  const UnexpectedErrorMessage := "An unexpected error occurred. Please try again."

  /** Milliseconds between a successful submission and the call to `onBack`. */
  const ReturnDelayMs := 2000

  /** What `await apiService.submit...(formData)` produces: a response, or a
      thrown fault caught by the form's `catch`. */
  datatype GatewayOutcome<T> = Responded(response: ApiResponse<T>) | Threw

  predicate Succeeded<T>(o: GatewayOutcome<T>) {
    o.Responded? && o.response.success
  }

  /** The toast a form shows once the gateway call has settled. */
  function OutcomeToast<T>(o: GatewayOutcome<T>): (t: Toast)
    ensures t.isVisible
    ensures t.kind == SuccessToast <==> Succeeded(o)
    ensures o.Responded? ==> t.message == o.response.message
    ensures o.Threw? ==> t.message == UnexpectedErrorMessage
  {
    match o
    case Responded(resp) =>
      Toast(true, resp.message, if resp.success then SuccessToast else ErrorToast)
    case Threw =>
      Toast(true, UnexpectedErrorMessage, ErrorToast)
  }

  /** The toast shown when validation fails. */
  const ValidationFailedToast := Toast(true, ValidationFailedMessage, ErrorToast)
}
