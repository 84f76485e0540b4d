/**
 * The web client's helpers for API errors (apps/web/src/lib/api-errors.ts):
 * the message shown to the user, the server's per-field errors copied into
 * the form, and the test for an expired session.
 *
 * The caught value is untyped in TypeScript; here it is one of the shapes
 * the helpers can tell apart.
 */
module ApiErrors {
  import opened Wrappers

  /** One entry of the body's `errors` list. */
  datatype FieldError = FieldError(field: string, error: string)

  /** The JSON error body; either member may be absent. */
  datatype ErrorBody = ErrorBody(message: Option<string>, errors: Option<seq<FieldError>>)

  /**
   * A caught value: `null` or `undefined`; another falsy value (false, 0,
   * ""); or a truthy value, which ts-rest may call a fetch error and which
   * may carry a `status` and a `body`.
   */
  datatype ErrorValue =
    | Nullish
    | OtherFalsy
    | Truthy(fetchError: bool, status: Option<int>, body: Option<ErrorBody>)
  {
    predicate IsFalsy() {
      Nullish? || OtherFalsy?
    }
  }

  const Fallback := "Something went wrong."
  const NetworkMessage := "We could not reach the server. Check your connection and try again."

  /**
   * getApiErrorMessage: the fallback for a falsy value, the network message
   * for a fetch error, otherwise the body's message when it is a non-empty
   * string, else the fallback.
   */
  function GetApiErrorMessage(e: ErrorValue): (m: string)
    ensures m != ""
    ensures e.IsFalsy() ==> m == Fallback
    ensures e.Truthy? && e.fetchError ==> m == NetworkMessage
    ensures m != Fallback && m != NetworkMessage ==>
              e.Truthy? && !e.fetchError && e.body.Some? && e.body.value.message == Some(m)
    ensures (e.Truthy? && !e.fetchError && e.body.Some? && e.body.value.message.Some?
             && e.body.value.message.value != "") ==> m == e.body.value.message.value
  {
    if e.IsFalsy() then Fallback
    else if e.fetchError then NetworkMessage
    else if e.body.Some? && e.body.value.message.Some? && e.body.value.message.value != "" then e.body.value.message.value
    else Fallback
  }

  /** One `setError(field, { type, message })` call. */
  datatype SetErrorCall = SetErrorCall(field: string, errorType: string, message: string)

  const TypeError := "TypeError: cannot read properties of null or undefined"

  /** The list applyFieldErrors walks: `body.errors`, or none. */
  function FieldErrorsOf(e: ErrorValue): seq<FieldError>
    requires !e.Nullish?
  {
    if e.Truthy? && e.body.Some? && e.body.value.errors.Some? then e.body.value.errors.value else []
  }

  /**
   * applyFieldErrors: one setError call per entry of `body.errors`, in
   * order, of type "server" with the entry's error as message; none when
   * there is no list.  Reading `.body` of null or undefined throws, before
   * any call.
   */
  method ApplyFieldErrors(e: ErrorValue) returns (r: Outcome<string>, calls: seq<SetErrorCall>)
    ensures e.Nullish? <==> r.Fail?
    ensures e.Nullish? ==> calls == []
    ensures !e.Nullish? ==> |calls| == |FieldErrorsOf(e)|
    ensures !e.Nullish? ==> forall i | 0 <= i < |calls| ::
                              calls[i] == SetErrorCall(FieldErrorsOf(e)[i].field, "server", FieldErrorsOf(e)[i].error)
  {
    if e.Nullish? {
      return Fail(TypeError), [];
    }
    var fieldErrors := FieldErrorsOf(e);
    calls := [];
    for i := 0 to |fieldErrors|
      invariant |calls| == i
      invariant forall j | 0 <= j < i :: calls[j] == SetErrorCall(fieldErrors[j].field, "server", fieldErrors[j].error)
    {
      calls := calls + [SetErrorCall(fieldErrors[i].field, "server", fieldErrors[i].error)];
    }
    return Pass, calls;
  }

  /** isUnauthorizedError: a truthy value that is not a fetch error and has status 401. */
  function IsUnauthorizedError(e: ErrorValue): (b: bool)
    ensures b <==> e.Truthy? && !e.fetchError && e.status == Some(401)
  {
    if e.IsFalsy() then false
    else if e.fetchError then false
    else e.status == Some(401)
  }
}
