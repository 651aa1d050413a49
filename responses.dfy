/** The pieces every list page repeats when it talks to the backend:
    turning a response body of uncertain shape into a list of records, and
    turning a rejected request into the text shown to the admin. */
module Responses {

  import opened JsValues

  /** The list in a response body: the body itself when it is an array,
      else the array under `key` when there is one, else the empty list.
      (`Array.isArray(r)`, then `r?.key && Array.isArray(r.key)`; an array
      is always truthy, so the second test is just "is an array".) */
  function Normalise(response: Value, key: string): (r: seq<Value>)
    ensures response.Arr? ==> r == response.items
    ensures !response.Arr? && Get(response, key).Arr? ==> r == Get(response, key).items
    ensures !response.Arr? && !Get(response, key).Arr? ==> r == []
  {
    if response.Arr? then response.items
    else match Get(response, key)
      case Arr(items) => items
      case _ => []
  }

  /** Both envelopes the backend may use give back the list they carry,
      whatever else the wrapping object holds. */
  lemma NormaliseRecoversList(xs: seq<Value>, key: string, others: map<string, Value>)
    ensures Normalise(Arr(xs), key) == xs
    ensures Normalise(Obj(others[key := Arr(xs)]), key) == xs
  {
    assert Get(Obj(others[key := Arr(xs)]), key) == Arr(xs);
  }

  /** Every record the normalisation yields was in the response, either at
      its top level or under `key`; it never invents one. */
  lemma NormaliseOnlyFromResponse(response: Value, key: string)
    ensures forall x :: x in Normalise(response, key) ==>
      (response.Arr? && x in response.items) || (Get(response, key).Arr? && x in Get(response, key).items)
  {
  }

  /** Anything that is neither an array nor an object holding an array under
      `key` (null, undefined, a string, a number, an object with the list
      under another name or with a non-array there) yields no records. */
  lemma NormaliseOtherShapesEmpty(response: Value, key: string)
    requires !response.Arr?
    requires !(response.Obj? && key in response.fields && response.fields[key].Arr?)
    ensures Normalise(response, key) == []
  {
  }

  /** `data?.error ? `${data.message}: ${data.error}` : data?.message || fallback`:
      the error detail of a rejected status update. */
  function ServerErrorDetail(data: Value, fallback: string): (r: Value)
    ensures Truthy(Get(data, "error")) ==>
      r == Str(ToJsString(Get(data, "message")) + ": " + ToJsString(Get(data, "error")))
    ensures !Truthy(Get(data, "error")) && Truthy(Get(data, "message")) ==> r == Get(data, "message")
    ensures !Truthy(Get(data, "error")) && !Truthy(Get(data, "message")) ==> r == Str(fallback)
  {
    if Truthy(Get(data, "error")) then
      Str(ToJsString(Get(data, "message")) + ": " + ToJsString(Get(data, "error")))
    else
      Or(Get(data, "message"), Str(fallback))
  }

  /** The alert shown for a rejected status update: `Error: <detail>` when
      the server answered, a fixed network message when it did not. */
  function FailureAlert(failure: Outcome<Value>, fallback: string): (r: string)
    requires !failure.Success?
    ensures failure.NetworkError? ==> r == NetworkAlert
    ensures failure.ServerError? ==> |r| >= 7 && r[..7] == "Error: "
    ensures failure.ServerError? ==> r[7..] == ToJsString(ServerErrorDetail(failure.data, fallback))
  {
    match failure
    case ServerError(data) => "Error: " + ToJsString(ServerErrorDetail(data, fallback))
    case NetworkError => NetworkAlert
  }

  const NetworkAlert := "Network error. Please try again."

  /** What the admin reads for each kind of failure: both message and error
      present gives "Error: <message>: <error>", a message alone gives
      "Error: <message>", a body with neither (or no body at all) gives the
      page's fallback, and no response gives the network text. */
  lemma FailureAlertCases(message: string, error: string, fallback: string)
    requires message != "" && error != ""
    ensures FailureAlert(ServerError(Obj(map["message" := Str(message), "error" := Str(error)])), fallback)
      == "Error: " + message + ": " + error
    ensures FailureAlert(ServerError(Obj(map["message" := Str(message)])), fallback) == "Error: " + message
    ensures FailureAlert(ServerError(Obj(map[])), fallback) == "Error: " + fallback
    ensures FailureAlert(ServerError(Undefined), fallback) == "Error: " + fallback
    ensures FailureAlert(NetworkError, fallback) == NetworkAlert
  {
    var both := Obj(map["message" := Str(message), "error" := Str(error)]);
    assert Get(both, "error") == Str(error) && Get(both, "message") == Str(message);
    var one := Obj(map["message" := Str(message)]);
    assert Get(one, "error") == Undefined && Get(one, "message") == Str(message);
    assert Get(Obj(map[]), "error") == Undefined && Get(Obj(map[]), "message") == Undefined;
  }

  /** An `error` field without a `message` still prints: the message part
      becomes the word "undefined". */
  lemma ErrorWithoutMessage(error: string, fallback: string)
    requires error != ""
    ensures FailureAlert(ServerError(Obj(map["error" := Str(error)])), fallback)
      == "Error: undefined: " + error
  {
    var body := Obj(map["error" := Str(error)]);
    assert Get(body, "error") == Str(error) && Get(body, "message") == Undefined;
  }

  /** `err.response?.data?.message || fallback`, as a toast text. */
  function MessageOr(failure: Outcome<Value>, fallback: string): (r: string)
    requires !failure.Success?
    ensures failure.NetworkError? ==> r == fallback
    ensures failure.ServerError? && !Truthy(Get(failure.data, "message")) ==> r == fallback
    ensures failure.ServerError? && Get(failure.data, "message").Str? && Get(failure.data, "message").s != ""
      ==> r == Get(failure.data, "message").s
    ensures failure.ServerError? && Truthy(Get(failure.data, "message")) ==> r == ToJsString(Get(failure.data, "message"))
  {
    match failure
    case ServerError(data) => ToJsString(Or(Get(data, "message"), Str(fallback)))
    case NetworkError => fallback
  }
}
