/** Request and response shaping of the HTTP client
    (public/assets/js/core/api.js): the request headers, the request body
    with its Content-Type, the classification of a response into an
    `ApiResult`, and the result of a failed transport. The network call
    itself, the `Content-Type` header read and the JSON parser are inputs. */
module Api {

  import opened Js

  const JsonMediaType := "application/json"

  // ---------------------------------------------------------------------------
  // Request headers and body

  /** `prepareHeaders(headers, idToken)`: a copy of the caller's headers with
      `Authorization` set when there is a token and `Accept` filled in when
      the caller has none. */
  method PrepareHeaders(headers: Value, idToken: Value) returns (h: map<string, Value>)
    ensures h.Keys == SpreadOf(headers).Keys + (if Truthy(idToken) then {"Authorization"} else {}) + {"Accept"}
    ensures forall k | k in SpreadOf(headers) && k != "Authorization" && k != "Accept" :: h[k] == SpreadOf(headers)[k]
    ensures Truthy(idToken) ==> h["Authorization"] == Str("Bearer " + ToStr(idToken))
    ensures !Truthy(idToken) && "Authorization" in SpreadOf(headers) ==> h["Authorization"] == SpreadOf(headers)["Authorization"]
    ensures Truthy(Get(headers, "Accept")) ==> h["Accept"] == Get(headers, "Accept")
    ensures !Truthy(Get(headers, "Accept")) ==> h["Accept"] == Str(JsonMediaType)
  {
    h := SpreadOf(Or(headers, Undefined));
    if Truthy(idToken) {
      h := h["Authorization" := Str("Bearer " + ToStr(idToken))];
    }
    if !Truthy(Get(Obj(h), "Accept")) {
      h := h["Accept" := Str(JsonMediaType)];
    }
  }

  /** The body a caller hands over: a `FormData` instance or any other value. */
  datatype Body = FormData(entries: seq<(string, string)>) | Data(v: Value)

  /** The body sent: none, the form itself, or `JSON.stringify(source)`
      (serialization is not modelled). */
  datatype RequestBody = NoBody | FormBody(entries: seq<(string, string)>) | Stringified(source: Value)

  /** `prepareBodyAndHeaders(body, requestHeaders)`: form data travels as is
      and without a Content-Type (the browser supplies one); any other body
      is sent as JSON, with `application/json` unless the caller chose a
      Content-Type; null and undefined send nothing. */
  method PrepareBodyAndHeaders(body: Body, requestHeaders: map<string, Value>) returns (requestBody: RequestBody, updated: map<string, Value>)
    ensures body.FormData? ==> updated == requestHeaders - {"Content-Type"}
    ensures body.Data? ==>
      && updated.Keys == requestHeaders.Keys + {"Content-Type"}
      && (forall k | k in requestHeaders && k != "Content-Type" :: updated[k] == requestHeaders[k])
    ensures body.Data? && Truthy(Get(Obj(requestHeaders), "Content-Type")) ==> updated["Content-Type"] == requestHeaders["Content-Type"]
    ensures body.Data? && !Truthy(Get(Obj(requestHeaders), "Content-Type")) ==> updated["Content-Type"] == Str(JsonMediaType)
    ensures requestBody.NoBody? <==> body.Data? && Nullish(body.v)
    ensures body.FormData? ==> requestBody == FormBody(body.entries)
    ensures body.Data? && !Nullish(body.v) ==> requestBody == Stringified(body.v)
  {
    updated := requestHeaders;
    var isFormData := body.FormData?;
    if isFormData {
      updated := updated - {"Content-Type"};
    } else if !Truthy(Get(Obj(updated), "Content-Type")) {
      updated := updated["Content-Type" := Str(JsonMediaType)];
    }
    if body.Data? && Nullish(body.v) {
      requestBody := NoBody;
    } else if isFormData {
      requestBody := FormBody(body.entries);
    } else {
      requestBody := Stringified(body.v);
    }
  }

  // ---------------------------------------------------------------------------
  // Responses

  /** `readJsonSafe(res)`: the parsed body when the Content-Type header
      mentions JSON and parsing succeeds (`parsed` is None when the parser
      throws), null otherwise. */
  function ReadJsonSafe(contentType: Option<string>, parsed: Option<Value>): (json: Value)
    ensures !Contains(if contentType.Some? then contentType.value else "", JsonMediaType) ==> json == Null
    ensures parsed.None? ==> json == Null
    ensures contentType.Some? && Contains(contentType.value, JsonMediaType) && parsed.Some? ==> json == parsed.value
  {
    var header := if contentType.Some? then contentType.value else "";
    if !Contains(header, JsonMediaType) then Null
    else match parsed
      case None => Null
      case Some(v) => v
  }

  /** The value every client call resolves to; `error` is absent on success. */
  datatype ApiResult = ApiResult(ok: bool, status: int, data: Value, error: Option<Value>)

  /** `res.ok`: a 2xx status. */
  predicate IsSuccessStatus(status: int) {
    200 <= status <= 299
  }

  /** The body shapes a 304 is accepted with: a truthy body that is an array,
      has an array `data`, or has `status` "success". */
  function LooksLikeSuccess(json: Value): (soft: bool)
    ensures json.Arr? ==> soft
    ensures json.Obj? ==>
      (soft <==> ("status" in json.fields && json.fields["status"] == Str("success")) || ("data" in json.fields && json.fields["data"].Arr?))
    ensures !json.Arr? && !json.Obj? ==> !soft
  {
    Truthy(json) && (Get(json, "status") == Str("success") || Get(json, "data").Arr? || json.Arr?)
  }

  /** `Request failed (<status>)` */
  function GenericFailure(status: int): string {
    "Request failed (" + IntToDecimal(status) + ")"
  }

  /** The error of a failed response: the first truthy one of the body's
      `message`, `error` and `msg`, else the generic message. */
  function FailureMessage(json: Value, status: int): (m: Value)
    ensures Truthy(m)
    ensures Truthy(json) && Truthy(Get(json, "message")) ==> m == Get(json, "message")
    ensures Truthy(json) && !Truthy(Get(json, "message")) && Truthy(Get(json, "error")) ==> m == Get(json, "error")
    ensures Truthy(json) && !Truthy(Get(json, "message")) && !Truthy(Get(json, "error")) && Truthy(Get(json, "msg")) ==> m == Get(json, "msg")
    ensures !Truthy(json) || (!Truthy(Get(json, "message")) && !Truthy(Get(json, "error")) && !Truthy(Get(json, "msg")))
        ==> m == Str(GenericFailure(status))
  {
    var fromBody := if Truthy(json) then Or(Or(Get(json, "message"), Get(json, "error")), Get(json, "msg")) else json;
    Or(fromBody, Str(GenericFailure(status)))
  }

  /** `handleResponse(res)` for a response with the given status, Content-Type
      header and parse outcome. */
  function HandleResponse(status: int, contentType: Option<string>, parsed: Option<Value>): (r: ApiResult)
    ensures var json := ReadJsonSafe(contentType, parsed);
      && r.status == status
      && (r.ok <==> IsSuccessStatus(status) || (status == 304 && LooksLikeSuccess(json)))
      && (r.ok <==> r.error.None?)
      && (IsSuccessStatus(status) ==> r.data == json)
      && (!r.ok ==> r.data == json && r.error == Some(FailureMessage(json, status)))
      && (status == 304 && LooksLikeSuccess(json) ==>
            r.data == (if json.Arr? then json else Or(Get(json, "data"), json)))
  {
    var json := ReadJsonSafe(contentType, parsed);
    if !IsSuccessStatus(status) then
      if status == 304 && LooksLikeSuccess(json) then
        ApiResult(true, status, if json.Arr? then json else Or(Get(json, "data"), json), None)
      else
        ApiResult(false, status, json, Some(FailureMessage(json, status)))
    else
      ApiResult(true, status, json, None)
  }

  /** Every failed response carries a truthy error, and a successful one none. */
  lemma FailuresCarryAnError(status: int, contentType: Option<string>, parsed: Option<Value>)
    ensures var r := HandleResponse(status, contentType, parsed);
      !r.ok <==> r.error.Some? && Truthy(r.error.value)
  {
  }

  /** A 2xx response whose body is not JSON, or fails to parse, is still a
      success, with null data. */
  lemma SuccessWithoutJson(status: int, contentType: Option<string>)
    requires IsSuccessStatus(status)
    ensures HandleResponse(status, contentType, None) == ApiResult(true, status, Null, None)
    ensures HandleResponse(status, Some("text/html"), Some(Str("x"))) == ApiResult(true, status, Null, None)
  {
    assert !Contains("text/html", JsonMediaType) by {
      assert |"text/html"| < |JsonMediaType|;
      NoContainsShorter("text/html", JsonMediaType);
    }
  }

  lemma {:induction false} NoContainsShorter(s: string, sub: string)
    requires |s| < |sub|
    ensures !Contains(s, sub)
  {
    if s != [] {
      NoContainsShorter(s[1..], sub);
    }
  }

  /** A 304 with a success envelope yields its `data` array. */
  lemma SoftSuccessExample()
    ensures var body := Obj(map["status" := Str("success"), "data" := Arr([Num(Finite(1.0)), Num(Finite(2.0)), Num(Finite(3.0))])]);
      HandleResponse(304, Some("application/json; charset=utf-8"), Some(body))
        == ApiResult(true, 304, Arr([Num(Finite(1.0)), Num(Finite(2.0)), Num(Finite(3.0))]), None)
  {
    assert StartsWith("application/json; charset=utf-8", JsonMediaType);
  }

  /** A 500 whose body names an `error` reports it and keeps the body as data. */
  lemma ServerErrorExample()
    ensures var body := Obj(map["error" := Str("db down")]);
      HandleResponse(500, Some("application/json"), Some(body))
        == ApiResult(false, 500, body, Some(Str("db down")))
  {
    assert StartsWith("application/json", JsonMediaType);
  }

  /** A 404 without a JSON body reports the generic message. */
  lemma GenericFailureExample()
    ensures HandleResponse(404, None, None) == ApiResult(false, 404, Null, Some(Str("Request failed (404)")))
  {
    NoContainsShorter("", JsonMediaType);
    assert NatToDecimal(4) == "4";
    assert NatToDecimal(40) == "40";
    assert NatToDecimal(404) == "404";
    assert GenericFailure(404) == "Request failed (404)";
  }

  /** What a failed `fetch` or `handleResponse` throws: an `Error` object
      (`TypeError`, `AbortError`, ...), whose `name` comes from its prototype,
      or any other value. */
  datatype Thrown = Error(name: string, message: string) | Raised(value: Value)

  /** `Error.prototype.toString`: the name, the message, or both joined by ": ". */
  function ErrorString(name: string, message: string): string {
    if name == "" then message
    else if message == "" then name
    else name + ": " + message
  }

  /** `String(err)` */
  function ThrownString(err: Thrown): string {
    match err
    case Error(name, message) => ErrorString(name, message)
    case Raised(v) => ToStr(v)
  }

  /** `err?.message` */
  function ThrownMessage(err: Thrown): Value {
    match err
    case Error(_, message) => Str(message)
    case Raised(v) => if Nullish(v) then Undefined else Get(v, "message")
  }

  /** The catch branch of `apiRequest`: a thrown error becomes a failed
      result with status 0 and null data; its message is `err.message` when
      that is truthy, else `String(err)`, which for an `Error` without a
      message is its name. */
  function TransportFailure(err: Thrown): (r: ApiResult)
    ensures !r.ok && r.status == 0 && r.data == Null && r.error.Some?
    ensures err.Error? && err.message != "" ==> r.error.value == Str(err.message)
    ensures err.Error? && err.message == "" ==> r.error.value == Str(err.name)
    ensures err.Raised? && !Nullish(err.value) && Truthy(Get(err.value, "message")) ==> r.error.value == Get(err.value, "message")
    ensures err.Raised? && (Nullish(err.value) || !Truthy(Get(err.value, "message"))) ==> r.error.value == Str(ToStr(err.value))
  {
    ApiResult(false, 0, Null, Some(Or(ThrownMessage(err), Str(ThrownString(err)))))
  }

  /** A network failure in a browser rejects with a TypeError; an abort
      without a message reports the error's name. */
  lemma TransportFailureExamples()
    ensures TransportFailure(Error("TypeError", "Failed to fetch")).error == Some(Str("Failed to fetch"))
    ensures TransportFailure(Error("AbortError", "")).error == Some(Str("AbortError"))
    ensures TransportFailure(Raised(Str("boom"))).error == Some(Str("boom"))
  {
  }
}
