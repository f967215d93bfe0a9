/** The `useFetch` composable (src/composable/useFetch.ts): three reactive
    fields and a `request` operation that attaches default headers, calls
    the transport, decodes the JSON body and settles the fields.

    The transport (`fetch` followed by `res.json()`) is a function
    parameter returning an abstract Outcome; the `token` cookie is read by
    the caller and passed in. */
module Fetch {
  import opened JsValues

  const DefaultApiMessage: string := "Terjadi kesalahan"
  const BearerPrefix: string := "Bearer "
  const AuthorizationHeader: string := "Authorization"
  const ContentTypeHeader: string := "Content-Type"
  const JsonMediaType: string := "application/json"

  /** A request body: nothing, multipart form data, or anything else.
      TextBody stands for every body that is not FormData (a string, a
      Blob, URLSearchParams, an ArrayBuffer): all of them get the JSON
      content type. */
  datatype Body = NoBody | TextBody(text: string) | FormDataBody(entries: seq<(string, string)>)

  /** `RequestInit`: the options the caller passes and, with the headers
      replaced, the options handed to the transport. `rest` stands for every
      other option field (mode, credentials, …). */
  datatype RequestInit = RequestInit(
    verb: Option<string>,       // the `method` option
    body: Body,
    headers: map<string, string>,
    rest: map<string, string>)

  /** What the transport and the body decoder produce. */
  datatype Outcome =
    | NetworkFailure           // `fetch` rejects
    | ParseFailure             // `res.json()` rejects: the body is not JSON
    | Response(ok: bool, body: Json)

  /** What the `catch` block receives and stores in `error`. */
  datatype Caught =
    | Thrown(value: Json)      // the value thrown for a non-ok response
    | NetworkError             // the transport's TypeError
    | SyntaxError              // the decoder's SyntaxError
    | NullPropertyError        // TypeError from reading `message` of a `null` body

  /** How the continuation after the awaits ends. */
  datatype Settlement = Resolved(value: Json) | Rejected(caught: Caught)

  /** The headers the composable adds on its own: a bearer credential when
      the token is a non-empty string, and a JSON content type unless the
      body is form data (the transport then sets the multipart boundary). */
  function DefaultHeaders(token: Option<string>, body: Body): (h: map<string, string>)
    ensures AuthorizationHeader in h <==> Present(token)
    ensures AuthorizationHeader in h ==> h[AuthorizationHeader] == BearerPrefix + token.value
    ensures ContentTypeHeader in h <==> !body.FormDataBody?
    ensures ContentTypeHeader in h ==> h[ContentTypeHeader] == JsonMediaType
    ensures h.Keys <= {AuthorizationHeader, ContentTypeHeader}
  {
    var auth := if Present(token) then map[AuthorizationHeader := BearerPrefix + token.value] else map[];
    if body.FormDataBody? then auth else auth[ContentTypeHeader := JsonMediaType]
  }

  /** The options handed to the transport: the caller's options with the
      headers replaced by the defaults overlaid with the caller's own
      headers, so that the caller wins on every shared name. */
  function Outgoing(options: RequestInit, token: Option<string>): (init: RequestInit)
    ensures init.verb == options.verb && init.body == options.body && init.rest == options.rest
    ensures forall k :: k in init.headers <==> k in options.headers || k in DefaultHeaders(token, options.body)
    ensures forall k :: k in options.headers ==> init.headers[k] == options.headers[k]
    ensures forall k :: k in DefaultHeaders(token, options.body) && k !in options.headers ==>
              init.headers[k] == DefaultHeaders(token, options.body)[k]
    // the two default headers, as seen by the transport
    ensures AuthorizationHeader !in options.headers ==>
              (AuthorizationHeader in init.headers <==> Present(token)) &&
              (Present(token) ==> init.headers[AuthorizationHeader] == BearerPrefix + token.value)
    ensures ContentTypeHeader !in options.headers ==>
              (ContentTypeHeader in init.headers <==> !options.body.FormDataBody?) &&
              (!options.body.FormDataBody? ==> init.headers[ContentTypeHeader] == JsonMediaType)
  {
    options.(headers := DefaultHeaders(token, options.body) + options.headers)
  }

  /** `result.message` for a decoded body other than `null`: the field of
      an object, `undefined` (None) for every other value. */
  function MessageOf(body: Json): (m: Option<Json>)
    requires body != JNull
    ensures m.Some? <==> body.JObject? && "message" in body.fields
    ensures m.Some? ==> m.value == body.fields["message"]
  {
    if body.JObject? && "message" in body.fields then Some(body.fields["message"]) else None
  }

  /** What is thrown for a non-ok response: the body's `message` when it is
      truthy, the fixed default otherwise; reading `message` of a `null`
      body throws a TypeError instead. Whatever is thrown is truthy. */
  function ApiFailure(body: Json): (c: Caught)
    ensures c.NullPropertyError? <==> body == JNull
    ensures c.Thrown? ==> Truthy(c.value)
    ensures body.JObject? && "message" in body.fields && Truthy(body.fields["message"]) ==>
              c == Thrown(body.fields["message"])
    ensures body != JNull && !(body.JObject? && "message" in body.fields && Truthy(body.fields["message"])) ==>
              c == Thrown(JString(DefaultApiMessage))
  {
    if body == JNull then NullPropertyError
    else
      var m := MessageOf(body);
      if m.Some? && Truthy(m.value) then Thrown(m.value) else Thrown(JString(DefaultApiMessage))
  }

  /** How the `try` block ends for a given transport outcome. The body is
      decoded before the status is looked at, so an undecodable body fails
      as a parse error even on an error status; a decoded body is the
      result exactly when the response is ok, and then the whole body (not
      a field of it) is the result. */
  function Settle(outcome: Outcome): (s: Settlement)
    ensures s.Resolved? <==> outcome.Response? && outcome.ok
    ensures s.Resolved? ==> s.value == outcome.body
    ensures outcome.NetworkFailure? ==> s == Rejected(NetworkError)
    ensures outcome.ParseFailure? ==> s == Rejected(SyntaxError)
    ensures outcome.Response? && !outcome.ok ==> s == Rejected(ApiFailure(outcome.body))
  {
    match outcome
    case NetworkFailure => Rejected(NetworkError)
    case ParseFailure => Rejected(SyntaxError)
    case Response(ok, body) => if ok then Resolved(body) else Rejected(ApiFailure(body))
  }

  /** Whether a caught value would show in a `v-if="error"` binding. */
  predicate Reportable(c: Caught)
  {
    c.Thrown? ==> Truthy(c.value)
  }

  /** The state returned by `useFetch()`: `data`, `error` and `loading`.
      JavaScript `null` in `data` is JNull; `error` is None when null. */
  class FetchState {
    var data: Json
    var error: Option<Caught>
    var loading: bool

    /** While a request is in flight no error is shown, and any error shown
        is a truthy value. */
    ghost predicate Valid()
      reads this
    {
      (loading ==> error == None) && (error.Some? ==> Reportable(error.value))
    }

    /** `useFetch()`: nothing loaded, no error, not loading. */
    constructor ()
      ensures Valid()
      ensures data == JNull && error == None && !loading
    {
      data := JNull;
      error := None;
      loading := false;
    }

    /** The part of `request` that runs before its first `await`: raise
        `loading`, clear `error`, and build the options for the transport
        (the default header record is filled in step by step). */
    method Begin(options: RequestInit, token: Option<string>) returns (init: RequestInit)
      modifies this
      ensures Valid()
      ensures loading && error == None && data == old(data)
      ensures init == Outgoing(options, token)
    {
      loading := true;
      error := None;

      var defaultHeaders: map<string, string> := map[];
      if Present(token) {
        defaultHeaders := defaultHeaders[AuthorizationHeader := BearerPrefix + token.value];
      }
      if !options.body.FormDataBody? {
        defaultHeaders := defaultHeaders[ContentTypeHeader := JsonMediaType];
      }
      init := options.(headers := defaultHeaders + options.headers);
    }

    /** The continuation once the transport and the decoder have answered:
        on success store and return the body; on any failure store what was
        caught, keep the previous `data` and return `null`; in every case
        lower `loading`. */
    method Resume(outcome: Outcome) returns (result: Json)
      requires Valid()
      modifies this
      ensures Valid()
      ensures !loading
      ensures Settle(outcome).Resolved? ==>
                data == result == outcome.body && error == old(error)
      ensures Settle(outcome).Rejected? ==>
                result == JNull && data == old(data) && error == Some(Settle(outcome).caught)
    {
      match outcome {
        case NetworkFailure =>
          error := Some(NetworkError);
          result := JNull;
        case ParseFailure =>
          error := Some(SyntaxError);
          result := JNull;
        case Response(ok, body) =>
          if !ok {
            error := Some(ApiFailure(body));
            result := JNull;
          } else {
            data := body;
            result := body;
          }
      }
      loading := false;
    }

    /** `request(url, options)`: one call of the transport with the options
        built by Begin, then Resume on its outcome. After every exit
        `loading` is false; a success leaves no error and the body in
        `data`; a failure leaves `data` as it was. */
    method Request(url: string, options: RequestInit, token: Option<string>,
                   transport: (string, RequestInit) -> Outcome)
      returns (result: Json)
      requires Valid()
      modifies this
      ensures Valid() && !loading
      ensures var s := Settle(transport(url, Outgoing(options, token)));
        (s.Resolved? ==> data == result == s.value && error == None) &&
        (s.Rejected? ==> result == JNull && data == old(data) && error == Some(s.caught))
    {
      var init := Begin(options, token);
      var outcome := transport(url, init);
      result := Resume(outcome);
    }
  }
}
