/** Turning a thrown value into the message shown to the user
    (src/utils/ErrorHandler.ts). */
module ErrorHandler {
  import opened JsValues

  const DefaultServerMessage: string := "Terjadi kesalahan server"

  /** The kinds of value a `catch` clause can receive, as far as
      `parseApiError` tells them apart. A plain object (arrays included)
      carries the optional `ApiError` fields; an `Error` instance carries
      its `message` and may carry the same fields; everything that is not
      an object falls through to the default. `errCode` is part of the
      `ApiError` shape but `parseApiError` never reads it; only plain
      objects carry it here, since no Error the client throws has one. */
  datatype Thrown =
    | ApiObject(errCode: Option<string>, errMessage: Option<string>, errMessageEn: Option<string>)
    | ErrorInstance(message: string, errMessage: Option<string>, errMessageEn: Option<string>)
    | StringValue(s: string)
    | NumberValue(n: int)
    | BooleanValue(b: bool)
    | NullValue
    | UndefinedValue
    | OtherValue             // functions, symbols, big integers

  /** `error && typeof error === "object"`: non-null objects, Error
      instances among them. A string is not an object. */
  predicate IsObject(e: Thrown)
  {
    e.ApiObject? || e.ErrorInstance?
  }

  /** `parseApiError`: a truthy `err_message` first, then a truthy
      `err_message_en`, then the `message` of an Error (even when empty),
      and the fixed server message for anything else. The function is
      total. */
  function ParseApiError(e: Thrown): (msg: string)
    ensures IsObject(e) && Present(e.errMessage) ==> msg == e.errMessage.value
    ensures IsObject(e) && !Present(e.errMessage) && Present(e.errMessageEn) ==> msg == e.errMessageEn.value
    ensures e.ErrorInstance? && !Present(e.errMessage) && !Present(e.errMessageEn) ==> msg == e.message
    ensures !e.ErrorInstance? && !(IsObject(e) && (Present(e.errMessage) || Present(e.errMessageEn))) ==>
              msg == DefaultServerMessage
    // the message is empty only when it is an Error's own empty message
    ensures msg == "" <==>
              e.ErrorInstance? && e.message == "" && !Present(e.errMessage) && !Present(e.errMessageEn)
  {
    if IsObject(e) && Present(e.errMessage) then e.errMessage.value
    else if IsObject(e) && Present(e.errMessageEn) then e.errMessageEn.value
    else if e.ErrorInstance? then e.message
    else DefaultServerMessage
  }

  /** The message sources `parseApiError` consults, in priority order. */
  function Candidates(e: Thrown): (c: seq<Option<string>>)
    ensures IsObject(e) ==> |c| == 3 && c[0] == e.errMessage && c[1] == e.errMessageEn
    ensures e.ErrorInstance? ==> c[2] == Some(e.message)
    ensures e.ApiObject? ==> c[2] == None
    ensures !IsObject(e) ==> c == [None]
  {
    match e
    case ApiObject(_, m, en) => [m, en, None]
    case ErrorInstance(message, m, en) => [m, en, Some(message)]
    case _ => [None]
  }

  /** The first truthy entry of `c`, if any. */
  function FirstPresent(c: seq<Option<string>>): (r: Option<string>)
    ensures r.Some? ==> Present(r) && exists i :: 0 <= i < |c| && c[i] == r
    ensures r.None? <==> forall i :: 0 <= i < |c| ==> !Present(c[i])
  {
    if c == [] then None
    else if Present(c[0]) then c[0]
    else FirstPresent(c[1..])
  }

  /** FirstPresent picks the earliest truthy entry: every entry before the
      one it returns is falsy. */
  lemma {:induction false} FirstPresentIsFirst(c: seq<Option<string>>)
    ensures FirstPresent(c).Some? ==>
      exists i :: 0 <= i < |c| && c[i] == FirstPresent(c) && forall k :: 0 <= k < i ==> !Present(c[k])
  {
    if c != [] && !Present(c[0]) && FirstPresent(c).Some? {
      FirstPresentIsFirst(c[1..]);
      var i :| 0 <= i < |c[1..]| && c[1..][i] == FirstPresent(c[1..]) &&
               forall k :: 0 <= k < i ==> !Present(c[1..][k]);
      assert c[i + 1] == FirstPresent(c);
      forall k | 0 <= k < i + 1
        ensures !Present(c[k])
      {
        if k > 0 { assert c[k] == c[1..][k - 1]; }
      }
    }
  }

  /** `parseApiError` agrees with the priority-list reading of it: the
      first truthy candidate wins; when none is truthy, an Error's (empty)
      message is still returned and anything else gets the default. */
  lemma {:induction false} ParseApiErrorIsFirstPresent(e: Thrown)
    ensures FirstPresent(Candidates(e)).Some? ==> ParseApiError(e) == FirstPresent(Candidates(e)).value
    ensures FirstPresent(Candidates(e)).None? ==>
              ParseApiError(e) == (if e.ErrorInstance? then "" else DefaultServerMessage)
  {
    var c := Candidates(e);
    if IsObject(e) {
      assert FirstPresent(c) ==
        if Present(c[0]) then c[0] else if Present(c[1]) then c[1] else if Present(c[2]) then c[2] else None;
      assert c[1..][1..] == [c[2]];
      assert FirstPresent(c[1..][1..][1..]) == None;
    }
  }
}
