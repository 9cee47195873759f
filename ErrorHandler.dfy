/**
 * The front end's error normalisation (src/utils/errorHandler.ts): what an
 * error thrown by an Axios request is turned into, whether it is worth
 * retrying, and the retry loop with exponential backoff. Response bodies are
 * JSON values; a property that is not there is `None`, JavaScript's
 * `undefined`.
 */
module ErrorHandler {
  import opened Wrappers
  import opened Text
  import YouTubeService

  /** A parsed JSON body (whole numbers only). */
  datatype Json =
    | JNull
    | JBool(b: bool)
    | JNum(n: int)
    | JStr(s: string)
    | JArr(items: seq<Json>)
    | JObj(entries: seq<(string, Json)>)

  /** An HTTP answer: its status and its body, which may be missing. */
  datatype Response = Response(status: nat, data: Option<Json>)

  /**
   * What a request can throw: nothing at all (a falsy value), or an error
   * with an optional code (`ECONNABORTED`, `ERR_NETWORK`, ...) and, when the
   * server answered, its response.
   */
  datatype Thrown = Falsy | Raised(code: Option<string>, response: Option<Response>)

  /** The normalised error; a flag JavaScript leaves `undefined` is `false` here. */
  datatype ApiError = ApiError(
    status: Option<nat>,
    message: string,
    code: Option<ErrorCode>,
    details: Option<Json>,
    isNetwork: bool,
    isTimeout: bool,
    isServerError: bool,
    isClientError: bool)

  const UnknownMessage: string := "An unknown error occurred"
  const ECONNABORTED: string := "ECONNABORTED"
  const ERR_NETWORK: string := "ERR_NETWORK"
  const TimeoutMessage: string := "Request timeout. The server took too long to respond. Please try again."
  const NetworkMessage: string := "Network error. Please check your internet connection and try again."
  const ConnectionMessage: string := "Connection failed. Please check your internet and try again."
  const ServerMessage: string := "Server error. Our team has been notified. Please try again later."
  const SessionExpiredMessage: string := "Your session has expired. Please log in again."
  const ForbiddenMessage: string := "You do not have permission to perform this action."
  const NotFoundMessage: string := "Resource not found. It may have been deleted."
  const RateLimitedMessage: string := "Too many requests. Please wait a moment and try again."
  const BadRequestMessage: string := "Invalid request. Please check your input and try again."

  /** The codes `handleApiError` hands out, each spelled as its constructor's name. */
  datatype ErrorCode =
    | TIMEOUT | NETWORK_ERROR | CONNECTION_ERROR | SERVER_ERROR | UNAUTHORIZED | FORBIDDEN
    | NOT_FOUND | BAD_REQUEST | RATE_LIMITED | CLIENT_ERROR | UNKNOWN_ERROR

  /** JavaScript truthiness; `undefined` is falsy. */
  predicate Truthy(v: Option<Json>)
  {
    match v
    case None => false
    case Some(JNull) => false
    case Some(JBool(b)) => b
    case Some(JNum(n)) => n != 0
    case Some(JStr(s)) => s != []
    case Some(_) => true
  }

  /** `a || b`. */
  function Or(a: Option<Json>, b: Option<Json>): (r: Option<Json>)
    ensures Truthy(a) ==> r == a
    ensures !Truthy(a) ==> r == b
  {
    if Truthy(a) then a else b
  }

  /** The value of `key` in an object's entries, the first one when there are several. */
  function Lookup(entries: seq<(string, Json)>, key: string): (r: Option<Json>)
    ensures r.Some? <==> exists i :: 0 <= i < |entries| && entries[i].0 == key
    ensures r.Some? ==> exists i :: 0 <= i < |entries| && entries[i] == (key, r.value)
  {
    if entries == [] then None
    else if entries[0].0 == key then Some(entries[0].1)
    else
      var r := Lookup(entries[1..], key);
      assert forall i :: 0 < i < |entries| ==> entries[i] == entries[1..][i - 1];
      r
  }

  /** `v?.key`: only an object has the properties a body is asked for. */
  function Prop(v: Option<Json>, key: string): (r: Option<Json>)
    ensures r.Some? ==> v.Some? && v.value.JObj?
  {
    if v.Some? && v.value.JObj? then Lookup(v.value.entries, key) else None
  }

  /** `String(v)`, as a template string renders a value. */
  function JsString(v: Json): string
    decreases v, 1
  {
    match v
    case JNull => "null"
    case JBool(b) => if b then "true" else "false"
    case JNum(n) => IntToString(n)
    case JStr(s) => s
    case JArr(items) => ItemsString(items, v)
    case JObj(_) => "[object Object]"
  }

  /** `Array.prototype.join(",")` over `items`: a `null` item renders as the empty string. */
  function ItemsString(items: seq<Json>, whole: Json): string
    requires forall i :: 0 <= i < |items| ==> items[i] < whole
    decreases whole, 0, |items|
  {
    if items == [] then ""
    else
      var first := if items[0].JNull? then "" else JsString(items[0]);
      if |items| == 1 then first else first + "," + ItemsString(items[1..], whole)
  }

  /** The `field: message` texts of an object's entries, in order. */
  function EntryTexts(entries: seq<(string, Json)>): (r: seq<string>)
    ensures |r| == |entries|
    ensures forall i :: 0 <= i < |entries| ==> r[i] == entries[i].0 + ": " + JsString(entries[i].1)
  {
    seq(|entries|, i requires 0 <= i < |entries| => entries[i].0 + ": " + JsString(entries[i].1))
  }

  /** What a 400 reports: `errors`, else `detail`, else the body itself. */
  function ErrorMessages(data: Option<Json>): Option<Json>
  {
    Or(Prop(data, "errors"), Or(Prop(data, "detail"), data))
  }

  /**
   * The field errors as written: `typeof m === 'object'` holds for `null`
   * too, and `Object.entries(null)` throws, which is `None` here.
   */
  function FieldErrorsAsWritten(m: Option<Json>): (r: Option<string>)
    ensures r.None? <==> m == Some(JNull)
    ensures m != Some(JNull) ==> r == Some(FieldErrors(m))
  {
    match m
    case Some(JNull) => None
    case Some(JObj(entries)) => Some(Join(", ", EntryTexts(entries)))
    case _ => Some("")
  }

  /** The field errors as meant: the entries of an object, nothing for anything else. */
  function FieldErrors(m: Option<Json>): (r: string)
    ensures m.Some? && m.value.JObj? && m.value.entries != [] ==> r != []
    ensures !(m.Some? && m.value.JObj?) ==> r == ""
  {
    match m
    case Some(JObj(entries)) =>
      var texts := EntryTexts(entries);
      JoinEmptyIff(", ", texts);
      Join(", ", texts)
    case _ => ""
  }

  /**
   * A 400 whose body is JSON `null` makes the field-error extraction throw
   * a TypeError instead of giving the generic message; for every other body
   * the two agree.
   */
  lemma NullBodyThrows(m: Option<Json>)
    ensures ErrorMessages(Some(JNull)) == Some(JNull)
    ensures FieldErrorsAsWritten(ErrorMessages(Some(JNull))) == None
    ensures FieldErrors(ErrorMessages(Some(JNull))) == ""
    ensures m != Some(JNull) ==> FieldErrorsAsWritten(m) == Some(FieldErrors(m))
  {
  }

  function StatusError(status: nat, message: string, code: ErrorCode, details: Option<Json>): ApiError
  {
    ApiError(Some(status), message, Some(code), details, false, false, false, true)
  }

  /** A thrown error without a response: a timeout, a network error or a failed connection. */
  function NoResponseError(code: Option<string>): (r: ApiError)
    ensures r.status.None? && r.code.Some?
    ensures !r.isServerError && !r.isClientError
    ensures r.isTimeout <==> code == Some(ECONNABORTED)
    ensures r.isNetwork <==> code != Some(ECONNABORTED)
  {
    if code == Some(ECONNABORTED) then
      ApiError(None, TimeoutMessage,
        Some(TIMEOUT), None, false, true, false, false)
    else if code == Some(ERR_NETWORK) then
      ApiError(None, NetworkMessage,
        Some(NETWORK_ERROR), None, true, false, false, false)
    else
      ApiError(None, ConnectionMessage,
        Some(CONNECTION_ERROR), None, true, false, false, false)
  }

  /** A 400: its field errors, or the generic message. */
  function BadRequest(data: Option<Json>): (r: ApiError)
    ensures r.status == Some(400) && r.code == Some(BAD_REQUEST) && r.isClientError
    ensures !r.isServerError && !r.isNetwork && !r.isTimeout
  {
    var m := ErrorMessages(data);
    var fields := FieldErrors(m);
    StatusError(400, if fields != [] then fields else BadRequestMessage, BAD_REQUEST, m)
  }

  /** What `data?.detail` renders as, when truthy. */
  function DetailText(data: Option<Json>): Option<string>
  {
    var detail := Prop(data, "detail");
    if Truthy(detail) then Some(JsString(detail.value)) else None
  }

  /** A status below 500 other than 400, 401, 403, 404 and 429. */
  function OtherStatusError(status: nat, data: Option<Json>): (r: ApiError)
    requires status < 500
    ensures r.status == Some(status) && r.code.Some?
    ensures r.code == Some(CLIENT_ERROR) <==> status >= 400
    ensures r.code == Some(UNKNOWN_ERROR) <==> status < 400
    ensures r.isClientError <==> 400 <= status
    ensures !r.isServerError && !r.isNetwork && !r.isTimeout
  {
    var detail := DetailText(data);
    if status != 0 && 400 <= status then
      StatusError(status, if detail.Some? then detail.value else "Error (" + NatToString(status) + "): Invalid request",
        CLIENT_ERROR, data)
    else
      ApiError(Some(status), "Error (" + NatToString(status) + "): " + detail.GetOr("Unknown error occurred"),
        Some(UNKNOWN_ERROR), data, false, false, false, false)
  }

  /** A thrown error with a response, the statuses tried in the order `handleApiError` tries them. */
  function ResponseError(status: nat, data: Option<Json>): (r: ApiError)
    ensures r.status == Some(status) && r.code.Some?
    ensures !r.isNetwork && !r.isTimeout
    ensures r.isServerError <==> status >= 500
    ensures r.isClientError <==> 400 <= status < 500
    ensures status >= 500 ==> r.code == Some(SERVER_ERROR)
  {
    if status != 0 && status >= 500 then
      ApiError(Some(status), ServerMessage,
        Some(SERVER_ERROR), data, false, false, true, false)
    else if status == 401 then
      StatusError(status, SessionExpiredMessage, UNAUTHORIZED, None)
    else if status == 403 then
      StatusError(status, ForbiddenMessage, FORBIDDEN, None)
    else if status == 404 then
      StatusError(status, NotFoundMessage, NOT_FOUND, None)
    else if status == 400 then
      BadRequest(data)
    else if status == 429 then
      StatusError(status, RateLimitedMessage, RATE_LIMITED, None)
    else
      OtherStatusError(status, data)
  }

  /** `handleApiError`. */
  function HandleApiError(e: Thrown): (r: ApiError)
    ensures r.code.Some? <==> e.Raised?
    ensures e.Falsy? ==> r.message == UnknownMessage && r.status.None?
    ensures e.Raised? ==> (r.status.Some? <==> e.response.Some?)
    ensures e.Raised? && e.response.Some? ==> r.status == Some(e.response.value.status)
    ensures r.isTimeout <==> e.Raised? && e.response.None? && e.code == Some(ECONNABORTED)
    ensures r.isNetwork <==> e.Raised? && e.response.None? && e.code != Some(ECONNABORTED)
    ensures r.isServerError <==> r.status.Some? && r.status.value >= 500
    ensures r.isClientError <==> r.status.Some? && 400 <= r.status.value < 500
    ensures r.status.Some? && r.status.value >= 500 ==> r.code == Some(SERVER_ERROR)
  {
    match e
    case Falsy => ApiError(None, UnknownMessage, None, None, false, false, false, false)
    case Raised(code, None) => NoResponseError(code)
    case Raised(_, Some(Response(status, data))) => ResponseError(status, data)
  }

  /** The code a response status gets, the cases tried in the order `handleApiError` tries them. */
  lemma StatusCodes(code: Option<string>, status: nat, data: Option<Json>)
    ensures var r := HandleApiError(Raised(code, Some(Response(status, data))));
      && (r.code == Some(SERVER_ERROR) <==> status >= 500)
      && (r.code == Some(UNAUTHORIZED) <==> status == 401)
      && (r.code == Some(FORBIDDEN) <==> status == 403)
      && (r.code == Some(NOT_FOUND) <==> status == 404)
      && (r.code == Some(BAD_REQUEST) <==> status == 400)
      && (r.code == Some(RATE_LIMITED) <==> status == 429)
      && (r.code == Some(CLIENT_ERROR) <==> 400 <= status < 500 && status !in {400, 401, 403, 404, 429})
      && (r.code == Some(UNKNOWN_ERROR) <==> status < 400)
  {
  }

  /** Without a response the code says timeout, network error or failed connection. */
  lemma NoResponseCodes(code: Option<string>)
    ensures var r := HandleApiError(Raised(code, None));
      && (r.code == Some(TIMEOUT) <==> code == Some(ECONNABORTED))
      && (r.code == Some(NETWORK_ERROR) <==> code == Some(ERR_NETWORK))
      && (r.code == Some(CONNECTION_ERROR) <==> code != Some(ECONNABORTED) && code != Some(ERR_NETWORK))
  {
  }

  /**
   * A 400 lists its field errors, `field: message` joined by ", ", when what
   * it reports is a non-empty object, and falls back to the generic message
   * otherwise; the details are what it reports.
   */
  lemma BadRequestMessages(code: Option<string>, data: Option<Json>)
    ensures var r := HandleApiError(Raised(code, Some(Response(400, data))));
      var m := ErrorMessages(data);
      && r.details == m
      && (m.Some? && m.value.JObj? && m.value.entries != [] ==> r.message == Join(", ", EntryTexts(m.value.entries)))
      && (!(m.Some? && m.value.JObj? && m.value.entries != []) ==> r.message == BadRequestMessage)
  {
    var m := ErrorMessages(data);
    if m.Some? && m.value.JObj? && m.value.entries == [] {
      assert EntryTexts(m.value.entries) == [];
    }
  }

  /** An object body's `errors`, when truthy, wins over its `detail`, which wins over the body. */
  lemma ErrorMessagesPriority(entries: seq<(string, Json)>)
    ensures var data := Some(JObj(entries));
      && (Truthy(Prop(data, "errors")) ==> ErrorMessages(data) == Prop(data, "errors"))
      && (!Truthy(Prop(data, "errors")) && Truthy(Prop(data, "detail")) ==> ErrorMessages(data) == Prop(data, "detail"))
      && (!Truthy(Prop(data, "errors")) && !Truthy(Prop(data, "detail")) ==> ErrorMessages(data) == data)
  {
  }

  /** `isRecoverableError`. */
  predicate IsRecoverable(e: Thrown)
  {
    var a := HandleApiError(e);
    a.isTimeout || a.isNetwork || a.status == Some(429) || (a.status.Some? && a.status.value != 0 && a.status.value >= 500)
  }

  /**
   * The errors worth retrying in closed form: those without a response (a
   * timeout, a network error, any other failure to connect) and the
   * answers 429 and 5xx.
   */
  predicate Recoverable(e: Thrown)
  {
    e.Raised? && (e.response.None? || e.response.value.status == 429 || e.response.value.status >= 500)
  }

  /** `isRecoverableError` holds exactly for the errors `Recoverable` names. */
  lemma RecoverableIff(e: Thrown)
    ensures IsRecoverable(e) <==> Recoverable(e)
  {
  }

  /** What one call of `fn` does: resolve with a value or throw. */
  datatype Outcome<T> = Resolved(value: T) | Rejected(error: Thrown)

  /** What `retryWithBackoff` ends with: a value, or the error it rethrows (`undefined` when `fn` never ran). */
  datatype RetryResult<T> = Returned(value: T) | Rethrew(error: Option<Thrown>)

  /** The wait after the failed attempt `attempt`: `baseDelay * 2^(attempt - 1)`. */
  function Delay(baseDelay: int, attempt: nat): int
    requires attempt >= 1
  {
    baseDelay * YouTubeService.Pow2(attempt - 1)
  }

  /**
   * The loop from attempt `attempt` on: how it ends, how many calls of
   * `fn` there were in all, and the waits from this attempt on.
   */
  function RetryFrom<T>(answer: nat -> Outcome<T>, maxAttempts: int, baseDelay: int, attempt: nat): (RetryResult<T>, nat, seq<int>)
    requires 1 <= attempt <= maxAttempts
    decreases maxAttempts - attempt
  {
    match answer(attempt)
    case Resolved(v) => (Returned(v), attempt, [])
    case Rejected(e) =>
      if attempt < maxAttempts && Recoverable(e) then
        var rest := RetryFrom(answer, maxAttempts, baseDelay, attempt + 1);
        (rest.0, rest.1, [Delay(baseDelay, attempt)] + rest.2)
      else (Rethrew(Some(e)), attempt, [])
  }

  /**
   * `retryWithBackoff(fn, maxAttempts, baseDelay)`, where `answer(k)` is
   * what the `k`-th call of `fn` does; `isRecoverableError` is taken in the
   * closed form `RecoverableIff` proves equal to it.
   */
  function Retry<T>(answer: nat -> Outcome<T>, maxAttempts: int, baseDelay: int): (r: (RetryResult<T>, nat, seq<int>))
    ensures r.1 <= (if maxAttempts < 0 then 0 else maxAttempts)
    ensures r.1 == 0 <==> maxAttempts < 1
    ensures r.1 >= 1 ==> |r.2| == r.1 - 1 && (r.0.Returned? <==> answer(r.1).Resolved?)
  {
    if maxAttempts < 1 then (Rethrew(None), 0, [])
    else
      RetryFromShape(answer, maxAttempts, baseDelay, 1);
      RetryFrom(answer, maxAttempts, baseDelay, 1)
  }

  /** The loop from attempt `attempt` on, by induction on the attempts left. */
  lemma {:induction false} RetryFromShape<T>(answer: nat -> Outcome<T>, maxAttempts: int, baseDelay: int, attempt: nat)
    requires 1 <= attempt <= maxAttempts
    decreases maxAttempts - attempt
    ensures var (r, calls, delays) := RetryFrom(answer, maxAttempts, baseDelay, attempt);
      && attempt <= calls <= maxAttempts
      && |delays| == calls - attempt
      && (forall k :: 0 <= k < |delays| ==> delays[k] == Delay(baseDelay, attempt + k))
      && (forall a :: attempt <= a < calls ==> answer(a).Rejected? && Recoverable(answer(a).error))
      && (r.Returned? <==> answer(calls).Resolved?)
      && (r.Returned? ==> r.value == answer(calls).value)
      && (r.Rethrew? ==> r.error == Some(answer(calls).error))
      && (r.Rethrew? && calls < maxAttempts ==> !Recoverable(answer(calls).error))
  {
    match answer(attempt)
    case Resolved(_) =>
    case Rejected(e) =>
      if attempt < maxAttempts && Recoverable(e) {
        RetryFromShape(answer, maxAttempts, baseDelay, attempt + 1);
      }
  }

  /**
   * `retryWithBackoff` calls `fn` at most `maxAttempts` times (once at
   * least when `maxAttempts >= 1`); it waits `baseDelay * 2^(k-1)` after
   * the failed attempt `k` before each further call; every call but the
   * last failed with a recoverable error; it returns the last call's value,
   * or rethrows the last call's error, which was not recoverable unless the
   * attempts ran out.
   */
  lemma RetryShape<T>(answer: nat -> Outcome<T>, maxAttempts: int, baseDelay: int)
    ensures var (r, calls, delays) := Retry(answer, maxAttempts, baseDelay);
      && calls <= (if maxAttempts < 0 then 0 else maxAttempts)
      && (calls == 0 <==> maxAttempts < 1)
      && (calls == 0 ==> r == Rethrew(None) && delays == [])
      && (calls >= 1 ==> |delays| == calls - 1)
      && (forall k :: 0 <= k < |delays| ==> delays[k] == Delay(baseDelay, k + 1))
      && (forall a :: 1 <= a < calls ==> answer(a).Rejected? && Recoverable(answer(a).error))
      && (calls >= 1 ==> (r.Returned? <==> answer(calls).Resolved?))
      && (calls >= 1 && r.Returned? ==> r.value == answer(calls).value)
      && (calls >= 1 && r.Rethrew? ==> r.error == Some(answer(calls).error))
      && (r.Rethrew? && calls < maxAttempts ==> !Recoverable(answer(calls).error))
  {
    if maxAttempts >= 1 {
      RetryFromShape(answer, maxAttempts, baseDelay, 1);
    }
  }

  /** Attempts that fail recoverably are retried until `maxAttempts` calls have been made. */
  lemma {:induction false} RetryExhausts<T>(answer: nat -> Outcome<T>, maxAttempts: int, baseDelay: int, attempt: nat)
    requires 1 <= attempt <= maxAttempts
    requires forall a :: attempt <= a <= maxAttempts ==> answer(a).Rejected? && Recoverable(answer(a).error)
    decreases maxAttempts - attempt
    ensures RetryFrom(answer, maxAttempts, baseDelay, attempt).1 == maxAttempts
    ensures RetryFrom(answer, maxAttempts, baseDelay, attempt).0 == Rethrew(Some(answer(maxAttempts).error))
  {
    if attempt < maxAttempts {
      RetryExhausts(answer, maxAttempts, baseDelay, attempt + 1);
    }
  }

  /**
   * `retryWithBackoff`: the `for` loop over the attempts, returning the
   * first value `fn` resolves with, or throwing `lastError` after a
   * non-recoverable error or the last attempt. It reports the calls made
   * and the waits slept.
   */
  method RetryWithBackoff<T>(answer: nat -> Outcome<T>, maxAttempts: int, baseDelay: int)
    returns (r: RetryResult<T>, calls: nat, delays: seq<int>)
    ensures (r, calls, delays) == Retry(answer, maxAttempts, baseDelay)
  {
    var lastError: Option<Thrown> := None;
    delays := [];
    var attempt: nat := 1;
    while attempt <= maxAttempts
      invariant 1 <= attempt && (attempt <= maxAttempts || attempt == 1)
      invariant attempt <= maxAttempts ==>
        var whole := Retry(answer, maxAttempts, baseDelay);
        var rest := RetryFrom(answer, maxAttempts, baseDelay, attempt);
        whole.0 == rest.0 && whole.1 == rest.1 && whole.2 == delays + rest.2
      invariant attempt == 1 ==> delays == [] && lastError.None?
      decreases maxAttempts - attempt
    {
      match answer(attempt)
      case Resolved(v) =>
        assert delays + [] == delays;
        return Returned(v), attempt, delays;
      case Rejected(e) =>
        lastError := Some(e);
        if attempt < maxAttempts && Recoverable(e) {
          delays := delays + [Delay(baseDelay, attempt)];
        } else {
          assert delays + [] == delays;
          return Rethrew(lastError), attempt, delays;
        }
      attempt := attempt + 1;
    }
    r, calls := Rethrew(lastError), 0;
  }
}
