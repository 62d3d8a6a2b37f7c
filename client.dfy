/**
 * `AlApiClient`: the open/closed state of `start` and `close`, and the
 * decisions `_call` takes around the network: the URL, the retry loop, the
 * status and decoding checks, and the mapping of error codes to exceptions.
 * The network itself is a parameter `post(url, payload, attempt)` that says
 * how each attempt ends; waits are recorded instead of slept.
 */
module Client {
  import opened Wrappers
  import opened Wire
  import opened Api
  import opened Codec
  import opened Requests
  import opened Errors

  const BASE_URL := "https://autolook.al"
  const MAX_RETRIES: nat := 3

  // ------------------------------------------------------------------ URL

  /** `s.lstrip(c)`: the longest suffix of `s` that does not start with `c`. */
  function LStrip(s: string, c: char): (r: string)
    ensures |r| <= |s| && r == s[|s| - |r|..]
    ensures forall i :: 0 <= i < |s| - |r| ==> s[i] == c
    ensures r == [] || r[0] != c
    decreases |s|
  {
    if s != [] && s[0] == c then
      var r := LStrip(s[1..], c);
      assert s[1..][|s| - 1 - |r|..] == s[|s| - |r|..];
      assert forall i :: 1 <= i < |s| - |r| ==> s[i] == s[1..][i - 1];
      r
    else s
  }

  /** `f"{self.base_url}/api/{endpoint}"` after `endpoint.lstrip("/")`. */
  function RequestUrl(base: string, endpoint: string): string {
    base + "/api/" + LStrip(endpoint, '/')
  }

  /** Leading slashes do not change the URL, and an endpoint without one is appended as it is. */
  lemma RequestUrlSlashes(base: string, endpoint: string)
    ensures RequestUrl(base, "/" + endpoint) == RequestUrl(base, endpoint)
    ensures endpoint == [] || endpoint[0] != '/' ==> RequestUrl(base, endpoint) == base + "/api/" + endpoint
  {
    assert ("/" + endpoint)[1..] == endpoint;
  }

  // ------------------------------------------------------- E03 message text

  predicate OccursAt(s: string, pat: string, i: nat) {
    i + |pat| <= |s| && s[i..i + |pat|] == pat
  }

  /** The first position at or after `from` where `pat` occurs in `s`. */
  function FindFrom(s: string, pat: string, from: nat): (r: Option<nat>)
    ensures r.Some? ==> from <= r.value && OccursAt(s, pat, r.value)
    ensures r.Some? ==> forall j :: from <= j < r.value ==> !OccursAt(s, pat, j)
    ensures r.None? ==> forall j :: from <= j ==> !OccursAt(s, pat, j)
    decreases |s| - from
  {
    if from + |pat| > |s| then None
    else if OccursAt(s, pat, from) then Some(from)
    else FindFrom(s, pat, from + 1)
  }

  const RETRY_IN := "retry in: "

  /**
   * `message.split("retry in: ", 1)[1].split("s", 1)[0]`: the text after the
   * first "retry in: " up to the next "s". Without "retry in: " the split has
   * one part and indexing it fails (None here).
   */
  function CooldownText(message: string): (r: Option<string>)
    ensures r.None? <==> forall j :: !OccursAt(message, RETRY_IN, j)
    ensures r.Some? ==>
      var i := FindFrom(message, RETRY_IN, 0).value;
      && (forall j :: 0 <= j < i ==> !OccursAt(message, RETRY_IN, j))
      && i + |RETRY_IN| + |r.value| <= |message|
      && message[i + |RETRY_IN|..i + |RETRY_IN| + |r.value|] == r.value
      && (forall k :: 0 <= k < |r.value| ==> r.value[k] != 's')
      && (i + |RETRY_IN| + |r.value| == |message| || message[i + |RETRY_IN| + |r.value|] == 's')
  {
    match FindFrom(message, RETRY_IN, 0)
    case None => None
    case Some(i) =>
      var rest := message[i + |RETRY_IN|..];
      match FindFrom(rest, "s", 0)
      case None =>
        assert forall k :: 0 <= k < |rest| ==> rest[k] != 's' by {
          forall k | 0 <= k < |rest| ensures rest[k] != 's' {
            assert !OccursAt(rest, "s", k);
            assert rest[k..k + 1] == [rest[k]];
          }
        }
        Some(rest)
      case Some(j) =>
        assert forall k :: 0 <= k < j ==> rest[k] != 's' by {
          forall k | 0 <= k < j ensures rest[k] != 's' {
            assert !OccursAt(rest, "s", k);
            assert rest[k..k + 1] == [rest[k]];
          }
        }
        assert rest[j..j + 1] == "s";
        Some(rest[..j])
  }

  /** "retry in: " cannot start inside a text without ':' that precedes it. */
  lemma NoEarlyRetryIn(pre: string, j: nat)
    requires ':' !in pre && j < |pre|
    ensures !OccursAt(pre + RETRY_IN, RETRY_IN, j)
  {
    var m := pre + RETRY_IN;
    assert m[j + 8] != ':' by {
      if j + 8 < |pre| {
        assert m[j + 8] == pre[j + 8];
      } else {
        assert m[j + 8] == RETRY_IN[j + 8 - |pre|];
      }
    }
    assert m[j..j + |RETRY_IN|][8] == m[j + 8];
  }

  /**
   * A message with a first "retry in: " after `pre` gives the text between
   * "retry in: " and the next "s".
   */
  lemma CooldownTextOf(pre: string, num: string, post: string)
    requires forall j :: 0 <= j < |pre| ==> !OccursAt(pre + RETRY_IN, RETRY_IN, j)
    requires 's' !in num
    ensures CooldownText(pre + RETRY_IN + num + "s" + post) == Some(num)
  {
    var rest := num + "s" + post;
    var m := pre + RETRY_IN + num + "s" + post;
    assert m == pre + RETRY_IN + rest;
    var n := |pre| + |RETRY_IN|;
    assert m[..n] == pre + RETRY_IN;
    assert m[|pre|..n] == RETRY_IN;
    assert OccursAt(m, RETRY_IN, |pre|);
    forall j | 0 <= j < |pre| ensures !OccursAt(m, RETRY_IN, j) {
      assert !OccursAt(pre + RETRY_IN, RETRY_IN, j);
      assert j + |RETRY_IN| <= n;
      assert m[j..j + |RETRY_IN|] == m[..n][j..j + |RETRY_IN|];
    }
    assert FindFrom(m, RETRY_IN, 0) == Some(|pre|);
    assert m[n..] == rest;
    forall k | 0 <= k < |num| ensures !OccursAt(rest, "s", k) {
      assert rest[k..k + 1] == [num[k]];
    }
    assert rest[|num|..|num| + 1] == "s";
    assert OccursAt(rest, "s", |num|);
    assert FindFrom(rest, "s", 0) == Some(|num|);
    assert rest[..|num|] == num;
  }

  /** The earlier form: a text without ':' before "retry in: " meets CooldownTextOf's condition. */
  lemma CooldownTextNoColon(pre: string, num: string, post: string)
    requires ':' !in pre && 's' !in num
    ensures CooldownText(pre + RETRY_IN + num + "s" + post) == Some(num)
  {
    forall j | 0 <= j < |pre| ensures !OccursAt(pre + RETRY_IN, RETRY_IN, j) {
      NoEarlyRetryIn(pre, j);
    }
    CooldownTextOf(pre, num, post);
  }

  /** An error code before the phrase is allowed: "E03: retry in: 5s" gives "5". */
  lemma CooldownTextWithCode()
    ensures CooldownText("E03: retry in: 5s") == Some("5")
  {
    var pre := "E03: ";
    forall j | 0 <= j < |pre| ensures !OccursAt(pre + RETRY_IN, RETRY_IN, j) {
      assert (pre + RETRY_IN)[j] != 'r';
      assert (pre + RETRY_IN)[j..j + |RETRY_IN|][0] == (pre + RETRY_IN)[j];
    }
    assert pre + RETRY_IN + "5" + "s" + "" == "E03: retry in: 5s";
    CooldownTextOf(pre, "5", "");
  }

  /** A message without "retry in: " yields no cooldown text. */
  lemma CooldownTextMissing(message: string)
    requires ':' !in message
    ensures CooldownText(message) == None
  {
    forall j: nat | j + |RETRY_IN| <= |message| ensures !OccursAt(message, RETRY_IN, j) {
      assert message[j..j + |RETRY_IN|][8] == message[j + 8];
      assert message[j + 8] in message;
    }
  }

  // ------------------------------------------------------ one exchange

  /** What reading the body as JSON gives: a value, aiohttp's ContentTypeError, or a JSON syntax error. */
  datatype Body = Json(v: Value) | NotJson | MalformedJson

  /** How one `session.post` ends. The causes are the library exceptions' `str()`. */
  datatype Exchange =
    | ConnectionFailed(cause: string)
    | ClientFailed(cause: string)
    | Responded(status: int, text: string, body: Body)

  /** What a call ends in: a value, one of this library's exceptions, another exception, or `None` from running off the loop. */
  datatype Outcome<T> = Returned(value: T) | Raised(error: ErrorKind) | Escaped(exc: Exc) | FellThrough

  /** `getattr(record, name)`: the first field with that name. */
  function Attr(fields: seq<(string, FVal)>, name: string): Option<FVal>
    decreases |fields|
  {
    if fields == [] then None
    else if fields[0].0 == name then Some(fields[0].1)
    else Attr(fields[1..], name)
  }

  lemma {:induction false} AttrAt(fields: seq<(string, FVal)>, name: string, i: nat)
    requires i < |fields| && fields[i].0 == name
    requires forall j :: 0 <= j < i ==> fields[j].0 != name
    ensures Attr(fields, name) == Some(fields[i].1)
    decreases i
  {
    if i > 0 {
      assert fields[1..][i - 1] == fields[i];
      AttrAt(fields[1..], name, i - 1);
    }
  }

  /** Python truthiness of a field value: records and enumeration members are truthy, a list of records when non-empty. */
  predicate FieldTruthy(f: FVal) {
    match f
    case Raw(v) => Truthy(v)
    case Subs(rs) => |rs| > 0
    case _ => true
  }

  /** A field of an error response as a plain value; decoding only ever puts plain values there. */
  function Shown(f: FVal): Value {
    if f.Raw? then f.v else FieldToWire(f)
  }

  /** The `"E03"` branch: parse the cooldown out of the message. */
  function CooldownOutcome(message: Option<FVal>, parseFloat: string -> Option<Float>): Outcome<Record> {
    if message.Some? && message.value.Raw? && message.value.v.Str? then
      match CooldownText(message.value.v.s)
      case None => Escaped(IndexError)
      case Some(txt) =>
        match parseFloat(txt)
        case None => Escaped(ValueError)
        case Some(f) => Raised(OnCooldown(f))
    else Escaped(AttributeError) // `.split` on None or on a non-string
  }

  /** `match res.code`, for a response whose `ok` is falsy. */
  function Dispatch(r: Record, endpoint: string, token: string, parseFloat: string -> Option<Float>): Outcome<Record> {
    match Attr(r.fields, "code")
    case None => Escaped(AttributeError)
    case Some(code) =>
      if code == Raw(Str("E01")) then Raised(InvalidRoute(endpoint))
      else if code == Raw(Str("E02")) then Raised(Unauthorized(token))
      else if code == Raw(Str("E03")) then CooldownOutcome(Attr(r.fields, "message"), parseFloat)
      else if code == Raw(Str("E04")) then Escaped(UnboundLocalError) // reads `retry_time`, never assigned on this path
      else
        match Attr(r.fields, "message")
        case None => Escaped(AttributeError)
        case Some(msg) => Raised(Api(Shown(code), Shown(msg)))
  }

  /** One answered attempt, from the status check to the return or the raise. */
  function HandleResponse(decls: Decls, endpoint: string, token: string, t: RecType, status: int, text: string, body: Body,
                          parseFloat: string -> Option<Float>): (o: Outcome<Record>)
    requires IsResponse(t)
    ensures 500 <= status < 600 ==> o == Raised(InternalApi("Status is " + IntToString(status) + ", err: " + text))
    ensures !o.FellThrough?
    ensures o.Returned? ==> body.Json? && DecodeResponse(decls, t, body.v) in {Nominal(o.value), Substituted(o.value)}
    ensures o.Returned? ==> Attr(o.value.fields, "ok").Some? && FieldTruthy(Attr(o.value.fields, "ok").value)
  {
    if 500 <= status < 600 then Raised(InternalApi("Status is " + IntToString(status) + ", err: " + text))
    else match body
      case NotJson =>
        Raised(InternalApi("Response is not valid json, status: " + IntToString(status) + ", text: " + text))
      case MalformedJson => Escaped(ValueError)
      case Json(v) => HandleDecoded(DecodeResponse(decls, t, v), endpoint, token, status, text, parseFloat)
  }

  /**
   * After `from_dict`: a TypeError is reported as `InternalApiError`, any
   * other exception escapes, a record with a truthy `ok` is returned, and
   * any other record goes to the code dispatch.
   */
  function HandleDecoded(d: Decoded, endpoint: string, token: string, status: int, text: string,
                         parseFloat: string -> Option<Float>): (o: Outcome<Record>)
    ensures o.Returned? ==> d in {Nominal(o.value), Substituted(o.value)}
    ensures !o.FellThrough?
    ensures o.Returned? ==> Attr(o.value.fields, "ok").Some? && FieldTruthy(Attr(o.value.fields, "ok").value)
  {
    if d.Failed? then
      if d.exc == TypeError then
        Raised(InternalApi("Response is not expected schema, status: " + IntToString(status) + ", text: " + text))
      else Escaped(d.exc)
    else
      var r := if d.Nominal? then d.r else d.err;
      match Attr(r.fields, "ok")
      case None => Escaped(AttributeError)
      case Some(ok) => if FieldTruthy(ok) then Returned(r) else Dispatch(r, endpoint, token, parseFloat)
  }

  // ------------------------------------------------------------ retries

  function Pow2(n: nat): (p: nat)
    ensures p >= 1
  {
    if n == 0 then 1 else 2 * Pow2(n - 1)
  }

  /** The outcome of a call, the waits taken between attempts, and the number of requests sent. */
  datatype Trace = Trace(out: Outcome<Record>, waits: seq<nat>, sent: nat)

  /** What the loop does with an answer: status, text and body to the outcome of the call. */
  type Handle = (int, string, Body) -> Outcome<Record>

  /** `_call`'s treatment of an answer from `endpoint`, expecting a `t`. */
  function Handler(decls: Decls, endpoint: string, token: string, t: RecType, parseFloat: string -> Option<Float>): (h: Handle)
    requires IsResponse(t)
    ensures forall status, text, body :: h(status, text, body) == HandleResponse(decls, endpoint, token, t, status, text, body, parseFloat)
  {
    (status: int, text: string, body: Body) => HandleResponse(decls, endpoint, token, t, status, text, body, parseFloat)
  }

  /**
   * The attempts from `i` on: a connection error raises at once, a generic
   * client error waits `2**i` and retries unless this was the last attempt,
   * an answer is handled and ends the loop.
   */
  function Attempts(url: string, payload: Value, post: (string, Value, nat) -> Exchange, handle: Handle,
                    maxRetries: nat, i: nat): (tr: Trace)
    ensures tr.sent == 0 || i + tr.sent <= maxRetries
    ensures i >= maxRetries ==> tr == Trace(FellThrough, [], 0)
    ensures i < maxRetries ==> tr.sent >= 1
    ensures |tr.waits| == if tr.sent == 0 then 0 else tr.sent - 1
    ensures forall j :: 0 <= j < |tr.waits| ==> tr.waits[j] == Pow2(i + j)
    decreases maxRetries - i
  {
    if i >= maxRetries then Trace(FellThrough, [], 0)
    else match post(url, payload, i)
      case ConnectionFailed(c) => Trace(Raised(ApiConnection(url, c)), [], 1)
      case ClientFailed(c) =>
        if i < maxRetries - 1 then
          var rest := Attempts(url, payload, post, handle, maxRetries, i + 1);
          Trace(rest.out, [Pow2(i)] + rest.waits, rest.sent + 1)
        else Trace(Raised(RetriesExceeded(i, c)), [], 1)
      case Responded(status, text, body) => Trace(handle(status, text, body), [], 1)
  }

  /** What attempt `i` does, by what `post` gives back. */
  lemma AttemptStep(url: string, payload: Value, post: (string, Value, nat) -> Exchange, handle: Handle,
                    maxRetries: nat, i: nat)
    requires i < maxRetries
    ensures var tr := Attempts(url, payload, post, handle, maxRetries, i);
      var ex := post(url, payload, i);
      && (ex.ConnectionFailed? ==> tr == Trace(Raised(ApiConnection(url, ex.cause)), [], 1))
      && (ex.ClientFailed? && i == maxRetries - 1 ==> tr == Trace(Raised(RetriesExceeded(i, ex.cause)), [], 1))
      && (ex.ClientFailed? && i < maxRetries - 1 ==>
            var next := Attempts(url, payload, post, handle, maxRetries, i + 1);
            tr == Trace(next.out, [Pow2(i)] + next.waits, next.sent + 1))
      && (ex.Responded? ==>
            tr == Trace(handle(ex.status, ex.text, ex.body), [], 1))
  {
  }

  /**
   * When every attempt fails with a generic client error, the call sends
   * `maxRetries` requests, waits 1, 2, 4, ... seconds between them and raises
   * `RetriesExceededError` with the last attempt's index and error.
   */
  lemma {:induction false} AllAttemptsFail(url: string, payload: Value, post: (string, Value, nat) -> Exchange,
                                           handle: Handle, maxRetries: nat, i: nat)
    requires i < maxRetries
    requires forall a :: i <= a < maxRetries ==> post(url, payload, a).ClientFailed?
    ensures var tr := Attempts(url, payload, post, handle, maxRetries, i);
      && tr.out == Raised(RetriesExceeded(maxRetries - 1, post(url, payload, maxRetries - 1).cause))
      && tr.sent == maxRetries - i
    decreases maxRetries - i
  {
    if i < maxRetries - 1 {
      AllAttemptsFail(url, payload, post, handle, maxRetries, i + 1);
    }
  }

  /** With the client's three attempts: requests at attempts 0, 1 and 2, waits of 1 and 2 seconds, then `RetriesExceededError(2, e)`. */
  lemma ThreeAttempts(url: string, payload: Value, post: (string, Value, nat) -> Exchange, handle: Handle)
    requires forall a :: 0 <= a < MAX_RETRIES ==> post(url, payload, a).ClientFailed?
    ensures Attempts(url, payload, post, handle, MAX_RETRIES, 0) ==
      Trace(Raised(RetriesExceeded(2, post(url, payload, 2).cause)), [1, 2], 3)
  {
    AllAttemptsFail(url, payload, post, handle, MAX_RETRIES, 0);
    var tr := Attempts(url, payload, post, handle, MAX_RETRIES, 0);
    assert tr.waits[0] == Pow2(0) && tr.waits[1] == Pow2(1);
  }

  /** A connection error is never retried: one request, no wait, `ApiConnectionError` with the URL. */
  lemma ConnectionErrorNotRetried(url: string, payload: Value, post: (string, Value, nat) -> Exchange, handle: Handle,
                                  maxRetries: nat, i: nat)
    requires i < maxRetries && post(url, payload, i).ConnectionFailed?
    ensures Attempts(url, payload, post, handle, maxRetries, i) ==
      Trace(Raised(ApiConnection(url, post(url, payload, i).cause)), [], 1)
  {
  }

  /** The `for attempt in range(max_retries)` loop of `_call`. */
  method RetryLoop(url: string, payload: Value, post: (string, Value, nat) -> Exchange, handle: Handle, maxRetries: nat)
    returns (tr: Trace)
    ensures tr == Attempts(url, payload, post, handle, maxRetries, 0)
  {
    ghost var whole := Attempts(url, payload, post, handle, maxRetries, 0);
    var waits: seq<nat> := [];
    for attempt := 0 to maxRetries
      invariant var rest := Attempts(url, payload, post, handle, maxRetries, attempt);
        whole == Trace(rest.out, waits + rest.waits, attempt + rest.sent)
    {
      ghost var rest := Attempts(url, payload, post, handle, maxRetries, attempt);
      AttemptStep(url, payload, post, handle, maxRetries, attempt);
      var ex := post(url, payload, attempt);
      match ex {
        case ConnectionFailed(c) =>
          assert waits + [] == waits;
          return Trace(Raised(ApiConnection(url, c)), waits, attempt + 1);
        case ClientFailed(c) =>
          if attempt < maxRetries - 1 {
            ghost var next := Attempts(url, payload, post, handle, maxRetries, attempt + 1);
            AppendAssoc(waits, [Pow2(attempt)], next.waits);
            waits := waits + [Pow2(attempt)];
          } else {
            assert waits + [] == waits;
            return Trace(Raised(RetriesExceeded(attempt, c)), waits, attempt + 1);
          }
        case Responded(status, text, body) =>
          assert waits + [] == waits;
          return Trace(handle(status, text, body), waits, attempt + 1);
      }
    }
    assert waits + [] == waits;
    tr := Trace(FellThrough, waits, maxRetries);
  }

  // -------------------------------------------- what an answer leads to

  /**
   * A server that answers with the serialisation of a decodable response
   * whose `ok` is truthy gets that very record returned from the call.
   */
  lemma DecodedResponseReturned(decls: Decls, endpoint: string, token: string, r: Record, status: int, text: string,
                                parseFloat: string -> Option<Float>)
    requires ValidDecls(decls) && IsResponse(r.ty) && Decodable(decls, r) && Truthy(r.fields[0].1.v)
    requires !(500 <= status < 600)
    ensures HandleResponse(decls, endpoint, token, r.ty, status, text, Json(ToDict(r)), parseFloat) == Returned(r)
  {
    assert WellFormedDecl(r.ty, decls(r.ty));
    ResponseRoundTrip(decls, r);
    AttrAt(r.fields, "ok", 0);
  }

  /**
   * An error response reaches the code dispatch whatever type was expected:
   * `"E01"` raises `InvalidRouteApiError` with the stripped endpoint, `"E02"`
   * `UnauthorizedApiError` with the client's token, `"E04"` fails on the
   * unassigned `retry_time`, and any code outside E01 to E04 raises `ApiError`
   * with the response's code and message.
   */
  lemma ErrorCodeDispatch(decls: Decls, endpoint: string, token: string, t: RecType, e: Record, status: int, text: string,
                          parseFloat: string -> Option<Float>)
    requires ValidDecls(decls) && decls(ApiRespError) == Fields(ApiRespError)
    requires IsResponse(t) && e.ty == ApiRespError && Decodable(decls, e) && !Truthy(e.fields[0].1.v)
    requires !(500 <= status < 600)
    ensures var o := HandleResponse(decls, endpoint, token, t, status, text, Json(ToDict(e)), parseFloat);
      var code := e.fields[1].1.v;
      && (code == Str("E01") ==> o == Raised(InvalidRoute(endpoint)))
      && (code == Str("E02") ==> o == Raised(Unauthorized(token)))
      && (code == Str("E03") ==> o == CooldownOutcome(Some(e.fields[2].1), parseFloat))
      && (code == Str("E04") ==> o == Escaped(UnboundLocalError))
      && (code !in {Str("E01"), Str("E02"), Str("E03"), Str("E04")} ==> o == Raised(Api(code, e.fields[2].1.v)))
  {
    ErrorReachesDispatch(decls, endpoint, token, t, e, status, text, parseFloat);
    DispatchCodes(e, endpoint, token, parseFloat);
  }

  /** An error response is handed to the code dispatch. */
  lemma ErrorReachesDispatch(decls: Decls, endpoint: string, token: string, t: RecType, e: Record, status: int, text: string,
                             parseFloat: string -> Option<Float>)
    requires ValidDecls(decls) && decls(ApiRespError) == Fields(ApiRespError)
    requires IsResponse(t) && e.ty == ApiRespError && Decodable(decls, e) && !Truthy(e.fields[0].1.v)
    requires !(500 <= status < 600)
    ensures |e.fields| == 3
    ensures HandleResponse(decls, endpoint, token, t, status, text, Json(ToDict(e)), parseFloat) ==
      Dispatch(e, endpoint, token, parseFloat)
  {
    ErrorDecoded(decls, t, e);
    AttrAt(e.fields, "ok", 0);
  }

  /** The code dispatch on a record whose fields are those of `ApiRespError`. */
  lemma DispatchCodes(e: Record, endpoint: string, token: string, parseFloat: string -> Option<Float>)
    requires |e.fields| == 3 && e.fields[0].0 == "ok" && e.fields[1].0 == "code" && e.fields[2].0 == "message"
    requires e.fields[1].1.Raw? && e.fields[2].1.Raw?
    ensures var o := Dispatch(e, endpoint, token, parseFloat);
      var code := e.fields[1].1.v;
      && (code == Str("E01") ==> o == Raised(InvalidRoute(endpoint)))
      && (code == Str("E02") ==> o == Raised(Unauthorized(token)))
      && (code == Str("E03") ==> o == CooldownOutcome(Some(e.fields[2].1), parseFloat))
      && (code == Str("E04") ==> o == Escaped(UnboundLocalError))
      && (code !in {Str("E01"), Str("E02"), Str("E03"), Str("E04")} ==> o == Raised(Api(code, e.fields[2].1.v)))
  {
    AttrAt(e.fields, "code", 1);
    AttrAt(e.fields, "message", 2);
  }

  /** An error response decodes to itself, in place of whatever type was expected. */
  lemma ErrorDecoded(decls: Decls, t: RecType, e: Record)
    requires ValidDecls(decls) && decls(ApiRespError) == Fields(ApiRespError)
    requires IsResponse(t) && e.ty == ApiRespError && Decodable(decls, e) && !Truthy(e.fields[0].1.v)
    ensures DecodeResponse(decls, t, ToDict(e)) == if t == ApiRespError then Nominal(e) else Substituted(e)
    ensures e.fields[0].0 == "ok" && e.fields[1].0 == "code" && e.fields[2].0 == "message"
  {
    assert WellFormedDecl(ApiRespError, decls(ApiRespError));
    if t == ApiRespError {
      ResponseRoundTrip(decls, e);
    } else {
      ErrorSubstituted(decls, e, t);
    }
  }

  /** A body that does not fit the expected schema (a TypeError while decoding) is reported as `InternalApiError`. */
  lemma SchemaMismatchIsInternal(decls: Decls, endpoint: string, token: string, t: RecType, status: int, text: string, v: Value,
                                 parseFloat: string -> Option<Float>)
    requires IsResponse(t) && !(500 <= status < 600)
    requires DecodeResponse(decls, t, v) == Failed(TypeError)
    ensures HandleResponse(decls, endpoint, token, t, status, text, Json(v), parseFloat) ==
      Raised(InternalApi("Response is not expected schema, status: " + IntToString(status) + ", text: " + text))
  {
  }

  lemma AppendAssoc(a: seq<nat>, b: seq<nat>, c: seq<nat>)
    ensures a + (b + c) == (a + b) + c
  {
  }

  // ------------------------------------------------------------ the client

  /** The client object: its constants and the two flags `start` and `close` update. */
  class AlApiClient {
    const baseUrl: string
    const alacctoken: string
    const maxRetries: nat
    /** The record declarations responses are decoded with: those of alapi.py. */
    const schema: Decls
    var closed: bool
    var hasSession: bool

    /** An open client always has a session: `start` creates one before opening, `close` keeps it. */
    predicate Valid()
      reads this
    {
      !closed ==> hasSession
    }

    constructor(token: string)
      ensures baseUrl == BASE_URL && alacctoken == token && maxRetries == MAX_RETRIES && schema == Fields
      ensures closed && !hasSession && Valid()
    {
      baseUrl := BASE_URL;
      alacctoken := token;
      maxRetries := MAX_RETRIES;
      schema := Fields;
      closed := true;
      hasSession := false;
    }

    /** `start`: nothing when open; otherwise a new session and the client open. */
    method Start()
      modifies this
      ensures !old(closed) ==> closed == old(closed) && hasSession == old(hasSession)
      ensures old(closed) ==> !closed && hasSession
      ensures old(Valid()) ==> Valid() && !closed
    {
      if !closed {
        return;
      }
      hasSession := true;
      closed := false;
    }

    /** `close`: nothing when closed; otherwise the client closed, its session object kept. */
    method Close()
      modifies this
      ensures closed && hasSession == old(hasSession)
      ensures Valid()
    {
      if closed {
        return;
      }
      closed := true;
    }

    /** `_call`: the closed and session checks, then the retry loop over `post`. */
    method CallRaw(endpoint: string, payload: Value, t: RecType,
                   post: (string, Value, nat) -> Exchange, parseFloat: string -> Option<Float>) returns (tr: Trace)
      requires IsResponse(t)
      ensures closed ==> tr == Trace(Raised(ClosedClient), [], 0)
      ensures !closed && !hasSession ==> tr == Trace(Escaped(RuntimeError), [], 0)
      ensures Valid() ==> tr != Trace(Escaped(RuntimeError), [], 0)
      ensures !closed && hasSession ==>
        tr == Attempts(RequestUrl(baseUrl, endpoint), payload, post, Handler(schema, LStrip(endpoint, '/'), alacctoken, t, parseFloat),
                       maxRetries, 0)
    {
      if closed {
        return Trace(Raised(ClosedClient), [], 0);
      }
      if !hasSession {
        return Trace(Escaped(RuntimeError), [], 0);
      }
      var ep := LStrip(endpoint, '/');
      var url := baseUrl + "/api/" + ep;
      var handle := Handler(schema, ep, alacctoken, t, parseFloat);
      tr := RetryLoop(url, payload, post, handle, maxRetries);
    }

    /** `call`: put the client's token into the request, serialise it, and send it to the endpoint. */
    method Call(endpoint: Endpoint, req: Request,
                post: (string, Value, nat) -> Exchange, parseFloat: string -> Option<Float>) returns (tr: Trace)
      requires IsResponse(endpoint.responseType)
      modifies req
      ensures req.Current() == WithToken(old(req.Current()), alacctoken)
      ensures closed ==> tr == Trace(Raised(ClosedClient), [], 0)
      ensures !closed && hasSession ==>
        tr == Attempts(RequestUrl(baseUrl, endpoint.path), ToDict(req.Current()), post,
                       Handler(schema, LStrip(endpoint.path, '/'), alacctoken, endpoint.responseType, parseFloat), maxRetries, 0)
    {
      req.SetAlacctokenOpt(alacctoken);
      var payload := ToDict(req.Current());
      tr := CallRaw(endpoint.path, payload, endpoint.responseType, post, parseFloat);
    }

    /** `get_emails(limit, email_offset)`: the `email` of every decoded `BoughtEmail`, in order. */
    method GetEmails(limit: int, emailOffset: Option<string>,
                     post: (string, Value, nat) -> Exchange, parseFloat: string -> Option<Float>)
      returns (out: Outcome<seq<FVal>>, tr: Trace)
      ensures out == EmailsOf(tr.out, "emails")
      ensures closed ==> out == Raised(ClosedClient)
      ensures !closed && hasSession ==>
        tr == Attempts(RequestUrl(baseUrl, GET_EMAILS.path), ToDict(WithToken(GetEmailsRequest(limit, emailOffset), alacctoken)), post,
                       Handler(schema, GET_EMAILS.path, alacctoken, GetEmailsO, parseFloat), maxRetries, 0)
    {
      var req := new Request(GetEmailsRequest(limit, emailOffset));
      tr := Call(GET_EMAILS, req, post, parseFloat);
      out := EmailsOf(tr.out, "emails");
    }

    /** `buy_emails(amount, domain)`: the `email` of every bought email, in order; no expected price is sent. */
    method BuyEmails(amount: int, domain: string,
                     post: (string, Value, nat) -> Exchange, parseFloat: string -> Option<Float>)
      returns (out: Outcome<seq<FVal>>, tr: Trace)
      ensures out == EmailsOf(tr.out, "bought_emails")
      ensures closed ==> out == Raised(ClosedClient)
      ensures !closed && hasSession ==>
        tr == Attempts(RequestUrl(baseUrl, BUY_EMAILS.path), ToDict(WithToken(BuyEmailsRequest(amount, domain), alacctoken)), post,
                       Handler(schema, BUY_EMAILS.path, alacctoken, BuyEmailsO, parseFloat), maxRetries, 0)
    {
      var req := new Request(BuyEmailsRequest(amount, domain));
      tr := Call(BUY_EMAILS, req, post, parseFloat);
      out := EmailsOf(tr.out, "bought_emails");
    }

    /** `buy_email(domain)`: the first email of `buy_emails(1, domain)`; an empty list fails on `[0]`. */
    method BuyEmail(domain: string, post: (string, Value, nat) -> Exchange, parseFloat: string -> Option<Float>)
      returns (out: Outcome<FVal>, tr: Trace)
      ensures out == FirstEmail(EmailsOf(tr.out, "bought_emails"))
      ensures closed ==> out == Raised(ClosedClient)
      ensures !closed && hasSession ==>
        tr == Attempts(RequestUrl(baseUrl, BUY_EMAILS.path), ToDict(WithToken(BuyEmailsRequest(1, domain), alacctoken)), post,
                       Handler(schema, BUY_EMAILS.path, alacctoken, BuyEmailsO, parseFloat), maxRetries, 0)
    {
      var emails;
      emails, tr := BuyEmails(1, domain, post, parseFloat);
      out := FirstEmail(emails);
    }
  }

  /** `GetEmailsI(limit, email_offset)`, as its constructor builds it. */
  function GetEmailsRequest(limit: int, emailOffset: Option<string>): Record {
    Record(GetEmailsI, [("alacctoken", Raw(Null)), ("limit", Raw(Int(limit))),
                        ("email_offset", Raw(if emailOffset.Some? then Str(emailOffset.value) else Null))])
  }

  /** `BuyEmailsI(amount, domain, None)`, as its constructor builds it. */
  function BuyEmailsRequest(amount: int, domain: string): Record {
    Record(BuyEmailsI, [("alacctoken", Raw(Null)), ("amount", Raw(Int(amount))), ("domain", Raw(Str(domain))),
                        ("expected_price", Raw(Null))])
  }

  /** The `GetEmailsI` the client sends is exactly what the generated constructor builds. */
  lemma GetEmailsRequestConstructed(decls: Decls, limit: int, emailOffset: Option<string>)
    requires decls(GetEmailsI) == GetEmailsIFields()
    ensures Construct(decls, GetEmailsI, map["limit" := Raw(Int(limit)),
      "email_offset" := Raw(if emailOffset.Some? then Str(emailOffset.value) else Null)]) == Ok(GetEmailsRequest(limit, emailOffset))
  {
    var off := Raw(if emailOffset.Some? then Str(emailOffset.value) else Null);
    var kw := map["limit" := Raw(Int(limit)), "email_offset" := off];
    assert decls(GetEmailsI)[1].name == "limit" && decls(GetEmailsI)[2].name == "email_offset";
    assert kw.Keys <= InitNames(decls, GetEmailsI);
    var c := Construct(decls, GetEmailsI, kw);
    assert c.Ok? && |c.value.fields| == 3;
    assert c.value.fields[0] == ("alacctoken", Raw(Null));
    assert c.value.fields[1] == ("limit", Raw(Int(limit)));
    assert c.value.fields[2] == ("email_offset", off);
    assert c.value.fields == GetEmailsRequest(limit, emailOffset).fields;
  }

  /** The `BuyEmailsI` the client sends is exactly what the generated constructor builds. */
  lemma BuyEmailsRequestConstructed(decls: Decls, amount: int, domain: string)
    requires decls(BuyEmailsI) == BuyEmailsIFields()
    ensures Construct(decls, BuyEmailsI, map["amount" := Raw(Int(amount)), "domain" := Raw(Str(domain)),
      "expected_price" := Raw(Null)]) == Ok(BuyEmailsRequest(amount, domain))
  {
    var kw := map["amount" := Raw(Int(amount)), "domain" := Raw(Str(domain)), "expected_price" := Raw(Null)];
    assert decls(BuyEmailsI)[1].name == "amount" && decls(BuyEmailsI)[2].name == "domain";
    assert decls(BuyEmailsI)[3].name == "expected_price";
    assert kw.Keys <= InitNames(decls, BuyEmailsI);
    var c := Construct(decls, BuyEmailsI, kw);
    assert c.Ok? && |c.value.fields| == 4;
    assert c.value.fields[0] == ("alacctoken", Raw(Null));
    assert c.value.fields[1] == ("amount", Raw(Int(amount)));
    assert c.value.fields[2] == ("domain", Raw(Str(domain)));
    assert c.value.fields[3] == ("expected_price", Raw(Null));
    assert c.value.fields == BuyEmailsRequest(amount, domain).fields;
  }

  /** `[x.email for x in xs]`, failing on an element without an `email` attribute. */
  function EmailList(rs: seq<Record>): (r: Option<seq<FVal>>)
    ensures r.Some? ==> |r.value| == |rs|
    ensures r.Some? <==> forall j :: 0 <= j < |rs| ==> Attr(rs[j].fields, "email").Some?
    ensures r.Some? ==> forall j :: 0 <= j < |rs| ==> r.value[j] == Attr(rs[j].fields, "email").value
    decreases |rs|
  {
    if rs == [] then Some([])
    else match (Attr(rs[0].fields, "email"), EmailList(rs[1..]))
      case (Some(e), Some(es)) => Some([e] + es)
      case _ =>
        assert forall j :: 0 < j < |rs| ==> rs[1..][j - 1] == rs[j];
        None
  }

  /** The result mapping of `get_emails` and `buy_emails` applied to the call's outcome. */
  function EmailsOf(o: Outcome<Record>, field: string): Outcome<seq<FVal>> {
    match o
    case Returned(r) =>
      (match Attr(r.fields, field)
       case Some(Subs(rs)) =>
         (match EmailList(rs)
          case Some(es) => Returned(es)
          case None => Escaped(AttributeError))
       // The two cases below cannot arise with alapi's declarations: `emails` and
       // `bought_emails` are required `list[BoughtEmail]` fields, so they always decode
       // to `Subs`; they are kept so that the function is total over any record.
       case Some(Raw(v)) => Escaped(AttributeError) // the list holds plain values, which have no `.email`
       case _ => Escaped(TypeError))
    case Raised(e) => Raised(e)
    case Escaped(x) => Escaped(x)
    case FellThrough => Escaped(AttributeError) // `None.emails`
  }

  /** `res[0]`. */
  function FirstEmail(o: Outcome<seq<FVal>>): Outcome<FVal> {
    match o
    case Returned(es) => if |es| == 0 then Escaped(IndexError) else Returned(es[0])
    case Raised(e) => Raised(e)
    case Escaped(x) => Escaped(x)
    case FellThrough => FellThrough
  }

  /**
   * A call whose first attempt is answered with a successful `BuyEmailsO`
   * returns the bought addresses in the order the server listed them.
   */
  lemma BoughtEmailsInOrder(decls: Decls, r: Record)
    requires decls(BuyEmailsO) == BuyEmailsOFields() && decls(BoughtEmail) == BoughtEmailFields()
    requires r.ty == BuyEmailsO && Decodable(decls, r)
    ensures var rs := r.fields[3].1.rs;
      EmailsOf(Returned(r), "bought_emails") == Returned(seq(|rs|, j requires 0 <= j < |rs| => rs[j].fields[0].1))
  {
    var fs := decls(BuyEmailsO);
    assert fs[0].name == "ok" && fs[1].name == "actual_cost" && fs[2].name == "new_balance";
    assert fs[3].name == "bought_emails" && fs[3].kind == NestedList(BoughtEmail);
    var rs := r.fields[3].1.rs;
    AttrAt(r.fields, "bought_emails", 3);
    BoughtEmailAttrs(decls, rs);
    var es := EmailList(rs).value;
    assert es == seq(|rs|, j requires 0 <= j < |rs| => rs[j].fields[0].1);
  }

  /** The `email` attribute of a decoded `BoughtEmail` is its first field. */
  lemma BoughtEmailAttrs(decls: Decls, rs: seq<Record>)
    requires decls(BoughtEmail) == BoughtEmailFields()
    requires forall j :: 0 <= j < |rs| ==> rs[j].ty == BoughtEmail && Flat(decls, rs[j])
    ensures forall j :: 0 <= j < |rs| ==> |rs[j].fields| == 2 && Attr(rs[j].fields, "email") == Some(rs[j].fields[0].1)
  {
    forall j | 0 <= j < |rs| ensures |rs[j].fields| == 2 && Attr(rs[j].fields, "email") == Some(rs[j].fields[0].1) {
      assert rs[j].fields[0].0 == decls(BoughtEmail)[0].name;
      AttrAt(rs[j].fields, "email", 0);
    }
  }
}
