/**
 * The exception hierarchy of error.py and how each constructor composes its
 * message: a subclass writes its own text into `message`, then calls
 * `Error.__init__` with it, which resets `message` to "AL Error" and appends
 * ": " and the text.
 */
module Errors {
  import opened Wrappers
  import opened Wire

  /** Which exception, with its constructor arguments. Arguments that are library exceptions are kept as their `str()`. */
  datatype ErrorKind =
    | Base(m: Option<string>)
    | Client(m: Option<string>)
    | InvalidDomain(domain: string)
    | ClosedClient
    | ApiConnection(url: string, cause: string)
    | RetriesExceeded(attempts: int, cause: string)
    | Api(code: Value, msg: Value)
    | InternalApi(detail: string)
    | InvalidRoute(route: string)
    | Unauthorized(token: string)
    | OnCooldown(seconds: Float)
    | TempLocked
    | TimedOut(afterSeconds: Float)

  /** The text a subclass constructor writes before calling the base constructor. */
  function OwnText(k: ErrorKind): string
    requires !k.Base? && !k.Client?
  {
    match k
    case InvalidDomain(d) => "InvalidDomainError: The domain: '" + d + "' has not been found, it is probably not for sale"
    case ClosedClient => "ClosedClientError: The API client is closed, open it first with self.start() or use an async context"
    case ApiConnection(url, e) => "ApiConnectionError: Failed to connect to the API server: '" + url + "', internal error: " + e
    case RetriesExceeded(n, e) =>
      "RetriesExceededError: The total retries were exceeded doing an API request, attempts: " + IntToString(n)
      + ", last attempt err: " + e
    case Api(code, msg) => "ApiError: code: " + PyStr(code) + ", msg: " + PyStr(msg)
    case InternalApi(m) => "InternalApiError: The API server has misbehaved, err: " + m
    case InvalidRoute(r) => "InvalidRouteError: The route '" + r + "' does not exist"
    case Unauthorized(t) => "UnauthorizedError: The token '" + t + "' is not authorized"
    case OnCooldown(s) => "OnCooldownError: The action is on cooldown, retry again in: " + s.repr + "s"
    case TempLocked => "TempLockedError: The action is temporarily locked, retry again in a bit"
    case TimedOut(s) => "TimedOutError: Timed out after: " + s.repr + " seconds"
  }

  /** The argument `Error.__init__` receives: the caller's for `Error` and `ClientError`, the subclass text otherwise. */
  function BaseArgument(k: ErrorKind): Option<string> {
    if k.Base? || k.Client? then k.m else Some(OwnText(k))
  }

  /** `Error.__init__(message)`: "AL Error", followed by ": " and the message when there is one. */
  function BaseMessage(m: Option<string>): string {
    if m.Some? then "AL Error" + ": " + m.value else "AL Error"
  }

  /** An exception object; `cooldown` and `after_seconds` exist only on the two classes that set them. */
  class Error {
    const kind: ErrorKind
    var message: string
    var cooldown: Option<Float>
    var afterSeconds: Option<Float>

    constructor(k: ErrorKind)
      ensures kind == k
      ensures message == BaseMessage(BaseArgument(k))
      ensures cooldown == if k.OnCooldown? then Some(k.seconds) else None
      ensures afterSeconds == if k.TimedOut? then Some(k.afterSeconds) else None
    {
      kind := k;
      cooldown := if k.OnCooldown? then Some(k.seconds) else None;
      afterSeconds := if k.TimedOut? then Some(k.afterSeconds) else None;
      message := "";
      new;
      if k.Base? || k.Client? {
        InitBase(k.m);
      } else {
        message := OwnText(k);
        InitBase(Some(message));
      }
    }

    /** The body of `Error.__init__`, which overwrites whatever `message` held. */
    method InitBase(m: Option<string>)
      modifies this`message
      ensures message == BaseMessage(m)
    {
      message := "AL Error";
      if m.Some? {
        message := message + ": " + m.value;
      }
    }
  }

  /** The final message of every exception, and the message that names no argument. */
  lemma MessageShapes(k: ErrorKind)
    ensures BaseMessage(BaseArgument(Base(None))) == "AL Error"
    ensures forall m: string :: BaseMessage(BaseArgument(Base(Some(m)))) == "AL Error: " + m
    ensures k.Base? || k.Client? ==> BaseArgument(Client(k.m)) == BaseArgument(Base(k.m))
    ensures !k.Base? && !k.Client? ==> BaseMessage(BaseArgument(k)) == "AL Error: " + OwnText(k)
  {
    forall m: string ensures BaseMessage(BaseArgument(Base(Some(m)))) == "AL Error: " + m {
      BaseMessageSome(m);
    }
    if !k.Base? && !k.Client? {
      BaseMessageSome(OwnText(k));
    }
  }

  lemma BaseMessageSome(m: string)
    ensures BaseMessage(Some(m)) == "AL Error: " + m
  {
    assert "AL Error" + ": " + m == "AL Error: " + m;
  }

  /** The message determines the argument given to `Error.__init__`. */
  lemma BaseMessageInjective(a: Option<string>, b: Option<string>)
    requires BaseMessage(a) == BaseMessage(b)
    ensures a == b
  {
    if a.Some? && b.Some? {
      assert "AL Error" + ": " + a.value == "AL Error: " + a.value + "";
      assert "AL Error" + ": " + b.value == "AL Error: " + b.value + "";
      FramedInjective("AL Error: ", a.value, b.value, "");
    }
  }

  lemma FramedInjective(p: string, x: string, y: string, s: string)
    requires p + x + s == p + y + s
    ensures x == y
  {
    assert |x| == |y|;
    assert x == (p + x + s)[|p|..|p| + |x|];
    assert y == (p + y + s)[|p|..|p| + |y|];
  }

  /**
   * The route of an `InvalidRouteApiError`, the token of an
   * `UnauthorizedApiError` and the domain of an `InvalidDomainError` can be
   * read back from the final message: different arguments give different messages.
   */
  lemma ArgumentsRecoverable(a: string, b: string)
    ensures BaseMessage(BaseArgument(InvalidRoute(a))) == BaseMessage(BaseArgument(InvalidRoute(b))) ==> a == b
    ensures BaseMessage(BaseArgument(Unauthorized(a))) == BaseMessage(BaseArgument(Unauthorized(b))) ==> a == b
    ensures BaseMessage(BaseArgument(InvalidDomain(a))) == BaseMessage(BaseArgument(InvalidDomain(b))) ==> a == b
  {
    if BaseMessage(BaseArgument(InvalidRoute(a))) == BaseMessage(BaseArgument(InvalidRoute(b))) {
      BaseMessageInjective(BaseArgument(InvalidRoute(a)), BaseArgument(InvalidRoute(b)));
      FramedInjective("InvalidRouteError: The route '", a, b, "' does not exist");
    }
    if BaseMessage(BaseArgument(Unauthorized(a))) == BaseMessage(BaseArgument(Unauthorized(b))) {
      BaseMessageInjective(BaseArgument(Unauthorized(a)), BaseArgument(Unauthorized(b)));
      FramedInjective("UnauthorizedError: The token '", a, b, "' is not authorized");
    }
    if BaseMessage(BaseArgument(InvalidDomain(a))) == BaseMessage(BaseArgument(InvalidDomain(b))) {
      BaseMessageInjective(BaseArgument(InvalidDomain(a)), BaseArgument(InvalidDomain(b)));
      FramedInjective("InvalidDomainError: The domain: '", a, b, "' has not been found, it is probably not for sale");
    }
  }
}
