/**
 * `PowerSession` of libraries/request_utils.py: a session that normalises the options of every
 * logical request, makes up to seven attempts (at most six retries after a transport failure),
 * keeps a history of attempts (`sessions_log`) and post-processes every response in a hook.
 *
 * The network is replaced by the answers it gives to successive attempts (`Attempt`), the clock
 * by the integer field `now` in milliseconds, which an attempt advances by the time it took and
 * a sleep by its length.
 */
module RequestUtils {

  import opened Wrappers
  import opened Strings
  import opened Urls
  import Logging

  /** The attempt ceiling of `request`. */
  const MaxAttempts: nat := 7

  /** The timeout `request` puts in when the caller gives none (or a falsy one). */
  const DefaultTimeout: nat := 10

  // ---------------------------------------------------------------------------
  // Exceptions and the `except` chain
  // ---------------------------------------------------------------------------

  /**
   * The class of an exception `make_request` can raise: the `requests` classes the chain names
   * and some of their subclasses, any other `requests` error, a `urllib3` HTTPError (or subclass),
   * and any other `Exception` subclass, each of the last three with its type name. `BaseException`
   * classes outside `Exception` (KeyboardInterrupt, SystemExit) escape every clause and are not
   * modelled.
   */
  datatype ExcClass =
    | ConnectTimeout | ReadTimeout | Timeout | ConnectionError | ProxyError | SSLError | HTTPError
    | RequestException | OtherRequestError(name: string) | Urllib3Error(name: string) | OtherError(name: string)

  /** The classes the `except` clauses name. */
  datatype Base =
    | ConnectTimeoutBase | ConnectionErrorBase | HTTPErrorBase | ReadTimeoutBase | TimeoutBase
    | RequestExceptionBase | Urllib3HTTPErrorBase

  /** `isinstance(error, b)`: whether `b` is `c` or one of its ancestors. */
  predicate IsA(c: ExcClass, b: Base) {
    match b
    case ConnectTimeoutBase => c == ConnectTimeout
    case ConnectionErrorBase => c in {ConnectTimeout, ConnectionError, ProxyError, SSLError}
    case HTTPErrorBase => c == HTTPError
    case ReadTimeoutBase => c == ReadTimeout
    case TimeoutBase => c in {ConnectTimeout, ReadTimeout, Timeout}
    case RequestExceptionBase => !c.Urllib3Error? && !c.OtherError?
    case Urllib3HTTPErrorBase => c.Urllib3Error?
  }

  /** `type(error).__name__`. */
  function TypeName(c: ExcClass): string {
    match c
    case ConnectTimeout => "ConnectTimeout"
    case ReadTimeout => "ReadTimeout"
    case Timeout => "Timeout"
    case ConnectionError => "ConnectionError"
    case ProxyError => "ProxyError"
    case SSLError => "SSLError"
    case HTTPError => "HTTPError"
    case RequestException => "RequestException"
    case OtherRequestError(n) => n
    case Urllib3Error(n) => n
    case OtherError(n) => n
  }

  /** The `except` clauses of `request`; CatchAny is `except Exception`. */
  datatype Clause =
    | CatchConnectTimeout | CatchConnectionError | CatchHTTPError | CatchReadTimeout | CatchTimeout
    | CatchRequest | CatchAny

  /** The position of a clause in the chain. */
  function Rank(cl: Clause): nat {
    match cl
    case CatchConnectTimeout => 0
    case CatchConnectionError => 1
    case CatchHTTPError => 2
    case CatchReadTimeout => 3
    case CatchTimeout => 4
    case CatchRequest => 5
    case CatchAny => 6
  }

  /** Whether a clause catches an exception of class `c`. */
  predicate Catches(cl: Clause, c: ExcClass) {
    match cl
    case CatchConnectTimeout => IsA(c, ConnectTimeoutBase)
    case CatchConnectionError => IsA(c, ConnectionErrorBase)
    case CatchHTTPError => IsA(c, HTTPErrorBase)
    case CatchReadTimeout => IsA(c, ReadTimeoutBase)
    case CatchTimeout => IsA(c, TimeoutBase)
    case CatchRequest => IsA(c, RequestExceptionBase) || IsA(c, Urllib3HTTPErrorBase)
    case CatchAny => true
  }

  /** The clause that handles an exception of class `c`: the first in the chain that catches it. */
  function ClauseFor(c: ExcClass): (cl: Clause)
    ensures Catches(cl, c)
    ensures forall other: Clause | Rank(other) < Rank(cl) :: !Catches(other, c)
  {
    if Catches(CatchConnectTimeout, c) then CatchConnectTimeout
    else if Catches(CatchConnectionError, c) then CatchConnectionError
    else if Catches(CatchHTTPError, c) then CatchHTTPError
    else if Catches(CatchReadTimeout, c) then CatchReadTimeout
    else if Catches(CatchTimeout, c) then CatchTimeout
    else if Catches(CatchRequest, c) then CatchRequest
    else CatchAny
  }

  /**
   * How the chain dispatches the connection failures: a ConnectTimeout (also a ConnectionError and
   * a Timeout) reaches the first clause, proxy and TLS errors the ConnectionError clause.
   */
  lemma ConnectionDispatch()
    ensures ClauseFor(ConnectTimeout) == CatchConnectTimeout
    ensures ClauseFor(ConnectionError) == ClauseFor(ProxyError) == ClauseFor(SSLError) == CatchConnectionError
  {
  }

  /**
   * How the chain dispatches the other classes it names: a ReadTimeout reaches its own clause
   * although it is a Timeout, and a bare RequestException the shared clause.
   */
  lemma ClauseDispatch()
    ensures ClauseFor(HTTPError) == CatchHTTPError
    ensures ClauseFor(ReadTimeout) == CatchReadTimeout
    ensures ClauseFor(Timeout) == CatchTimeout
    ensures ClauseFor(RequestException) == CatchRequest
  {
  }

  /**
   * The other `requests` and `urllib3` errors share the RequestException clause, and only
   * exceptions from elsewhere reach `except Exception`.
   */
  lemma ClauseFallThrough(c: ExcClass)
    ensures c.OtherRequestError? || c.Urllib3Error? ==> ClauseFor(c) == CatchRequest
    ensures ClauseFor(c) == CatchAny <==> c.OtherError?
  {
  }

  /** A raised exception: its class and its `str()`. */
  datatype Exc = Exc(cls: ExcClass, text: string)

  /**
   * The failures `request` does not retry: a `requests`/`urllib3` error whose lower-cased text
   * mentions "no schema supplied", and an exception reaching `except Exception` whose type name
   * or text is "CancelledRequest".
   */
  predicate IsCancel(e: Exc) {
    match ClauseFor(e.cls)
    case CatchRequest => Contains(Lower(e.text), "no schema supplied")
    case CatchAny => TypeName(e.cls) == "CancelledRequest" || e.text == "CancelledRequest"
    case _ => false
  }

  /**
   * Which failures cancel, by class: a `requests` error caught by the RequestException clause
   * (or a `urllib3` HTTPError) when its lower-cased text contains "no schema supplied", and an
   * exception outside both libraries whose type name or text is "CancelledRequest". A timeout,
   * a connection error or a `requests` HTTPError never cancels, whatever its text.
   */
  lemma CancelConditions(e: Exc)
    ensures IsCancel(e) <==>
      ((e.cls == RequestException || e.cls.OtherRequestError? || e.cls.Urllib3Error?)
         && Contains(Lower(e.text), "no schema supplied"))
      || (e.cls.OtherError? && (e.cls.name == "CancelledRequest" || e.text == "CancelledRequest"))
    ensures e.cls in {ConnectTimeout, ReadTimeout, Timeout, ConnectionError, ProxyError, SSLError, HTTPError}
      ==> !IsCancel(e)
  {
    ClauseFallThrough(e.cls);
  }

  /**
   * The `error` a history entry records: the class a specific clause assigned (not the caught
   * instance), and None after the two `as error` clauses, whose name Python unbinds when the
   * clause ends.
   */
  function RecordedError(e: Exc): (r: Option<ExcClass>)
    ensures r.Some? <==> ClauseFor(e.cls) !in {CatchRequest, CatchAny}
  {
    match ClauseFor(e.cls)
    case CatchConnectTimeout => Some(ConnectTimeout)
    case CatchConnectionError => Some(ConnectionError)
    case CatchHTTPError => Some(HTTPError)
    case CatchReadTimeout => Some(ReadTimeout)
    case CatchTimeout => Some(Timeout)
    case _ => None
  }

  // ---------------------------------------------------------------------------
  // Responses, history entries, log calls
  // ---------------------------------------------------------------------------

  /** A completed HTTP exchange: status code, final URL, URL of the request that got it, body text. */
  datatype Response = Response(status: nat, url: string, requestUrl: string, text: string)

  /** A parsed document; parsing itself is outside the model, so it records its source. */
  datatype Doc = Doc(source: string)

  /** A response after the hook: with its connection time, soup and domain attached. */
  datatype Hooked = Hooked(response: Response, connectionTime: int, soup: Option<Doc>) {
    /** The `domain` attribute: the request URL's scheme, "://", and its host name. */
    function Domain(): string {
      Scheme(response.requestUrl) + "://" + HostText(response.requestUrl)
    }
  }

  /** One entry of `sessions_log`: after a completed exchange, or after a retried failure (code ''). */
  datatype Entry =
    | Completed(url: string, code: nat, connectionTime: int)
    | Failed(url: string, error: Option<ExcClass>, connectionTime: int)

  /** `last_response`: False before any request, None after a retried failure, else the last response. */
  datatype LastResponse = Unset | Cleared | Present(hooked: Hooked)

  /** What `request` raises. */
  datatype RequestError = CancelledRequest | MaxRequestsExceed

  /** What `request` gives its caller. */
  datatype Reply = Got(hooked: Hooked) | Raised(error: RequestError)

  /** The network's answer to one attempt, with the milliseconds the attempt took. */
  datatype Attempt = Answered(response: Response, elapsed: nat) | Threw(exc: Exc, elapsed: nat)

  /** The arguments of one call on the logger: message, status and retry. */
  datatype LogCall = LogCall(message: Logging.Message, status: string, retry: Logging.Retry)

  /** A call at status "error" with a plain text message and no retry. */
  function ErrorLine(text: string): LogCall {
    LogCall(Logging.Str(text), "error", Logging.NoRetry)
  }

  /**
   * A line the session logs, by kind; Call gives the exact call on the logger. The `retryLog`
   * parameters are the session's retry suffix.
   */
  datatype Note =
    | TimedOut(retryLog: string)
    | ConnectionFailed(retryLog: string)
    | HttpFailed(retryLog: string)
    | ReadTimedOut(retryLog: string)
    | TimeoutClass
    | BadError(text: string, retryLog: string)
    | Closing
    | BadResponse(status: nat)
    | Unexpected(typeName: string, text: string, retryLog: string)
  {
    function Call(): LogCall {
      match this
      case TimedOut(r) => ErrorLine("Request timed out." + r)
      case ConnectionFailed(r) => ErrorLine("Connection error." + r)
      case HttpFailed(r) => ErrorLine("Request HTTP error." + r)
      case ReadTimedOut(r) => ErrorLine("Request read timed out." + r)
      // `error` is the class object in that clause, so the debug line names `type` and the class.
      case TimeoutClass => LogCall(Logging.Str("<class 'type'>: <class 'requests.exceptions.Timeout'>"), "debug", Logging.NoRetry)
      case BadError(t, r) => ErrorLine("Bad Error: " + t + "." + r)
      case Closing => ErrorLine("Bad Error. Closing...")
      case BadResponse(code) => ErrorLine("Bad Response: <Response [" + NatToString(code) + "]>")
      case Unexpected(n, t, r) => LogCall(Logging.Obj(n, t), "error", Logging.Textual(r))
    }
  }

  /** The suffix of retry messages: empty when there is no error delay. */
  function RetryLog(errorDelay: nat): (s: string)
    ensures s == "" <==> errorDelay == 0
  {
    if errorDelay != 0 then " Retrying in " + SecondsText(errorDelay) + " seconds" else ""
  }

  /** The retry suffix names the delay in seconds, in a form that reads back as the same milliseconds. */
  lemma RetryLogNamesDelay(errorDelay: nat)
    requires errorDelay != 0
    ensures exists t :: RetryLog(errorDelay) == " Retrying in " + t + " seconds" && DenotesMillis(t, errorDelay)
  {
    SecondsTextRoundTrip(errorDelay);
    assert RetryLog(errorDelay) == " Retrying in " + SecondsText(errorDelay) + " seconds";
  }

  /** What the handling clause logs for a retried failure. */
  function FailureLogCalls(e: Exc, retryLog: string): seq<Note> {
    match ClauseFor(e.cls)
    case CatchConnectTimeout => [TimedOut(retryLog)]
    case CatchConnectionError => [ConnectionFailed(retryLog)]
    case CatchHTTPError => [HttpFailed(retryLog)]
    case CatchReadTimeout => [ReadTimedOut(retryLog)]
    case CatchTimeout => [TimedOut(retryLog), TimeoutClass]
    case CatchRequest => [BadError(e.text, retryLog)]
    case CatchAny => [Unexpected(TypeName(e.cls), e.text, retryLog)]
  }

  /** What is logged before CancelledRequest is raised. */
  function CancelLogCalls(e: Exc): seq<Note> {
    if ClauseFor(e.cls) == CatchRequest then [Closing] else []
  }

  // ---------------------------------------------------------------------------
  // Option normalisation
  // ---------------------------------------------------------------------------

  type Pairs = seq<(string, string)>

  /** A header mapping: a plain dict or an OrderedDict, with its items in order. */
  datatype Headers = Headers(ordered: bool, items: Pairs)

  /**
   * The keyword arguments `request` looks at (None: not given). Python truth values: headers and
   * params are truthy when non-empty, a timeout when non-zero, allowed codes when non-empty.
   */
  datatype Kwargs = Kwargs(
    allowRedirects: Option<bool>,
    headers: Option<Headers>,
    timeout: Option<nat>,
    noCache: Option<bool>,
    params: Option<Pairs>,
    allowedCodes: Option<seq<nat>>)

  function Keys(ps: Pairs): (ks: seq<string>)
    ensures |ks| == |ps| && forall i | 0 <= i < |ps| :: ks[i] == ps[i].0
  {
    if ps == [] then [] else [ps[0].0] + Keys(ps[1..])
  }

  /** The keys of a dict are distinct. */
  predicate UniqueKeys(ps: Pairs) {
    forall i, j | 0 <= i < j < |ps| :: ps[i].0 != ps[j].0
  }

  /** `d.get(key)`. */
  function Lookup(ps: Pairs, key: string): Option<string> {
    if ps == [] then None else if ps[0].0 == key then Some(ps[0].1) else Lookup(ps[1..], key)
  }

  /** `d.update({key: value})`: overwrite in place when present, append otherwise. */
  function SetParam(ps: Pairs, key: string, value: string): (r: Pairs)
    ensures |r| == if key in Keys(ps) then |ps| else |ps| + 1
  {
    if ps == [] then [(key, value)]
    else if ps[0].0 == key then [(key, value)] + ps[1..]
    else [ps[0]] + SetParam(ps[1..], key, value)
  }

  /** After the update the key holds the new value and every other key its old one. */
  lemma {:induction false} SetParamLookup(ps: Pairs, key: string, value: string, k: string)
    ensures Lookup(SetParam(ps, key, value), k) == if k == key then Some(value) else Lookup(ps, k)
  {
    if ps != [] && ps[0].0 != key {
      SetParamLookup(ps[1..], key, value, k);
      assert SetParam(ps, key, value)[1..] == SetParam(ps[1..], key, value);
    }
  }

  /** The update keeps the order of the keys, appending the key only when it is new. */
  lemma {:induction false} SetParamKeys(ps: Pairs, key: string, value: string)
    ensures Keys(SetParam(ps, key, value)) == if key in Keys(ps) then Keys(ps) else Keys(ps) + [key]
  {
    if ps != [] && ps[0].0 != key {
      SetParamKeys(ps[1..], key, value);
      assert key in Keys(ps) <==> key in Keys(ps[1..]);
    }
  }

  /** A dict stays a dict: the update never duplicates a key. */
  lemma SetParamUnique(ps: Pairs, key: string, value: string)
    requires UniqueKeys(ps)
    ensures UniqueKeys(SetParam(ps, key, value))
  {
    var r := SetParam(ps, key, value);
    SetParamKeys(ps, key, value);
    var ks, rs := Keys(ps), Keys(r);
    forall i, j | 0 <= i < j < |r| ensures r[i].0 != r[j].0 {
      if key in ks {
        assert rs == ks;
        assert rs[i] == ks[i] && rs[j] == ks[j];
      } else {
        assert rs == ks + [key];
        if j == |r| - 1 {
          assert rs[i] == ks[i];
        } else {
          assert rs[i] == ks[i] && rs[j] == ks[j];
        }
      }
    }
  }

  /** The cache-busting token: `str(time.time())` without its '.'. */
  function NoCacheToken(now: nat): (token: string)
    ensures AllDigits(token) && token != []
  {
    var t := SecondsText(now);
    RemoveAllChar(t, '.');
    assert forall i | 0 <= i < |t| :: t[i] == '.' || IsDigit(t[i]) by {
      assert t == NatToString(now / 1000) + ['.'] + Fraction(now % 1000);
    }
    assert RemoveAll(t, ".") != [] by {
      var w := NatToString(now / 1000);
      assert t == w + ("." + Fraction(now % 1000));
      assert t[0] == w[0] && IsDigit(t[0]);
      assert RemoveAll(t, ".") == [t[0]] + RemoveAll(t[1..], ".");
    }
    RemoveAll(t, ".")
  }

  predicate HeadersTruthy(h: Option<Headers>) { h.Some? && h.value.items != [] }
  predicate TimeoutTruthy(t: Option<nat>) { t.Some? && t.value != 0 }
  predicate ParamsTruthy(p: Option<Pairs>) { p.Some? && p.value != [] }
  predicate CodesTruthy(c: Option<seq<nat>>) { c.Some? && c.value != [] }

  /** The option rewriting `request` does before its loop; `token` is used only when no_cache is set. */
  function Normalise(k: Kwargs, token: string): (r: Kwargs)
    ensures r.allowRedirects == Some(k.allowRedirects.GetOr(true))
    ensures r.timeout == if TimeoutTruthy(k.timeout) then k.timeout else Some(DefaultTimeout)
    ensures HeadersTruthy(k.headers) ==> r.headers == Some(Headers(true, k.headers.value.items))
    ensures !HeadersTruthy(k.headers) ==> r.headers == k.headers
    ensures r.noCache == None && r.allowedCodes == k.allowedCodes
    ensures k.noCache != Some(true) ==> r.params == k.params
    ensures k.noCache == Some(true) && ParamsTruthy(k.params) ==> r.params == Some(SetParam(k.params.value, "_", token))
    ensures k.noCache == Some(true) && !ParamsTruthy(k.params) ==> r.params == Some([("_", token)])
  {
    Kwargs(
      allowRedirects := Some(k.allowRedirects.GetOr(true)),
      headers := if HeadersTruthy(k.headers) then Some(Headers(true, k.headers.value.items)) else k.headers,
      timeout := if TimeoutTruthy(k.timeout) then k.timeout else Some(DefaultTimeout),
      noCache := None,
      params :=
        if k.noCache != Some(true) then k.params
        else if ParamsTruthy(k.params) then Some(SetParam(k.params.value, "_", token))
        else Some([("_", token)]),
      allowedCodes := k.allowedCodes)
  }

  /** Normalised options are a fixed point: a second pass changes nothing and adds no second token. */
  lemma NormaliseIdempotent(k: Kwargs, token: string, token2: string)
    ensures Normalise(Normalise(k, token), token2) == Normalise(k, token)
  {
  }

  /** With no_cache, the params hold the token under '_' and keep every other key and value. */
  lemma NoCacheParams(k: Kwargs, token: string, key: string)
    requires k.noCache == Some(true)
    ensures Lookup(Normalise(k, token).params.value, "_") == Some(token)
    ensures ParamsTruthy(k.params) && key != "_" ==>
      Lookup(Normalise(k, token).params.value, key) == Lookup(k.params.value, key)
  {
    if ParamsTruthy(k.params) {
      SetParamLookup(k.params.value, "_", token, "_");
      SetParamLookup(k.params.value, "_", token, key);
    }
  }

  /** The error `request` logs when the status is not among truthy allowed codes; it never retries. */
  function BadResponseLogCalls(k: Kwargs, resp: Response): seq<Note> {
    if CodesTruthy(k.allowedCodes) && resp.status !in k.allowedCodes.value
    then [BadResponse(resp.status)]
    else []
  }

  // ---------------------------------------------------------------------------
  // The hook
  // ---------------------------------------------------------------------------

  /** `f'{url.hostname}'`: the host name, or "None" when the URL has none. */
  function HostText(u: string): string {
    match Hostname(u)
    case Some(h) => h
    case None => "None"
  }

  /** The attributes `response_hook` attaches, for a hook running at `end` with the timer started at `start`. */
  function Hook(resp: Response, start: int, end: int): (h: Hooked)
    ensures h.response == resp && h.connectionTime == end - start
    ensures h.soup.None? <==> resp.text == ""
  {
    Hooked(resp, end - start, if resp.text != "" then Some(Doc(resp.text)) else None)
  }

  // ---------------------------------------------------------------------------
  // The retry loop, in closed form
  // ---------------------------------------------------------------------------

  /** An attempt that ends the loop: an answer, or a cancelling failure. */
  predicate Decisive(a: Attempt) {
    a.Answered? || IsCancel(a.exc)
  }

  /** An attempt the loop retries. */
  predicate Retryable(a: Attempt) {
    a.Threw? && !IsCancel(a.exc)
  }

  function RetriedFrom(outs: seq<Attempt>, k: nat): (n: nat)
    requires k <= MaxAttempts <= |outs|
    requires forall j | 0 <= j < k :: Retryable(outs[j])
    ensures k <= n <= MaxAttempts
    ensures forall j | 0 <= j < n :: Retryable(outs[j])
    ensures n < MaxAttempts ==> Decisive(outs[n])
    decreases MaxAttempts - k
  {
    if k == MaxAttempts || Decisive(outs[k]) then k else RetriedFrom(outs, k + 1)
  }

  /**
   * How many failures the loop retries: the attempts before the first decisive one among the
   * first seven, all seven when none is decisive.
   */
  function Retried(outs: seq<Attempt>): (n: nat)
    requires MaxAttempts <= |outs|
    ensures n <= MaxAttempts
    ensures forall j | 0 <= j < n :: Retryable(outs[j])
    ensures n < MaxAttempts ==> Decisive(outs[n])
  {
    RetriedFrom(outs, 0)
  }

  /** How many attempts `request` makes: the retried failures and the decisive one, never more than seven. */
  function AttemptsMade(outs: seq<Attempt>): (n: nat)
    requires MaxAttempts <= |outs|
    ensures 1 <= n <= MaxAttempts
  {
    if Retried(outs) < MaxAttempts then Retried(outs) + 1 else MaxAttempts
  }

  /** Milliseconds from the timer start to the start of attempt `k`: earlier attempts and their sleeps. */
  function Offset(outs: seq<Attempt>, delay: nat, k: nat): nat
    requires k <= |outs|
  {
    if k == 0 then 0 else Offset(outs, delay, k - 1) + outs[k - 1].elapsed + delay
  }

  /** The history entries of the first `k` (retried) failures, each timed from the single timer start. */
  function FailEntries(url: string, outs: seq<Attempt>, delay: nat, k: nat): (es: seq<Entry>)
    requires k <= |outs| && forall j | 0 <= j < k :: outs[j].Threw?
    ensures |es| == k
  {
    if k == 0 then []
    else FailEntries(url, outs, delay, k - 1)
         + [Failed(url, RecordedError(outs[k - 1].exc), Offset(outs, delay, k - 1) + outs[k - 1].elapsed)]
  }

  /** Entry `j` of the failures' history: the URL, the recorded error, and the time since the single timer start. */
  lemma {:induction false} FailEntriesAt(url: string, outs: seq<Attempt>, delay: nat, k: nat, j: nat)
    requires k <= |outs| && forall i | 0 <= i < k :: outs[i].Threw?
    requires j < k
    ensures FailEntries(url, outs, delay, k)[j]
         == Failed(url, RecordedError(outs[j].exc), Offset(outs, delay, j) + outs[j].elapsed)
    decreases k
  {
    if j < k - 1 {
      FailEntriesAt(url, outs, delay, k - 1, j);
    }
  }

  /** An attempt starts after every earlier attempt has run and been followed by its error delay. */
  lemma {:induction false} OffsetAfter(outs: seq<Attempt>, delay: nat, j: nat, k: nat)
    requires j < k <= |outs|
    ensures Offset(outs, delay, j) + outs[j].elapsed + delay <= Offset(outs, delay, k)
    decreases k
  {
    if j < k - 1 {
      OffsetAfter(outs, delay, j, k - 1);
    }
  }

  /** Attempt `k` starts no earlier than `k` error delays after the timer start. */
  lemma {:induction false} OffsetFloor(outs: seq<Attempt>, delay: nat, k: nat)
    requires k <= |outs|
    ensures k * delay <= Offset(outs, delay, k)
    decreases k
  {
    if k > 0 {
      OffsetFloor(outs, delay, k - 1);
      assert k * delay == (k - 1) * delay + delay;
    }
  }

  /**
   * The timer is not restarted between attempts: the connection times of the failures' entries
   * grow by at least the error delay from one entry to the next, and the `j`-th is at least `j`
   * delays plus that attempt's own duration.
   */
  lemma FailEntriesCumulative(url: string, outs: seq<Attempt>, delay: nat, k: nat, i: nat, j: nat)
    requires k <= |outs| && forall m | 0 <= m < k :: outs[m].Threw?
    requires i < j < k
    ensures var es := FailEntries(url, outs, delay, k);
      es[i].connectionTime + delay <= es[j].connectionTime && j * delay + outs[j].elapsed <= es[j].connectionTime
  {
    FailEntriesAt(url, outs, delay, k, i);
    FailEntriesAt(url, outs, delay, k, j);
    OffsetAfter(outs, delay, i, j);
    OffsetFloor(outs, delay, j);
  }

  /** The log calls of the first `k` (retried) failures. */
  function FailLogs(outs: seq<Attempt>, retryLog: string, k: nat): seq<Note>
    requires k <= |outs| && forall j | 0 <= j < k :: outs[j].Threw?
  {
    if k == 0 then [] else FailLogs(outs, retryLog, k - 1) + FailureLogCalls(outs[k - 1].exc, retryLog)
  }

  /**
   * The retry suffix is handed to the logger as a string, so no line the session logs makes the
   * logger sleep in any layout: the pauses between attempts are the session's own.
   */
  lemma NoteNeverSleeps(n: Note, l: Logging.Logger, now: Logging.Clock)
    ensures var c := n.Call(); Logging.Sleeps(Logging.Log(l, c.message, c.status, c.retry, now)) == []
  {
    var c := n.Call();
    assert !c.retry.Numeric?;
    Logging.LogEffects(l, c.message, c.status, c.retry, now);
  }

  /** The sleeps after `k` retried failures: one of `delay` each, none when the delay is zero. */
  function Pauses(delay: nat, k: nat): (ps: seq<nat>)
    ensures |ps| == if delay == 0 then 0 else k
    ensures forall p | p in ps :: p == delay
  {
    if delay == 0 || k == 0 then [] else Pauses(delay, k - 1) + [delay]
  }

  /** `k` copies of `x`. */
  function Repeat<T>(x: T, k: nat): (s: seq<T>)
    ensures |s| == k && forall i | 0 <= i < k :: s[i] == x
  {
    if k == 0 then [] else Repeat(x, k - 1) + [x]
  }

  /** One attempt handed to the transport. */
  datatype Sent = Sent(verb: string, url: string, kwargs: Kwargs)

  /** The mutable state of a session (its fields other than the constant configuration). */
  datatype SessionState = SessionState(
    sessionsLog: seq<Entry>, lastResponse: LastResponse, timerStart: int, timerEnd: int,
    now: int, slept: seq<nat>, logCalls: seq<Note>, sent: seq<Sent>)

  /** What handing an attempt to the transport does: it is recorded, and the clock advances by its duration. */
  function Dispatched(st: SessionState, s: Sent, elapsed: nat): SessionState {
    st.(sent := st.sent + [s], now := st.now + elapsed)
  }

  /** What `response_hook` does to the state: stop the timer, remember the response, add a history entry. */
  function HookState(st: SessionState, resp: Response): SessionState {
    var h := Hook(resp, st.timerStart, st.now);
    st.(timerEnd := st.now, lastResponse := Present(h),
        sessionsLog := st.sessionsLog + [Completed(resp.requestUrl, resp.status, h.connectionTime)])
  }

  /** What an answer does: the hook, then the allowed-codes check. */
  function AfterAnswer(st: SessionState, resp: Response, opts: Kwargs): SessionState {
    var st1 := HookState(st, resp);
    st1.(logCalls := st1.logCalls + BadResponseLogCalls(opts, resp))
  }

  /** What a cancelling failure does before CancelledRequest is raised: at most a log line. */
  function AfterCancel(st: SessionState, e: Exc): SessionState {
    st.(logCalls := st.logCalls + CancelLogCalls(e))
  }

  /** What a retried failure records: log, forget the last response, stop the timer, add a history entry. */
  function Recorded(st: SessionState, url: string, e: Exc, retryLog: string): SessionState {
    st.(logCalls := st.logCalls + FailureLogCalls(e, retryLog), lastResponse := Cleared, timerEnd := st.now,
        sessionsLog := st.sessionsLog + [Failed(url, RecordedError(e), st.now - st.timerStart)])
  }

  /** A sleep of `ms` milliseconds. */
  function Slept(st: SessionState, ms: nat): SessionState {
    st.(now := st.now + ms, slept := st.slept + [ms])
  }

  /** The pause after a retried failure, skipped when the delay is zero. */
  function Paused(st: SessionState, delay: nat): SessionState {
    if delay != 0 then Slept(st, delay) else st
  }

  /** What one retried failure does to the state. */
  function AfterFailure(st: SessionState, url: string, e: Exc, delay: nat, retryLog: string): SessionState {
    Paused(Recorded(st, url, e, retryLog), delay)
  }

  /**
   * The loop of `request` from attempt `count` on, as a function of the state: each attempt is sent
   * with the same options and advances the clock; an answer goes through the hook and ends the
   * loop, a cancelling failure ends it with CancelledRequest, any other failure is recorded and the
   * seventh ends it with MaxRequestsExceed.
   */
  function RunFrom(st: SessionState, verb: string, url: string, opts: Kwargs, outs: seq<Attempt>,
                   delay: nat, retryLog: string, count: nat): (SessionState, Reply)
    requires count < MaxAttempts <= |outs|
    decreases MaxAttempts - count
  {
    var a := outs[count];
    var st1 := Dispatched(st, Sent(verb, url, opts), a.elapsed);
    match a
    case Answered(resp, _) => (AfterAnswer(st1, resp, opts), Got(Hook(resp, st1.timerStart, st1.now)))
    case Threw(e, _) =>
      if IsCancel(e) then (AfterCancel(st1, e), Raised(CancelledRequest))
      else
        var st2 := AfterFailure(st1, url, e, delay, retryLog);
        if count + 1 == MaxAttempts then (st2, Raised(MaxRequestsExceed))
        else RunFrom(st2, verb, url, opts, outs, delay, retryLog, count + 1)
  }

  /** An answered attempt ends the loop with the hooked response. */
  lemma RunFromAnswered(st: SessionState, verb: string, url: string, opts: Kwargs, outs: seq<Attempt>,
                        delay: nat, retryLog: string, k: nat)
    requires k < MaxAttempts <= |outs| && outs[k].Answered?
    ensures var st1 := Dispatched(st, Sent(verb, url, opts), outs[k].elapsed);
      RunFrom(st, verb, url, opts, outs, delay, retryLog, k)
      == (AfterAnswer(st1, outs[k].response, opts), Got(Hook(outs[k].response, st1.timerStart, st1.now)))
  {
  }

  /** A cancelling failure ends the loop with CancelledRequest and no history entry. */
  lemma RunFromCancelled(st: SessionState, verb: string, url: string, opts: Kwargs, outs: seq<Attempt>,
                         delay: nat, retryLog: string, k: nat)
    requires k < MaxAttempts <= |outs| && outs[k].Threw? && IsCancel(outs[k].exc)
    ensures RunFrom(st, verb, url, opts, outs, delay, retryLog, k)
         == (AfterCancel(Dispatched(st, Sent(verb, url, opts), outs[k].elapsed), outs[k].exc), Raised(CancelledRequest))
  {
  }

  /** A retried failure that is not the seventh hands the loop on to the next attempt. */
  lemma RunFromFailure(st: SessionState, verb: string, url: string, opts: Kwargs, outs: seq<Attempt>,
                       delay: nat, retryLog: string, k: nat)
    requires k + 1 < MaxAttempts <= |outs| && Retryable(outs[k])
    ensures RunFrom(st, verb, url, opts, outs, delay, retryLog, k)
         == RunFrom(AfterFailure(Dispatched(st, Sent(verb, url, opts), outs[k].elapsed), url, outs[k].exc, delay, retryLog),
                    verb, url, opts, outs, delay, retryLog, k + 1)
  {
  }

  /** The seventh retried failure ends the loop with MaxRequestsExceed. */
  lemma RunFromLastFailure(st: SessionState, verb: string, url: string, opts: Kwargs, outs: seq<Attempt>,
                           delay: nat, retryLog: string)
    requires MaxAttempts <= |outs| && Retryable(outs[MaxAttempts - 1])
    ensures RunFrom(st, verb, url, opts, outs, delay, retryLog, MaxAttempts - 1)
         == (AfterFailure(Dispatched(st, Sent(verb, url, opts), outs[MaxAttempts - 1].elapsed), url,
                          outs[MaxAttempts - 1].exc, delay, retryLog),
             Raised(MaxRequestsExceed))
  {
  }

  /** `request` as a function of the state: start the timer, normalise the options, run the loop. */
  function RunRequest(st: SessionState, verb: string, url: string, kwargs: Kwargs, outs: seq<Attempt>,
                      delay: nat, retryLog: string): (SessionState, Reply)
    requires MaxAttempts <= |outs| && 0 <= st.now
  {
    RunFrom(Started(st), verb, url, Normalise(kwargs, NoCacheToken(st.now)), outs, delay, retryLog, 0)
  }

  /** The state once the timer is started. */
  function Started(st: SessionState): SessionState {
    st.(timerStart := st.now)
  }

  /** The state after the first `k` attempts all failed and were retried, in closed form. */
  function Advance(st: SessionState, verb: string, url: string, opts: Kwargs, outs: seq<Attempt>,
                   delay: nat, retryLog: string, k: nat): SessionState
    requires k <= |outs| && forall j | 0 <= j < k :: outs[j].Threw?
  {
    st.(sessionsLog := st.sessionsLog + FailEntries(url, outs, delay, k),
        lastResponse := if k == 0 then st.lastResponse else Cleared,
        timerEnd := if k == 0 then st.timerEnd else st.timerStart + Offset(outs, delay, k - 1) + outs[k - 1].elapsed,
        now := st.timerStart + Offset(outs, delay, k),
        slept := st.slept + Pauses(delay, k),
        logCalls := st.logCalls + FailLogs(outs, retryLog, k),
        sent := st.sent + Repeat(Sent(verb, url, opts), k))
  }

  /** The state one more retried failure leads to, from the closed form after `k`. */
  function StepFrom(st: SessionState, verb: string, url: string, opts: Kwargs, outs: seq<Attempt>,
                    delay: nat, retryLog: string, k: nat): SessionState
    requires k < |outs| && forall j | 0 <= j <= k :: outs[j].Threw?
  {
    AfterFailure(Dispatched(Advance(st, verb, url, opts, outs, delay, retryLog, k), Sent(verb, url, opts), outs[k].elapsed),
                 url, outs[k].exc, delay, retryLog)
  }

  /** One more retried failure appends its history entry. */
  lemma AdvanceStepEntries(st: SessionState, verb: string, url: string, opts: Kwargs, outs: seq<Attempt>,
                           delay: nat, retryLog: string, k: nat)
    requires k < |outs| && forall j | 0 <= j <= k :: outs[j].Threw?
    ensures StepFrom(st, verb, url, opts, outs, delay, retryLog, k).sessionsLog
         == Advance(st, verb, url, opts, outs, delay, retryLog, k + 1).sessionsLog
  {
    var entry := Failed(url, RecordedError(outs[k].exc), Offset(outs, delay, k) + outs[k].elapsed);
    var es := FailEntries(url, outs, delay, k);
    var d := Dispatched(Advance(st, verb, url, opts, outs, delay, retryLog, k), Sent(verb, url, opts), outs[k].elapsed);
    var r := Recorded(d, url, outs[k].exc, retryLog);
    assert Paused(r, delay).sessionsLog == r.sessionsLog;
    assert d.sessionsLog == st.sessionsLog + es && d.now - d.timerStart == Offset(outs, delay, k) + outs[k].elapsed;
    assert r.sessionsLog == st.sessionsLog + es + [entry];
    assert FailEntries(url, outs, delay, k + 1) == es + [entry];
    assert st.sessionsLog + es + [entry] == st.sessionsLog + (es + [entry]);
  }

  /** One more retried failure appends its log lines. */
  lemma AdvanceStepLogs(st: SessionState, verb: string, url: string, opts: Kwargs, outs: seq<Attempt>,
                        delay: nat, retryLog: string, k: nat)
    requires k < |outs| && forall j | 0 <= j <= k :: outs[j].Threw?
    ensures StepFrom(st, verb, url, opts, outs, delay, retryLog, k).logCalls
         == Advance(st, verb, url, opts, outs, delay, retryLog, k + 1).logCalls
  {
  }

  /** One more retried failure appends its attempt. */
  lemma AdvanceStepSent(st: SessionState, verb: string, url: string, opts: Kwargs, outs: seq<Attempt>,
                        delay: nat, retryLog: string, k: nat)
    requires k < |outs| && forall j | 0 <= j <= k :: outs[j].Threw?
    ensures StepFrom(st, verb, url, opts, outs, delay, retryLog, k).sent
         == Advance(st, verb, url, opts, outs, delay, retryLog, k + 1).sent
  {
    var x := Sent(verb, url, opts);
    assert Repeat(x, k) + [x] == Repeat(x, k + 1);
  }

  /** One more retried failure advances the clock by its duration and the pause, and stops the timer. */
  lemma AdvanceStepClock(st: SessionState, verb: string, url: string, opts: Kwargs, outs: seq<Attempt>,
                         delay: nat, retryLog: string, k: nat)
    requires k < |outs| && forall j | 0 <= j <= k :: outs[j].Threw?
    ensures var lhs := StepFrom(st, verb, url, opts, outs, delay, retryLog, k);
      var rhs := Advance(st, verb, url, opts, outs, delay, retryLog, k + 1);
      lhs.now == rhs.now && lhs.timerEnd == rhs.timerEnd && lhs.slept == rhs.slept
  {
    if delay != 0 {
      assert st.slept + Pauses(delay, k + 1) == st.slept + Pauses(delay, k) + [delay];
    }
  }

  /** One more retried failure extends the closed form by one attempt. */
  lemma AdvanceStep(st: SessionState, verb: string, url: string, opts: Kwargs, outs: seq<Attempt>,
                    delay: nat, retryLog: string, k: nat)
    requires k < |outs| && forall j | 0 <= j <= k :: outs[j].Threw?
    ensures StepFrom(st, verb, url, opts, outs, delay, retryLog, k) == Advance(st, verb, url, opts, outs, delay, retryLog, k + 1)
  {
    AdvanceStepEntries(st, verb, url, opts, outs, delay, retryLog, k);
    AdvanceStepLogs(st, verb, url, opts, outs, delay, retryLog, k);
    AdvanceStepSent(st, verb, url, opts, outs, delay, retryLog, k);
    AdvanceStepClock(st, verb, url, opts, outs, delay, retryLog, k);
  }

  /** Before any failure the closed form is the started state itself. */
  lemma AdvanceZero(st: SessionState, verb: string, url: string, opts: Kwargs, outs: seq<Attempt>,
                    delay: nat, retryLog: string)
    requires st.timerStart == st.now
    ensures Advance(st, verb, url, opts, outs, delay, retryLog, 0) == st
  {
    assert st.sessionsLog + [] == st.sessionsLog && st.slept + [] == st.slept;
    assert st.logCalls + [] == st.logCalls && st.sent + [] == st.sent;
  }

  /** The retried failures before attempt `k` bring the loop, in closed form, to attempt `k`. */
  lemma {:induction false} RunFromRetried(st: SessionState, verb: string, url: string, opts: Kwargs,
                                          outs: seq<Attempt>, delay: nat, retryLog: string, k: nat)
    requires MaxAttempts <= |outs| && k < MaxAttempts && k <= Retried(outs) && st.timerStart == st.now
    ensures RunFrom(st, verb, url, opts, outs, delay, retryLog, 0)
         == RunFrom(Advance(st, verb, url, opts, outs, delay, retryLog, k), verb, url, opts, outs, delay, retryLog, k)
  {
    if k == 0 {
      AdvanceZero(st, verb, url, opts, outs, delay, retryLog);
    } else {
      var j := k - 1;
      RunFromRetried(st, verb, url, opts, outs, delay, retryLog, j);
      var before := Advance(st, verb, url, opts, outs, delay, retryLog, j);
      RunFromFailure(before, verb, url, opts, outs, delay, retryLog, j);
      AdvanceStep(st, verb, url, opts, outs, delay, retryLog, j);
      var next := StepFrom(st, verb, url, opts, outs, delay, retryLog, j);
      assert RunFrom(before, verb, url, opts, outs, delay, retryLog, j) == RunFrom(next, verb, url, opts, outs, delay, retryLog, j + 1);
    }
  }

  /**
   * `request` when all seven attempts fail and are retried: MaxRequestsExceed, seven history
   * entries and seven sets of log lines, one sleep per failure (none when the delay is zero),
   * seven sends of the same normalised options, and the timer started once.
   */
  lemma RequestExhausted(st: SessionState, verb: string, url: string, kwargs: Kwargs, outs: seq<Attempt>,
                         delay: nat, retryLog: string)
    requires MaxAttempts <= |outs| && 0 <= st.now && Retried(outs) == MaxAttempts
    ensures var (st', r) := RunRequest(st, verb, url, kwargs, outs, delay, retryLog);
      var n := MaxAttempts;
      var t := st.now;
      && r == Raised(MaxRequestsExceed)
      && st'.timerStart == t
      && st'.sent == st.sent + Repeat(Sent(verb, url, Normalise(kwargs, NoCacheToken(t))), n)
      && st'.slept == st.slept + Pauses(delay, n)
      && st'.sessionsLog == st.sessionsLog + FailEntries(url, outs, delay, n)
      && st'.logCalls == st.logCalls + FailLogs(outs, retryLog, n)
      && st'.lastResponse == Cleared
      && st'.now == t + Offset(outs, delay, n)
      && st'.timerEnd == t + Offset(outs, delay, n - 1) + outs[n - 1].elapsed
  {
    var st0 := Started(st);
    var opts := Normalise(kwargs, NoCacheToken(st.now));
    RunFromRetried(st0, verb, url, opts, outs, delay, retryLog, MaxAttempts - 1);
    RunFromLastFailure(Advance(st0, verb, url, opts, outs, delay, retryLog, MaxAttempts - 1), verb, url, opts, outs, delay, retryLog);
    AdvanceStep(st0, verb, url, opts, outs, delay, retryLog, MaxAttempts - 1);
  }

  /**
   * `request` when attempt `n` is answered after `n` retried failures: the hooked response, timed
   * from the single timer start, is returned and recorded after the `n` failure entries, and the
   * attempt is the last one sent.
   */
  lemma RequestAnswered(st: SessionState, verb: string, url: string, kwargs: Kwargs, outs: seq<Attempt>,
                        delay: nat, retryLog: string)
    requires MaxAttempts <= |outs| && 0 <= st.now
    requires Retried(outs) < MaxAttempts && outs[Retried(outs)].Answered?
    ensures var (st', r) := RunRequest(st, verb, url, kwargs, outs, delay, retryLog);
      var n := Retried(outs);
      var t := st.now;
      var opts := Normalise(kwargs, NoCacheToken(t));
      var h := Hook(outs[n].response, t, t + Offset(outs, delay, n) + outs[n].elapsed);
      && r == Got(h)
      && st'.timerStart == t
      && st'.sent == st.sent + Repeat(Sent(verb, url, opts), n + 1)
      && st'.slept == st.slept + Pauses(delay, n)
      && st'.lastResponse == Present(h)
      && st'.sessionsLog == st.sessionsLog + FailEntries(url, outs, delay, n)
                            + [Completed(outs[n].response.requestUrl, outs[n].response.status, h.connectionTime)]
      && st'.logCalls == st.logCalls + FailLogs(outs, retryLog, n) + BadResponseLogCalls(opts, outs[n].response)
      && st'.now == st'.timerEnd == t + Offset(outs, delay, n) + outs[n].elapsed
  {
    var st0 := Started(st);
    var opts := Normalise(kwargs, NoCacheToken(st.now));
    var n := Retried(outs);
    var x := Sent(verb, url, opts);
    RunFromRetried(st0, verb, url, opts, outs, delay, retryLog, n);
    RunFromAnswered(Advance(st0, verb, url, opts, outs, delay, retryLog, n), verb, url, opts, outs, delay, retryLog, n);
    assert Repeat(x, n) + [x] == Repeat(x, n + 1);
    assert st.sent + Repeat(x, n) + [x] == st.sent + Repeat(x, n + 1);
  }

  /**
   * `request` when attempt `n` is a cancelling failure after `n` retried failures:
   * CancelledRequest, with no history entry and no sleep for that attempt, and the last response
   * untouched when it is the first attempt.
   */
  lemma RequestCancelled(st: SessionState, verb: string, url: string, kwargs: Kwargs, outs: seq<Attempt>,
                         delay: nat, retryLog: string)
    requires MaxAttempts <= |outs| && 0 <= st.now
    requires Retried(outs) < MaxAttempts && outs[Retried(outs)].Threw?
    ensures var (st', r) := RunRequest(st, verb, url, kwargs, outs, delay, retryLog);
      var n := Retried(outs);
      var t := st.now;
      && r == Raised(CancelledRequest)
      && st'.timerStart == t
      && st'.sent == st.sent + Repeat(Sent(verb, url, Normalise(kwargs, NoCacheToken(t))), n + 1)
      && st'.slept == st.slept + Pauses(delay, n)
      && st'.sessionsLog == st.sessionsLog + FailEntries(url, outs, delay, n)
      && st'.logCalls == st.logCalls + FailLogs(outs, retryLog, n) + CancelLogCalls(outs[n].exc)
      && st'.lastResponse == (if n == 0 then st.lastResponse else Cleared)
      && st'.now == t + Offset(outs, delay, n) + outs[n].elapsed
      && st'.timerEnd == (if n == 0 then st.timerEnd else t + Offset(outs, delay, n - 1) + outs[n - 1].elapsed)
  {
    var st0 := Started(st);
    var opts := Normalise(kwargs, NoCacheToken(st.now));
    var n := Retried(outs);
    var x := Sent(verb, url, opts);
    RunFromRetried(st0, verb, url, opts, outs, delay, retryLog, n);
    RunFromCancelled(Advance(st0, verb, url, opts, outs, delay, retryLog, n), verb, url, opts, outs, delay, retryLog, n);
    assert Repeat(x, n) + [x] == Repeat(x, n + 1);
    assert st.sent + Repeat(x, n) + [x] == st.sent + Repeat(x, n + 1);
  }

  /**
   * Whatever the answers, `request` sends `AttemptsMade` requests and adds one history entry per
   * attempt except a cancelling one; it pauses once per retried failure unless the delay is zero.
   */
  lemma RequestAttempts(st: SessionState, verb: string, url: string, kwargs: Kwargs, outs: seq<Attempt>,
                        delay: nat, retryLog: string)
    requires MaxAttempts <= |outs| && 0 <= st.now
    ensures var (st', r) := RunRequest(st, verb, url, kwargs, outs, delay, retryLog);
      && |st'.sent| == |st.sent| + AttemptsMade(outs)
      && |st'.sessionsLog| == |st.sessionsLog| + AttemptsMade(outs) - (if r == Raised(CancelledRequest) then 1 else 0)
      && |st'.slept| == |st.slept| + (if delay == 0 then 0 else Retried(outs))
      && (r == Raised(MaxRequestsExceed) <==> Retried(outs) == MaxAttempts)
  {
    var n := Retried(outs);
    if n == MaxAttempts {
      RequestExhausted(st, verb, url, kwargs, outs, delay, retryLog);
    } else if outs[n].Answered? {
      RequestAnswered(st, verb, url, kwargs, outs, delay, retryLog);
    } else {
      RequestCancelled(st, verb, url, kwargs, outs, delay, retryLog);
    }
  }

  // ---------------------------------------------------------------------------
  // The session
  // ---------------------------------------------------------------------------

  class PowerSession {
    const log: Logging.Logger
    const errorDelay: nat
    const retryLog: string
    var sessionsLog: seq<Entry>
    var lastResponse: LastResponse
    var timerStart: int
    var timerEnd: int
    /** The wall clock, in milliseconds. */
    var now: int
    /** The sleeps the session has taken, in milliseconds. */
    var slept: seq<nat>
    /** The calls the session has made on its logger. */
    var logCalls: seq<Note>
    /** The attempts handed to the transport. */
    var sent: seq<Sent>

    /** The session's mutable fields as one value. */
    function State(): SessionState
      reads this
    {
      SessionState(sessionsLog, lastResponse, timerStart, timerEnd, now, slept, logCalls, sent)
    }

    /** A session with an empty history; its logger is the given one, or a default-layout one named after the session. */
    constructor (log: Option<Logging.Logger>, errorDelay: nat, sessionName: string, clock: int)
      ensures this.log == if log.Some? then log.value else Logging.Logger(sessionName, false, false)
      ensures this.errorDelay == errorDelay && retryLog == RetryLog(errorDelay)
      ensures sessionsLog == [] && lastResponse == Unset && timerStart == 0 && timerEnd == 0
      ensures now == clock && slept == [] && logCalls == [] && sent == []
    {
      this.log := if log.Some? then log.value else Logging.Logger(sessionName, false, false);
      this.errorDelay := errorDelay;
      retryLog := RetryLog(errorDelay);
      sessionsLog := [];
      lastResponse := Unset;
      timerStart, timerEnd := 0, 0;
      now := clock;
      slept, logCalls, sent := [], [], [];
    }

    /** `response_hook`: times the exchange, attaches soup and domain, remembers it and logs it. */
    method ResponseHook(resp: Response) returns (h: Hooked)
      modifies this
      ensures h == Hook(resp, old(timerStart), old(now))
      ensures State() == HookState(old(State()), resp)
    {
      timerEnd := now;
      h := Hook(resp, timerStart, now);
      lastResponse := Present(h);
      sessionsLog := sessionsLog + [Completed(resp.requestUrl, resp.status, h.connectionTime)];
    }

    /** `sleep`: blocks for `ms` milliseconds. */
    method Sleep(ms: nat)
      modifies this
      ensures State() == Slept(old(State()), ms)
    {
      now := now + ms;
      slept := slept + [ms];
    }

    /** `make_request`: hands one attempt to the transport, which takes `attempt.elapsed` milliseconds. */
    method MakeRequest(verb: string, url: string, opts: Kwargs, attempt: Attempt)
      modifies this
      ensures State() == Dispatched(old(State()), Sent(verb, url, opts), attempt.elapsed)
    {
      sent := sent + [Sent(verb, url, opts)];
      now := now + attempt.elapsed;
    }

    /** The `except` clause's log lines, then the bookkeeping after a failure that will be retried. */
    method RecordFailure(url: string, e: Exc)
      modifies this
      ensures State() == Recorded(old(State()), url, e, retryLog)
    {
      logCalls := logCalls + FailureLogCalls(e, retryLog);
      lastResponse := Cleared;
      timerEnd := now;
      sessionsLog := sessionsLog + [Failed(url, RecordedError(e), timerEnd - timerStart)];
    }

    /** Everything after a retried failure and before the count: the record, then the pause unless the delay is zero. */
    method AfterRetriedFailure(url: string, e: Exc)
      modifies this
      ensures State() == AfterFailure(old(State()), url, e, errorDelay, retryLog)
    {
      RecordFailure(url, e);
      if errorDelay != 0 {
        Sleep(errorDelay);
      }
    }

    /**
     * `request`: one logical request. The answers in `outs` are those the network gives to the
     * successive attempts; the loop consumes at most seven of them. RequestExhausted,
     * RequestAnswered and RequestCancelled spell out the resulting state.
     */
    method Request(verb: string, url: string, kwargs: Kwargs, outs: seq<Attempt>) returns (r: Reply)
      requires MaxAttempts <= |outs| && 0 <= now
      modifies this
      ensures (State(), r) == RunRequest(old(State()), verb, url, kwargs, outs, errorDelay, retryLog)
    {
      ghost var goal := RunRequest(State(), verb, url, kwargs, outs, errorDelay, retryLog);
      var count := 0;
      timerStart := now;
      var opts := Normalise(kwargs, NoCacheToken(now));
      while true
        invariant count < MaxAttempts
        invariant RunFrom(State(), verb, url, opts, outs, errorDelay, retryLog, count) == goal
        decreases MaxAttempts - count
      {
        ghost var st := State();
        var attempt := outs[count];
        MakeRequest(verb, url, opts, attempt);
        ghost var st1 := State();
        match attempt {
          case Answered(resp, _) =>
            var h := ResponseHook(resp);
            logCalls := logCalls + BadResponseLogCalls(opts, resp);
            assert State() == AfterAnswer(st1, resp, opts);
            RunFromAnswered(st, verb, url, opts, outs, errorDelay, retryLog, count);
            return Got(h);
          case Threw(e, _) =>
            if IsCancel(e) {
              logCalls := logCalls + CancelLogCalls(e);
              assert State() == AfterCancel(st1, e);
              RunFromCancelled(st, verb, url, opts, outs, errorDelay, retryLog, count);
              return Raised(CancelledRequest);
            }
            AfterRetriedFailure(url, e);
            if count + 1 < MaxAttempts {
              RunFromFailure(st, verb, url, opts, outs, errorDelay, retryLog, count);
              assert RunFrom(State(), verb, url, opts, outs, errorDelay, retryLog, count + 1) == goal;
            } else {
              RunFromLastFailure(st, verb, url, opts, outs, errorDelay, retryLog);
            }
            count := count + 1;
            if count == MaxAttempts {
              return Raised(MaxRequestsExceed);
            }
        }
      }
    }

    /** `get_domain` of a URL (`pure_www` wins over `pure`). */
    static function DomainOf(u: string, pure: bool, pureWww: bool): string {
      if pureWww then Netloc(u)
      else if pure then RemoveAll(Netloc(u), "www.")
      else "https://" + Netloc(u)
    }

    /** `get_domain`: of `url` when truthy, else of the last response's URL when that is truthy, else None. */
    function GetDomain(url: Option<string>, pure: bool, pureWww: bool): (r: Option<string>)
      reads this
      ensures r.None? <==> (url.None? || url.value == "") && !(lastResponse.Present? && lastResponse.hooked.response.url != "")
      ensures url.Some? && url.value != "" ==> r == Some(DomainOf(url.value, pure, pureWww))
      ensures (url.None? || url.value == "") && lastResponse.Present? ==>
        r == if lastResponse.hooked.response.url != "" then Some(DomainOf(lastResponse.hooked.response.url, pure, pureWww)) else None
      decreases if url.Some? && url.value != "" then 0 else 1
    {
      if url.Some? && url.value != "" then Some(DomainOf(url.value, pure, pureWww))
      else if lastResponse.Present? && lastResponse.hooked.response.url != "" then
        GetDomain(Some(lastResponse.hooked.response.url), pure, pureWww)
      else None
    }
  }

  // ---------------------------------------------------------------------------
  // Domains
  // ---------------------------------------------------------------------------

  /**
   * The `domain` the hook attaches, for a request URL "scheme://[user@]host[:port]<tail>": the
   * scheme and the bare host, both in lower case, joined by "://".
   */
  lemma HookDomainOfBuiltUrl(resp: Response, start: int, end: int, scheme: string, user: Option<string>, host: string, port: string, tail: string)
    requires IsSchemeName(scheme) && host != [] && PlainHost(host)
    requires user.Some? ==> Avoids(user.value, {'/', '?', '#'})
    requires port == [] || port[0] == ':'
    requires Avoids(port, {'/', '?', '#', '@'})
    requires tail == [] || tail[0] in {'/', '?', '#'}
    requires resp.requestUrl == scheme + "://" + Authority(user, host, port) + tail
    ensures Hook(resp, start, end).Domain() == Lower(scheme) + "://" + Lower(host)
  {
    HostnameOfBuiltUrl(scheme, user, host, port, tail);
  }

  /** `get_domain` of a URL "scheme://location<tail>": the location, with or without "www.", or after "https://". */
  lemma DomainOfBuiltUrl(scheme: string, location: string, tail: string)
    requires IsSchemeName(scheme)
    requires Avoids(location, {'/', '?', '#'})
    requires tail == [] || tail[0] in {'/', '?', '#'}
    ensures forall pure :: PowerSession.DomainOf(scheme + "://" + location + tail, pure, true) == location
    ensures PowerSession.DomainOf(scheme + "://" + location + tail, true, false) == RemoveAll(location, "www.")
    ensures PowerSession.DomainOf(scheme + "://" + location + tail, false, false) == "https://" + location
  {
    ParseBuiltUrl(scheme, location, tail);
  }

  /** "https://www." and a host, taken apart as a scheme, "://" and a location without '/', '?' or '#'. */
  lemma WwwUrl(host: string)
    requires Avoids(host, {'/', '?', '#'})
    ensures "https://www." + host == "https" + "://" + ("www." + host) + ""
    ensures "https://" + ("www." + host) == "https://www." + host
    ensures Avoids("www." + host, {'/', '?', '#'})
  {
    var location := "www." + host;
    forall i | 0 <= i < |location| ensures location[i] !in {'/', '?', '#'} {
      if i >= 4 { assert location[i] == host[i - 4]; }
    }
  }

  /**
   * The three forms `get_domain` documents, for "https://www." and a host without "www." such
   * as google.com: "https://www.google.com", "google.com" and "www.google.com".
   */
  lemma DomainForms(host: string)
    requires Avoids(host, {'/', '?', '#'}) && !Contains(host, "www.")
    ensures PowerSession.DomainOf("https://www." + host, false, false) == "https://www." + host
    ensures PowerSession.DomainOf("https://www." + host, true, false) == host
    ensures PowerSession.DomainOf("https://www." + host, false, true) == "www." + host
  {
    WwwUrl(host);
    DomainOfBuiltUrl("https", "www." + host, "");
    RemoveAllOnlyLeading("www.", host);
  }
}
