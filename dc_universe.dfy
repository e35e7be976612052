/**
 * `DcUniverse.start` of main.py: a chain of guarded steps that walks from the landing page to
 * the waiting room, then the status-poll loop. Each session call is an input (the response it
 * returned, or the error it raised), and what `start` does to the world is a trace of events.
 * A session call is one `Requested` event: the attempts, pauses and log lines of
 * `PowerSession.request` inside it are modelled by `RequestUtils.PowerSession.Request`.
 */
module DcUniverse {

  import opened Wrappers
  import opened Strings
  import Logging
  import RequestUtils

  /** The waiting-room host the landing page must redirect to. */
  const QueueItHost := "iobuilders.queue-it.net"

  /** The `sets` parameter of a status poll lags the clock by five minutes. */
  const SetsLag := 60 * 5

  // ---------------------------------------------------------------------------
  // What the session calls return
  // ---------------------------------------------------------------------------

  /** A session call's result: a response (status, final URL, what `start` reads of it), or the error it raised. */
  datatype Answer<T> = Replied(status: nat, url: string, body: T) | Failed(error: RequestUtils.RequestError)

  /** The `queue-it_log` meta tag: absent, or present with its `data-userid` attribute (None when missing). */
  datatype MetaTag = NoMeta | Meta(userid: Option<string>)

  /** The queue page as parsed: no soup (the text was empty), or a document and its meta tag. */
  datatype Page = Blank | Html(meta: MetaTag)

  /** The enqueue answer's body: not JSON, or an object and its `queueId` (None when missing). */
  datatype EnqueueBody = NotJson | Enqueued(queueId: Option<string>)

  /**
   * A status answer's body: not JSON, or an object with `updateInterval` (milliseconds),
   * `redirectUrl` and the ticket fields as `str` renders them (None when missing).
   */
  datatype PollBody =
    | ParseError
    | Json(updateInterval: Option<int>, redirectUrl: Option<string>,
           queueNumber: Option<string>, usersAhead: Option<string>, whichIsIn: Option<string>)

  /** One status poll: the clock in whole seconds when it is sent, and its answer. */
  datatype Poll = Poll(at: int, answer: Answer<PollBody>)

  /** The answers of the session calls `start` makes, in order. */
  datatype Script = Script(
    landing: Answer<()>, queuePage: Answer<Page>, enqueue: Answer<EnqueueBody>,
    preflight: Answer<()>, timings: Answer<()>, polls: seq<Poll>)

  // ---------------------------------------------------------------------------
  // What start does
  // ---------------------------------------------------------------------------

  /** The requests `start` issues through the session. */
  datatype Request =
    | GetLanding
    | GetQueuePage(url: string)
    | PostEnqueue(userid: string, referer: string)
    | OptionsTimings
    | PostTimings
    | PostStatus(queueId: string, sets: int)

  /** The lines `start` logs. */
  datatype Note =
    | WrongLanding
    | NoQueueItLog
    | QueueItLog(userid: string)
    | NoQueueId
    | QueueIdIs(queueId: string)
    | TimingsError
    | OptionsOk
    | PostTimingsOk
    | QueueStatus(ok: bool, queueNumber: Option<string>, usersAhead: Option<string>, whichIsIn: Option<string>)
    | QueueError
    | Target(url: Option<string>)
  {
    /** The logger method the line goes through. */
    function Status(): string {
      match this
      case QueueItLog(_) => "success"
      case Target(_) => "success"
      case QueueIdIs(_) => "status"
      case OptionsOk => "status"
      case PostTimingsOk => "status"
      case QueueStatus(_, _, _, _) => "info"
      case _ => "error"
    }

    /** The message handed to the logger. */
    function Message(): Logging.Message {
      match this
      case WrongLanding => Logging.Str("Something went wrong with the request.")
      case NoQueueItLog => Logging.Str("Can't find QUEUE_IT_LOG")
      case QueueItLog(u) => Logging.Str("QUEUE_IT_LOG: u=" + u)
      case NoQueueId => Logging.Str("Can't find QUEUE_ID")
      case QueueIdIs(q) => Logging.Str("QueueID: " + q)
      case TimingsError => Logging.Str("Error on setting Timings")
      case OptionsOk => Logging.Str("OPTIONS timings OK")
      case PostTimingsOk => Logging.Str("POST timings OK")
      case QueueStatus(ok, n, a, w) =>
        Logging.Str("Queue status: [" + (if ok then "OK" else "ERROR") + "] Queue Number: " + Show(n)
                    + ", User Before Me: " + Show(a) + ". " + Show(w))
      case QueueError => Logging.Str("Error in Queue")
      case Target(t) => if t.Some? then Logging.Str(t.value) else Logging.Obj("NoneType", "None")
    }
  }

  /** `str` of an optional value. */
  function Show(v: Option<string>): string {
    if v.Some? then v.value else "None"
  }

  /** An effect of `start`: a request, a sleep in milliseconds, a log line, the Telegram notification. */
  datatype Event = Requested(request: Request) | Slept(ms: int) | Logged(note: Note) | Notified(url: Option<string>)

  /** Why `start` ends with an exception: the session raised, the page had no soup, `None / 1000`, a negative sleep. */
  datatype Crash = Raised(error: RequestUtils.RequestError) | NoSoup | NoInterval | NegativeSleep

  /**
   * How `start` ends: an early return after an error line, an exception, the final success line
   * with the redirect target, or (only because the script is finite) the polls running out.
   */
  datatype Outcome = Stopped | Crashed(crash: Crash) | Finished(target: Option<string>) | PollsRanOut

  /** How the poll loop ends. */
  datatype PollEnd = Broke(target: Option<string>) | PollCrash(crash: Crash) | RanOut

  /** Python truth value of an optional string. */
  predicate Truthy(v: Option<string>) { v.Some? && v.value != "" }

  /** Python truth value of an optional number. */
  predicate IntervalTruthy(v: Option<int>) { v.Some? && v.value != 0 }

  /** `response.ok`: no 4xx or 5xx status. */
  predicate ResponseOk(status: nat) { !(400 <= status < 600) }

  /** The user id the meta tag gives, None when there is no tag. */
  function MetaUserId(m: MetaTag): Option<string> {
    if m.Meta? then m.userid else None
  }

  /** A run whose events are preceded by `prefix`. */
  function Then<R>(prefix: seq<Event>, run: (R, seq<Event>)): (R, seq<Event>) {
    (run.0, prefix + run.1)
  }

  lemma ThenThen<R>(a: seq<Event>, b: seq<Event>, run: (R, seq<Event>))
    ensures Then(a, Then(b, run)) == Then(a + b, run)
  {
    assert a + (b + run.1) == a + b + run.1;
  }

  // ---------------------------------------------------------------------------
  // The reference run
  // ---------------------------------------------------------------------------

  /**
   * The poll loop from poll `i` on, `redirect` holding `redirect_target` so far: each poll sends
   * one status POST; a body that is not JSON logs "Error in Queue" and breaks with the target of
   * the last parsed poll; otherwise the status line is logged, the loop breaks when the interval
   * is falsy and the redirect truthy, and else sleeps for the interval.
   */
  function PollsFrom(queueId: string, polls: seq<Poll>, i: nat, redirect: Option<string>): (PollEnd, seq<Event>)
    requires i <= |polls|
    decreases |polls| - i
  {
    if i == |polls| then (RanOut, [])
    else
      var p := polls[i];
      var sent := [Requested(PostStatus(queueId, p.at - SetsLag))];
      match p.answer
      case Failed(e) => (PollCrash(Raised(e)), sent)
      case Replied(status, _, body) =>
        match body
        case ParseError => (Broke(redirect), sent + [Logged(QueueError)])
        case Json(interval, target, number, ahead, which) =>
          var logged := sent + [Logged(QueueStatus(ResponseOk(status), number, ahead, which))];
          if !IntervalTruthy(interval) && Truthy(target) then (Broke(target), logged)
          else if interval.None? then (PollCrash(NoInterval), logged)
          else if interval.value < 0 then (PollCrash(NegativeSleep), logged)
          else Then(logged + [Slept(interval.value)], PollsFrom(queueId, polls, i + 1, target))
  }

  /** The Telegram notification, when it is enabled. */
  function Notify(useTelegram: bool, t: Option<string>): seq<Event> {
    if useTelegram then [Notified(t)] else []
  }

  /** After the loop: the success line with the target and, when enabled, the notification. */
  function AfterPolls(run: (PollEnd, seq<Event>), useTelegram: bool): (Outcome, seq<Event>) {
    match run.0
    case Broke(t) => (Finished(t), run.1 + [Logged(Target(t))] + Notify(useTelegram, t))
    case PollCrash(c) => (Crashed(c), run.1)
    case RanOut => (PollsRanOut, run.1)
  }

  /** From the timings POST's answer on: "POST timings OK" only for 201, then the poll loop. */
  function TimingsRead(s: Script, useTelegram: bool, queueId: string): (Outcome, seq<Event>) {
    match s.timings
    case Failed(e) => (Crashed(Raised(e)), [])
    case Replied(status, _, _) =>
      Then(if status == 201 then [Logged(PostTimingsOk)] else [],
           AfterPolls(PollsFrom(queueId, s.polls, 0, None), useTelegram))
  }

  /** From the OPTIONS preflight's answer on: anything but status 200 stops `start`. */
  function PreflightRead(s: Script, useTelegram: bool, queueId: string): (Outcome, seq<Event>) {
    match s.preflight
    case Failed(e) => (Crashed(Raised(e)), [])
    case Replied(status, _, _) =>
      if status != 200 then (Stopped, [Logged(TimingsError)])
      else Then([Logged(OptionsOk), Requested(PostTimings)], TimingsRead(s, useTelegram, queueId))
  }

  /** From the enqueue answer on: a body that is not JSON, or a falsy `queueId`, stops `start`. */
  function EnqueueRead(s: Script, useTelegram: bool): (Outcome, seq<Event>) {
    match s.enqueue
    case Failed(e) => (Crashed(Raised(e)), [])
    case Replied(_, _, body) =>
      if body.NotJson? || !Truthy(body.queueId) then (Stopped, [Logged(NoQueueId)])
      else
        var q := body.queueId.value;
        Then([Logged(QueueIdIs(q)), Requested(OptionsTimings)], PreflightRead(s, useTelegram, q))
  }

  /** From the queue page's answer on: no soup crashes, a missing tag or a falsy user id stops `start`. */
  function QueuePageRead(s: Script, useTelegram: bool, queueUrl: string): (Outcome, seq<Event>) {
    match s.queuePage
    case Failed(e) => (Crashed(Raised(e)), [])
    case Replied(_, _, page) =>
      match page
      case Blank => (Crashed(NoSoup), [])
      case Html(meta) =>
        var userid := MetaUserId(meta);
        if !Truthy(userid) then (Stopped, [Logged(NoQueueItLog)])
        else Then([Logged(QueueItLog(userid.value)), Requested(PostEnqueue(userid.value, queueUrl))], EnqueueRead(s, useTelegram))
  }

  /** From the landing answer on: a final URL off the waiting-room host stops `start`. */
  function Landed(s: Script, useTelegram: bool): (Outcome, seq<Event>) {
    match s.landing
    case Failed(e) => (Crashed(Raised(e)), [])
    case Replied(_, url, _) =>
      if !Contains(url, QueueItHost) then (Stopped, [Logged(WrongLanding)])
      else Then([Requested(GetQueuePage(url))], QueuePageRead(s, useTelegram, url))
  }

  /** `start` as a function of the answers it gets. */
  function StartRun(s: Script, useTelegram: bool): (Outcome, seq<Event>) {
    Then([Requested(GetLanding)], Landed(s, useTelegram))
  }

  // ---------------------------------------------------------------------------
  // The method
  // ---------------------------------------------------------------------------

  /** `start`: the guard chain with its early returns, then the poll loop. */
  method Start(s: Script, useTelegram: bool) returns (o: Outcome, trace: seq<Event>)
    ensures (o, trace) == StartRun(s, useTelegram)
  {
    trace := [Requested(GetLanding)];
    if s.landing.Failed? {
      assert trace + [] == trace;
      return Crashed(Raised(s.landing.error)), trace;
    }
    var queueUrl := s.landing.url;
    if !Contains(queueUrl, QueueItHost) {
      return Stopped, trace + [Logged(WrongLanding)];
    }
    ThenThen(trace, [Requested(GetQueuePage(queueUrl))], QueuePageRead(s, useTelegram, queueUrl));
    trace := trace + [Requested(GetQueuePage(queueUrl))];
    assert StartRun(s, useTelegram) == Then(trace, QueuePageRead(s, useTelegram, queueUrl));

    if s.queuePage.Failed? {
      assert trace + [] == trace;
      return Crashed(Raised(s.queuePage.error)), trace;
    }
    if s.queuePage.body.Blank? {
      assert trace + [] == trace;
      return Crashed(NoSoup), trace;
    }
    var userid := MetaUserId(s.queuePage.body.meta);
    if !Truthy(userid) {
      return Stopped, trace + [Logged(NoQueueItLog)];
    }
    var u := userid.value;
    ThenThen(trace, [Logged(QueueItLog(u)), Requested(PostEnqueue(u, queueUrl))], EnqueueRead(s, useTelegram));
    trace := trace + [Logged(QueueItLog(u)), Requested(PostEnqueue(u, queueUrl))];
    assert StartRun(s, useTelegram) == Then(trace, EnqueueRead(s, useTelegram));

    if s.enqueue.Failed? {
      assert trace + [] == trace;
      return Crashed(Raised(s.enqueue.error)), trace;
    }
    var body := s.enqueue.body;
    if body.NotJson? || !Truthy(body.queueId) {
      return Stopped, trace + [Logged(NoQueueId)];
    }
    var queueId := body.queueId.value;
    ThenThen(trace, [Logged(QueueIdIs(queueId)), Requested(OptionsTimings)], PreflightRead(s, useTelegram, queueId));
    trace := trace + [Logged(QueueIdIs(queueId)), Requested(OptionsTimings)];
    assert StartRun(s, useTelegram) == Then(trace, PreflightRead(s, useTelegram, queueId));

    if s.preflight.Failed? {
      assert trace + [] == trace;
      return Crashed(Raised(s.preflight.error)), trace;
    }
    if s.preflight.status != 200 {
      return Stopped, trace + [Logged(TimingsError)];
    }
    ThenThen(trace, [Logged(OptionsOk), Requested(PostTimings)], TimingsRead(s, useTelegram, queueId));
    trace := trace + [Logged(OptionsOk), Requested(PostTimings)];
    assert StartRun(s, useTelegram) == Then(trace, TimingsRead(s, useTelegram, queueId));

    if s.timings.Failed? {
      assert trace + [] == trace;
      return Crashed(Raised(s.timings.error)), trace;
    }
    var timingsLine := if s.timings.status == 201 then [Logged(PostTimingsOk)] else [];
    ghost var run := PollsFrom(queueId, s.polls, 0, None);
    ThenThen(trace, timingsLine, AfterPolls(run, useTelegram));
    trace := trace + timingsLine;
    assert StartRun(s, useTelegram) == Then(trace, AfterPolls(run, useTelegram));
    o, trace := PollLoop(s.polls, queueId, useTelegram, trace);
  }

  /** The `while 1` poll loop of `start` and what follows it, after the events in `trace`. */
  method PollLoop(polls: seq<Poll>, queueId: string, useTelegram: bool, pre: seq<Event>) returns (o: Outcome, trace: seq<Event>)
    ensures (o, trace) == Then(pre, AfterPolls(PollsFrom(queueId, polls, 0, None), useTelegram))
  {
    ghost var run := PollsFrom(queueId, polls, 0, None);
    trace := pre;
    var redirect: Option<string> := None;
    var i := 0;
    assert trace + [] == trace;
    while true
      invariant i <= |polls|
      invariant Then(trace, PollsFrom(queueId, polls, i, redirect)) == Then(pre, run)
      decreases |polls| - i
    {
      if i == |polls| {
        assert trace + [] == trace;
        return PollsRanOut, trace;
      }
      var t0 := trace;
      var p := polls[i];
      var sent := [Requested(PostStatus(queueId, p.at - SetsLag))];
      trace := trace + sent;
      if p.answer.Failed? {
        return Crashed(Raised(p.answer.error)), trace;
      }
      if p.answer.body.ParseError? {
        assert t0 + (sent + [Logged(QueueError)]) == trace + [Logged(QueueError)];
        trace := trace + [Logged(QueueError)];
        break;
      }
      var interval := p.answer.body.updateInterval;
      redirect := p.answer.body.redirectUrl;
      var logged := sent + [Logged(QueueStatus(ResponseOk(p.answer.status), p.answer.body.queueNumber,
                                               p.answer.body.usersAhead, p.answer.body.whichIsIn))];
      trace := t0 + logged;
      if !IntervalTruthy(interval) && Truthy(redirect) {
        break;
      }
      if interval.None? {
        return Crashed(NoInterval), trace;
      }
      if interval.value < 0 {
        return Crashed(NegativeSleep), trace;
      }
      ThenThen(t0, logged + [Slept(interval.value)], PollsFrom(queueId, polls, i + 1, redirect));
      trace := t0 + (logged + [Slept(interval.value)]);
      i := i + 1;
    }
    assert Then(pre, run) == (Broke(redirect), trace);
    var note := Notify(useTelegram, redirect);
    assert AfterPolls(run, useTelegram) == (Finished(redirect), run.1 + [Logged(Target(redirect))] + note);
    assert pre + (run.1 + [Logged(Target(redirect))] + note) == trace + [Logged(Target(redirect))] + note;
    assert !useTelegram ==> trace + [Logged(Target(redirect))] + note == trace + [Logged(Target(redirect))];
    trace := trace + [Logged(Target(redirect))];
    if useTelegram {
      trace := trace + [Notified(redirect)];
    }
    o := Finished(redirect);
  }

  // ---------------------------------------------------------------------------
  // Properties
  // ---------------------------------------------------------------------------

  /** The requests among some events, in order. */
  function RequestsOf(es: seq<Event>): seq<Request> {
    if es == [] then [] else (if es[0].Requested? then [es[0].request] else []) + RequestsOf(es[1..])
  }

  /** The sleeps among some events, in order. */
  function SleepsOf(es: seq<Event>): seq<int> {
    if es == [] then [] else (if es[0].Slept? then [es[0].ms] else []) + SleepsOf(es[1..])
  }

  lemma {:induction false} RequestsOfAppend(a: seq<Event>, b: seq<Event>)
    ensures RequestsOf(a + b) == RequestsOf(a) + RequestsOf(b)
  {
    if a != [] {
      assert (a + b)[1..] == a[1..] + b;
      RequestsOfAppend(a[1..], b);
    } else {
      assert a + b == b;
    }
  }

  lemma {:induction false} SleepsOfAppend(a: seq<Event>, b: seq<Event>)
    ensures SleepsOf(a + b) == SleepsOf(a) + SleepsOf(b)
  {
    if a != [] {
      assert (a + b)[1..] == a[1..] + b;
      SleepsOfAppend(a[1..], b);
    } else {
      assert a + b == b;
    }
  }

  /** `b` is the end of `a`. */
  predicate EndsWith(a: seq<Event>, b: seq<Event>) {
    |b| <= |a| && a[|a| - |b|..] == b
  }

  /** The landing page redirected to the waiting room. */
  predicate PassesLanding(s: Script) {
    s.landing.Replied? && Contains(s.landing.url, QueueItHost)
  }

  /** ... and the queue page carries a truthy `data-userid`. */
  predicate HasUserId(s: Script) {
    PassesLanding(s) && s.queuePage.Replied? && s.queuePage.body.Html? && Truthy(MetaUserId(s.queuePage.body.meta))
  }

  /** ... and the enqueue answer is JSON with a truthy `queueId`. */
  predicate HasQueueId(s: Script) {
    HasUserId(s) && s.enqueue.Replied? && s.enqueue.body.Enqueued? && Truthy(s.enqueue.body.queueId)
  }

  /** ... and the preflight answered exactly 200, and the timings POST answered. */
  predicate ReachesPolls(s: Script) {
    HasQueueId(s) && s.preflight.Replied? && s.preflight.status == 200 && s.timings.Replied?
  }

  function UserId(s: Script): string
    requires HasUserId(s)
  {
    MetaUserId(s.queuePage.body.meta).value
  }

  function QueueId(s: Script): string
    requires HasQueueId(s)
  {
    s.enqueue.body.queueId.value
  }

  /** The events before the first poll. */
  function Preamble(s: Script): seq<Event>
    requires ReachesPolls(s)
  {
    var u, uid := s.landing.url, UserId(s);
    [Requested(GetLanding)]
    + ([Requested(GetQueuePage(u))]
    + ([Logged(QueueItLog(uid)), Requested(PostEnqueue(uid, u))]
    + ([Logged(QueueIdIs(QueueId(s))), Requested(OptionsTimings)]
    + ([Logged(OptionsOk), Requested(PostTimings)]
    + (if s.timings.status == 201 then [Logged(PostTimingsOk)] else [])))))
  }

  /** A landing URL off the waiting-room host: an error line, and no request after the first. */
  lemma LandingGuard(s: Script, useTelegram: bool)
    requires s.landing.Replied? && !Contains(s.landing.url, QueueItHost)
    ensures StartRun(s, useTelegram) == (Stopped, [Requested(GetLanding), Logged(WrongLanding)])
  {
    assert Landed(s, useTelegram) == (Stopped, [Logged(WrongLanding)]);
    assert [Requested(GetLanding)] + [Logged(WrongLanding)] == [Requested(GetLanding), Logged(WrongLanding)];
  }

  /** A missing `queue-it_log` tag or a falsy user id: an error line, and no enqueue POST. */
  lemma QueueItLogGuard(s: Script, useTelegram: bool)
    requires PassesLanding(s) && s.queuePage.Replied? && s.queuePage.body.Html?
    requires !Truthy(MetaUserId(s.queuePage.body.meta))
    ensures StartRun(s, useTelegram)
         == (Stopped, [Requested(GetLanding), Requested(GetQueuePage(s.landing.url)), Logged(NoQueueItLog)])
  {
    var u := s.landing.url;
    assert QueuePageRead(s, useTelegram, u) == (Stopped, [Logged(NoQueueItLog)]);
    ThenThen([Requested(GetLanding)], [Requested(GetQueuePage(u))], QueuePageRead(s, useTelegram, u));
    assert [Requested(GetLanding)] + [Requested(GetQueuePage(u))] + [Logged(NoQueueItLog)]
        == [Requested(GetLanding), Requested(GetQueuePage(u)), Logged(NoQueueItLog)];
  }

  /** An enqueue answer that is not JSON or has a falsy `queueId`: an error line, and no timings request. */
  lemma QueueIdGuard(s: Script, useTelegram: bool)
    requires HasUserId(s) && s.enqueue.Replied? && (s.enqueue.body.NotJson? || !Truthy(s.enqueue.body.queueId))
    ensures StartRun(s, useTelegram)
         == (Stopped, [Requested(GetLanding), Requested(GetQueuePage(s.landing.url)), Logged(QueueItLog(UserId(s))),
                       Requested(PostEnqueue(UserId(s), s.landing.url)), Logged(NoQueueId)])
  {
    var u, uid := s.landing.url, UserId(s);
    var mid := [Logged(QueueItLog(uid)), Requested(PostEnqueue(uid, u))];
    assert EnqueueRead(s, useTelegram) == (Stopped, [Logged(NoQueueId)]);
    assert QueuePageRead(s, useTelegram, u) == Then(mid, EnqueueRead(s, useTelegram));
    ThenThen([Requested(GetQueuePage(u))], mid, EnqueueRead(s, useTelegram));
    ThenThen([Requested(GetLanding)], [Requested(GetQueuePage(u))] + mid, EnqueueRead(s, useTelegram));
    assert Landed(s, useTelegram) == Then([Requested(GetQueuePage(u))], QueuePageRead(s, useTelegram, u));
    assert [Requested(GetLanding)] + ([Requested(GetQueuePage(u))] + mid) + [Logged(NoQueueId)]
        == [Requested(GetLanding), Requested(GetQueuePage(u)), Logged(QueueItLog(uid)),
            Requested(PostEnqueue(uid, u)), Logged(NoQueueId)];
  }

  /** A preflight status other than exactly 200: an error line, and neither the timings POST nor a poll. */
  lemma PreflightGuard(s: Script, useTelegram: bool)
    requires HasQueueId(s) && s.preflight.Replied? && s.preflight.status != 200
    ensures StartRun(s, useTelegram)
         == (Stopped, [Requested(GetLanding), Requested(GetQueuePage(s.landing.url)), Logged(QueueItLog(UserId(s))),
                       Requested(PostEnqueue(UserId(s), s.landing.url)), Logged(QueueIdIs(QueueId(s))),
                       Requested(OptionsTimings), Logged(TimingsError)])
  {
    var u, uid, q := s.landing.url, UserId(s), QueueId(s);
    var mid := [Logged(QueueItLog(uid)), Requested(PostEnqueue(uid, u))];
    var mid2 := [Logged(QueueIdIs(q)), Requested(OptionsTimings)];
    var last := PreflightRead(s, useTelegram, q);
    assert last == (Stopped, [Logged(TimingsError)]);
    assert EnqueueRead(s, useTelegram) == Then(mid2, last);
    assert QueuePageRead(s, useTelegram, u) == Then(mid, EnqueueRead(s, useTelegram));
    ThenThen(mid, mid2, last);
    ThenThen([Requested(GetQueuePage(u))], mid + mid2, last);
    ThenThen([Requested(GetLanding)], [Requested(GetQueuePage(u))] + (mid + mid2), last);
    assert Landed(s, useTelegram) == Then([Requested(GetQueuePage(u))], QueuePageRead(s, useTelegram, u));
    assert [Requested(GetLanding)] + ([Requested(GetQueuePage(u))] + (mid + mid2)) + [Logged(TimingsError)]
        == [Requested(GetLanding), Requested(GetQueuePage(u)), Logged(QueueItLog(uid)),
            Requested(PostEnqueue(uid, u)), Logged(QueueIdIs(q)), Requested(OptionsTimings), Logged(TimingsError)];
  }

  /** Past the guards, `start` is the preamble, the poll loop and what follows it. */
  lemma StartRunPolls(s: Script, useTelegram: bool)
    requires ReachesPolls(s)
    ensures StartRun(s, useTelegram) == Then(Preamble(s), AfterPolls(PollsFrom(QueueId(s), s.polls, 0, None), useTelegram))
  {
    var u, uid, q := s.landing.url, UserId(s), QueueId(s);
    var last := AfterPolls(PollsFrom(q, s.polls, 0, None), useTelegram);
    var t := if s.timings.status == 201 then [Logged(PostTimingsOk)] else [];
    assert TimingsRead(s, useTelegram, q) == Then(t, last);
    assert PreflightRead(s, useTelegram, q) == Then([Logged(OptionsOk), Requested(PostTimings)], TimingsRead(s, useTelegram, q));
    assert EnqueueRead(s, useTelegram) == Then([Logged(QueueIdIs(q)), Requested(OptionsTimings)], PreflightRead(s, useTelegram, q));
    assert QueuePageRead(s, useTelegram, u) == Then([Logged(QueueItLog(uid)), Requested(PostEnqueue(uid, u))], EnqueueRead(s, useTelegram));
    assert Landed(s, useTelegram) == Then([Requested(GetQueuePage(u))], QueuePageRead(s, useTelegram, u));
    ThenThen([Logged(OptionsOk), Requested(PostTimings)], t, last);
    ThenThen([Logged(QueueIdIs(q)), Requested(OptionsTimings)], [Logged(OptionsOk), Requested(PostTimings)] + t, last);
    ThenThen([Logged(QueueItLog(uid)), Requested(PostEnqueue(uid, u))],
             [Logged(QueueIdIs(q)), Requested(OptionsTimings)] + ([Logged(OptionsOk), Requested(PostTimings)] + t), last);
    ThenThen([Requested(GetQueuePage(u))],
             [Logged(QueueItLog(uid)), Requested(PostEnqueue(uid, u))]
             + ([Logged(QueueIdIs(q)), Requested(OptionsTimings)] + ([Logged(OptionsOk), Requested(PostTimings)] + t)), last);
    ThenThen([Requested(GetLanding)],
             [Requested(GetQueuePage(u))] + ([Logged(QueueItLog(uid)), Requested(PostEnqueue(uid, u))]
             + ([Logged(QueueIdIs(q)), Requested(OptionsTimings)] + ([Logged(OptionsOk), Requested(PostTimings)] + t))), last);
    assert [Requested(GetLanding)] + ([Requested(GetQueuePage(u))] + ([Logged(QueueItLog(uid)), Requested(PostEnqueue(uid, u))]
             + ([Logged(QueueIdIs(q)), Requested(OptionsTimings)] + ([Logged(OptionsOk), Requested(PostTimings)] + t))))
        == Preamble(s);
  }

  lemma RequestsOfCons(e: Event, rest: seq<Event>)
    ensures RequestsOf([e] + rest) == (if e.Requested? then [e.request] else []) + RequestsOf(rest)
    ensures SleepsOf([e] + rest) == (if e.Slept? then [e.ms] else []) + SleepsOf(rest)
  {
    assert ([e] + rest)[1..] == rest;
  }

  /** Events that are neither requests nor sleeps add none. */
  lemma {:induction false} RequestsOfQuiet(es: seq<Event>)
    requires forall k | 0 <= k < |es| :: es[k].Logged? || es[k].Notified?
    ensures RequestsOf(es) == [] && SleepsOf(es) == []
  {
    if es != [] {
      RequestsOfQuiet(es[1..]);
    }
  }

  /** The preamble's requests, in order, and no sleep. */
  lemma PreambleRequests(s: Script)
    requires ReachesPolls(s)
    ensures RequestsOf(Preamble(s))
         == [GetLanding, GetQueuePage(s.landing.url), PostEnqueue(UserId(s), s.landing.url), OptionsTimings, PostTimings]
    ensures SleepsOf(Preamble(s)) == []
  {
    var u, uid, q := s.landing.url, UserId(s), QueueId(s);
    var t := if s.timings.status == 201 then [Logged(PostTimingsOk)] else [];
    RequestsOfQuiet(t);
    var e4 := [Logged(OptionsOk), Requested(PostTimings)] + t;
    RequestsOfPair(Logged(OptionsOk), Requested(PostTimings), t);
    var e3 := [Logged(QueueIdIs(q)), Requested(OptionsTimings)] + e4;
    RequestsOfPair(Logged(QueueIdIs(q)), Requested(OptionsTimings), e4);
    var e2 := [Logged(QueueItLog(uid)), Requested(PostEnqueue(uid, u))] + e3;
    RequestsOfPair(Logged(QueueItLog(uid)), Requested(PostEnqueue(uid, u)), e3);
    var e1 := [Requested(GetQueuePage(u))] + e2;
    RequestsOfCons(Requested(GetQueuePage(u)), e2);
    RequestsOfCons(Requested(GetLanding), e1);
  }

  /** A log line followed by a request adds that request and no sleep. */
  lemma RequestsOfPair(line: Event, req: Event, rest: seq<Event>)
    requires line.Logged? && req.Requested?
    ensures RequestsOf([line, req] + rest) == [req.request] + RequestsOf(rest)
    ensures SleepsOf([line, req] + rest) == SleepsOf(rest)
  {
    assert [line, req] + rest == [line] + ([req] + rest);
    RequestsOfCons(req, rest);
    RequestsOfCons(line, [req] + rest);
  }

  /** A poll the loop goes on after: parsed, not the stopping kind, with a non-negative interval to sleep. */
  predicate Continues(p: Poll) {
    && p.answer.Replied? && p.answer.body.Json?
    && !(!IntervalTruthy(p.answer.body.updateInterval) && Truthy(p.answer.body.redirectUrl))
    && p.answer.body.updateInterval.Some? && p.answer.body.updateInterval.value >= 0
  }

  /** The poll that ends the loop normally: parsed, with a falsy interval and a truthy redirect. */
  predicate Stops(p: Poll) {
    p.answer.Replied? && p.answer.body.Json? && !IntervalTruthy(p.answer.body.updateInterval) && Truthy(p.answer.body.redirectUrl)
  }

  /** A poll whose answer is not JSON. */
  predicate Unparsed(p: Poll) {
    p.answer.Replied? && p.answer.body.ParseError?
  }

  /** `redirect_target` when poll `k` is reached from poll `i`: the last parsed poll's redirect, `redirect` when there is none. */
  function RedirectBefore(polls: seq<Poll>, i: nat, redirect: Option<string>, k: nat): Option<string>
    requires i <= k <= |polls| && forall j | i <= j < k :: Continues(polls[j])
  {
    if k == i then redirect
    else
      assert Continues(polls[k - 1]);
      polls[k - 1].answer.body.redirectUrl
  }

  /** The status POSTs of polls `i` to `n - 1`: one each, `sets` five minutes behind its clock. */
  function StatusPosts(queueId: string, polls: seq<Poll>, i: nat, n: nat): (r: seq<Request>)
    requires i <= n <= |polls|
    ensures |r| == n - i
    decreases n - i
  {
    if i == n then [] else [PostStatus(queueId, polls[i].at - SetsLag)] + StatusPosts(queueId, polls, i + 1, n)
  }

  /** The update intervals of polls `i` to `n - 1`. */
  function Intervals(polls: seq<Poll>, i: nat, n: nat): (r: seq<int>)
    requires i <= n <= |polls| && forall j | i <= j < n :: Continues(polls[j])
    ensures |r| == n - i
    decreases n - i
  {
    if i == n then []
    else
      assert Continues(polls[i]);
      [polls[i].answer.body.updateInterval.value] + Intervals(polls, i + 1, n)
  }

  /** Poll `j` sends one status POST whose `sets` is its clock minus 300 seconds. */
  lemma {:induction false} StatusPostsAt(queueId: string, polls: seq<Poll>, i: nat, n: nat, j: nat)
    requires i <= j < n <= |polls|
    ensures StatusPosts(queueId, polls, i, n)[j - i] == PostStatus(queueId, polls[j].at - 300)
    decreases j - i
  {
    if i < j {
      StatusPostsAt(queueId, polls, i + 1, n, j);
    }
  }

  /** The events of one poll the loop goes on after: its POST, its status line, its sleep. */
  lemma PollStep(queueId: string, polls: seq<Poll>, i: nat, redirect: Option<string>)
    requires i < |polls| && Continues(polls[i])
    ensures var p := polls[i];
      var rest := PollsFrom(queueId, polls, i + 1, p.answer.body.redirectUrl);
      && PollsFrom(queueId, polls, i, redirect).0 == rest.0
      && RequestsOf(PollsFrom(queueId, polls, i, redirect).1) == [PostStatus(queueId, p.at - SetsLag)] + RequestsOf(rest.1)
      && SleepsOf(PollsFrom(queueId, polls, i, redirect).1) == [p.answer.body.updateInterval.value] + SleepsOf(rest.1)
  {
    var p := polls[i];
    var b := p.answer.body;
    var rest := PollsFrom(queueId, polls, i + 1, b.redirectUrl);
    var post, line, nap := Requested(PostStatus(queueId, p.at - SetsLag)),
      Logged(QueueStatus(ResponseOk(p.answer.status), b.queueNumber, b.usersAhead, b.whichIsIn)), Slept(b.updateInterval.value);
    assert PollsFrom(queueId, polls, i, redirect) == Then([post] + [line] + [nap], rest);
    assert [post] + [line] + [nap] + rest.1 == [post] + ([line] + ([nap] + rest.1));
    RequestsOfCons(nap, rest.1);
    RequestsOfCons(line, [nap] + rest.1);
    RequestsOfCons(post, [line] + ([nap] + rest.1));
  }

  /** The events of the poll that ends the loop: its POST and one log line, no sleep. */
  lemma LastPoll(queueId: string, polls: seq<Poll>, i: nat, redirect: Option<string>)
    requires i < |polls| && (Stops(polls[i]) || Unparsed(polls[i]))
    ensures var (end, es) := PollsFrom(queueId, polls, i, redirect);
      && end == Broke(if Stops(polls[i]) then polls[i].answer.body.redirectUrl else redirect)
      && RequestsOf(es) == [PostStatus(queueId, polls[i].at - SetsLag)] && SleepsOf(es) == []
      && es[|es| - 1].Logged? && (Unparsed(polls[i]) ==> es[|es| - 1] == Logged(QueueError))
  {
    var p := polls[i];
    var post := Requested(PostStatus(queueId, p.at - SetsLag));
    var es := PollsFrom(queueId, polls, i, redirect).1;
    assert |es| == 2 && es[0] == post && es[1].Logged?;
    assert es == [post] + [es[1]];
    RequestsOfCons(es[1], []);
    RequestsOfCons(post, [es[1]]);
  }

  /**
   * The loop from poll `i` stops at poll `k` when the polls before it go on and poll `k` stops:
   * with poll `k`'s redirect, one status POST per poll in order, and the earlier polls' intervals
   * slept in order.
   */
  lemma {:induction false} PollsFromStops(queueId: string, polls: seq<Poll>, i: nat, redirect: Option<string>, k: nat)
    requires i <= k < |polls|
    requires forall j | i <= j < k :: Continues(polls[j])
    requires Stops(polls[k])
    ensures var (end, es) := PollsFrom(queueId, polls, i, redirect);
      && end == Broke(polls[k].answer.body.redirectUrl)
      && RequestsOf(es) == StatusPosts(queueId, polls, i, k + 1)
      && SleepsOf(es) == Intervals(polls, i, k)
    decreases k - i
  {
    if i == k {
      LastPoll(queueId, polls, i, redirect);
    } else {
      PollStep(queueId, polls, i, redirect);
      PollsFromStops(queueId, polls, i + 1, polls[i].answer.body.redirectUrl, k);
    }
  }

  /**
   * A poll whose answer is not JSON ends the loop with the redirect of the last parsed poll
   * (`redirect` when there is none since `i`), after "Error in Queue".
   */
  lemma {:induction false} PollsFromQueueError(queueId: string, polls: seq<Poll>, i: nat, redirect: Option<string>, k: nat)
    requires i <= k < |polls|
    requires forall j | i <= j < k :: Continues(polls[j])
    requires Unparsed(polls[k])
    ensures var (end, es) := PollsFrom(queueId, polls, i, redirect);
      && end == Broke(RedirectBefore(polls, i, redirect, k))
      && RequestsOf(es) == StatusPosts(queueId, polls, i, k + 1)
      && SleepsOf(es) == Intervals(polls, i, k)
      && EndsWith(es, [Logged(QueueError)])
    decreases k - i
  {
    if i == k {
      LastPoll(queueId, polls, i, redirect);
    } else {
      PollStep(queueId, polls, i, redirect);
      PollsFromQueueError(queueId, polls, i + 1, polls[i].answer.body.redirectUrl, k);
      var p := polls[i];
      var b := p.answer.body;
      var rest := PollsFrom(queueId, polls, i + 1, b.redirectUrl);
      var head := [Requested(PostStatus(queueId, p.at - SetsLag)),
                   Logged(QueueStatus(ResponseOk(p.answer.status), b.queueNumber, b.usersAhead, b.whichIsIn)),
                   Slept(b.updateInterval.value)];
      assert PollsFrom(queueId, polls, i, redirect).1 == head + rest.1;
      assert (head + rest.1)[|head + rest.1| - 1..] == rest.1[|rest.1| - 1..];
    }
  }

  /** The requests `start` makes before its first poll, once every guard passes. */
  function PreambleRequestList(s: Script): seq<Request>
    requires ReachesPolls(s)
  {
    [GetLanding, GetQueuePage(s.landing.url), PostEnqueue(UserId(s), s.landing.url), OptionsTimings, PostTimings]
  }

  /** The requests and sleeps of a run that ends after the loop, with the final lines. */
  lemma FinishedRun(s: Script, useTelegram: bool, t: Option<string>)
    requires ReachesPolls(s) && PollsFrom(QueueId(s), s.polls, 0, None).0 == Broke(t)
    ensures var run := PollsFrom(QueueId(s), s.polls, 0, None);
      var (o, trace) := StartRun(s, useTelegram);
      && o == Finished(t)
      && RequestsOf(trace) == PreambleRequestList(s) + RequestsOf(run.1)
      && SleepsOf(trace) == SleepsOf(run.1)
      && EndsWith(trace, [Logged(Target(t))] + Notify(useTelegram, t))
  {
    var run := PollsFrom(QueueId(s), s.polls, 0, None);
    var tail := [Logged(Target(t))] + Notify(useTelegram, t);
    FinishedTrace(s, useTelegram, t);
    PreambleRequests(s);
    RequestsOfQuiet(tail);
    ThreeParts(Preamble(s), run.1, tail);
  }

  /** The whole trace of a run that leaves the loop: the preamble, the polls, the final lines. */
  lemma FinishedTrace(s: Script, useTelegram: bool, t: Option<string>)
    requires ReachesPolls(s) && PollsFrom(QueueId(s), s.polls, 0, None).0 == Broke(t)
    ensures StartRun(s, useTelegram)
      == (Finished(t), Preamble(s) + (PollsFrom(QueueId(s), s.polls, 0, None).1 + ([Logged(Target(t))] + Notify(useTelegram, t))))
  {
    var run := PollsFrom(QueueId(s), s.polls, 0, None);
    StartRunPolls(s, useTelegram);
    assert AfterPolls(run, useTelegram) == (Finished(t), run.1 + [Logged(Target(t))] + Notify(useTelegram, t));
    assert run.1 + [Logged(Target(t))] + Notify(useTelegram, t) == run.1 + ([Logged(Target(t))] + Notify(useTelegram, t));
  }

  /** Requests and sleeps of a run in three parts, the last without any. */
  lemma ThreeParts(pre: seq<Event>, mid: seq<Event>, tail: seq<Event>)
    requires RequestsOf(tail) == [] && SleepsOf(tail) == []
    ensures RequestsOf(pre + (mid + tail)) == RequestsOf(pre) + RequestsOf(mid)
    ensures SleepsOf(pre + (mid + tail)) == SleepsOf(pre) + SleepsOf(mid)
    ensures EndsWith(pre + (mid + tail), tail)
  {
    RequestsOfAppend(mid, tail);
    SleepsOfAppend(mid, tail);
    RequestsOfAppend(pre, mid + tail);
    SleepsOfAppend(pre, mid + tail);
    assert RequestsOf(mid) + [] == RequestsOf(mid) && SleepsOf(mid) + [] == SleepsOf(mid);
    var all := pre + (mid + tail);
    assert all[|all| - |tail|..] == tail;
  }

  /**
   * When the polls before poll `k` go on and poll `k` has a falsy interval and a truthy redirect,
   * `start` ends with that redirect: exactly `k + 1` status POSTs, the `k` earlier intervals slept
   * in order, then the success line and the notification.
   */
  lemma PollingStops(s: Script, useTelegram: bool, k: nat)
    requires ReachesPolls(s) && k < |s.polls|
    requires forall j | 0 <= j < k :: Continues(s.polls[j])
    requires Stops(s.polls[k])
    ensures var (o, trace) := StartRun(s, useTelegram);
      var t := s.polls[k].answer.body.redirectUrl;
      && o == Finished(t)
      && RequestsOf(trace) == PreambleRequestList(s) + StatusPosts(QueueId(s), s.polls, 0, k + 1)
      && SleepsOf(trace) == Intervals(s.polls, 0, k)
      && EndsWith(trace, [Logged(Target(t))] + Notify(useTelegram, t))
  {
    PollsFromStops(QueueId(s), s.polls, 0, None, k);
    FinishedRun(s, useTelegram, s.polls[k].answer.body.redirectUrl);
  }

  /**
   * When poll `k` is not JSON after polls that go on, `start` still logs the redirect of the last
   * parsed poll (None when `k` is the first) as a success and notifies it, after "Error in Queue".
   */
  lemma PollingQueueError(s: Script, useTelegram: bool, k: nat)
    requires ReachesPolls(s) && k < |s.polls|
    requires forall j | 0 <= j < k :: Continues(s.polls[j])
    requires Unparsed(s.polls[k])
    ensures var (o, trace) := StartRun(s, useTelegram);
      var t := RedirectBefore(s.polls, 0, None, k);
      && o == Finished(t)
      && RequestsOf(trace) == PreambleRequestList(s) + StatusPosts(QueueId(s), s.polls, 0, k + 1)
      && SleepsOf(trace) == Intervals(s.polls, 0, k)
      && EndsWith(trace, [Logged(QueueError), Logged(Target(t))] + Notify(useTelegram, t))
  {
    var t := RedirectBefore(s.polls, 0, None, k);
    var run := PollsFrom(QueueId(s), s.polls, 0, None);
    PollsFromQueueError(QueueId(s), s.polls, 0, None, k);
    FinishedRun(s, useTelegram, t);
    StartRunPolls(s, useTelegram);
    var tail := [Logged(Target(t))] + Notify(useTelegram, t);
    var trace := StartRun(s, useTelegram).1;
    assert trace == Preamble(s) + run.1 + tail;
    assert run.1 == run.1[..|run.1| - 1] + [Logged(QueueError)];
    assert trace == Preamble(s) + run.1[..|run.1| - 1] + ([Logged(QueueError), Logged(Target(t))] + Notify(useTelegram, t));
  }

  /**
   * The exception a poll raises, if any: the session's own, `None / 1000` for a missing interval
   * and ValueError for a negative one; a poll that is not JSON or that breaks raises nothing.
   */
  function PollCrashOf(p: Poll): Option<Crash> {
    match p.answer
    case Failed(e) => Some(Raised(e))
    case Replied(_, _, body) =>
      if body.ParseError? || Stops(p) then None
      else if body.updateInterval.None? then Some(NoInterval)
      else if body.updateInterval.value < 0 then Some(NegativeSleep)
      else None
  }

  /** A poll either goes on, breaks, is not JSON, or raises: exactly one of the four. */
  lemma PollKinds(p: Poll)
    ensures Continues(p) <==> !Stops(p) && !Unparsed(p) && PollCrashOf(p).None?
    ensures Stops(p) ==> !Unparsed(p)
  {
  }

  /** After polls that go on, a poll that raises ends the loop with that exception. */
  lemma {:induction false} PollsFromCrash(queueId: string, polls: seq<Poll>, i: nat, redirect: Option<string>, k: nat)
    requires i <= k < |polls|
    requires forall j | i <= j < k :: Continues(polls[j])
    requires PollCrashOf(polls[k]).Some?
    ensures PollsFrom(queueId, polls, i, redirect).0 == PollCrash(PollCrashOf(polls[k]).value)
    decreases k - i
  {
    if i < k {
      PollStep(queueId, polls, i, redirect);
      PollsFromCrash(queueId, polls, i + 1, polls[i].answer.body.redirectUrl, k);
    }
  }

  /** An event that reports a redirect target: the success line with the target, or the notification. */
  predicate Reports(e: Event) {
    (e.Logged? && e.note.Target?) || e.Notified?
  }

  /** The poll loop itself never reports a target; only what follows it does. */
  lemma {:induction false} PollsFromUnreported(queueId: string, polls: seq<Poll>, i: nat, redirect: Option<string>)
    requires i <= |polls|
    ensures forall e | e in PollsFrom(queueId, polls, i, redirect).1 :: !Reports(e)
    decreases |polls| - i
  {
    if i < |polls| && polls[i].answer.Replied? && polls[i].answer.body.Json? {
      PollsFromUnreported(queueId, polls, i + 1, polls[i].answer.body.redirectUrl);
    }
  }

  /** The events before the loop report no target. */
  lemma PreambleUnreported(s: Script)
    requires ReachesPolls(s)
    ensures forall e | e in Preamble(s) :: !Reports(e)
  {
  }

  /**
   * `start` ends with the exception of the first poll that raises: it neither logs the success
   * line nor sends the notification.
   */
  lemma PollingCrashes(s: Script, useTelegram: bool, k: nat)
    requires ReachesPolls(s) && k < |s.polls|
    requires forall j | 0 <= j < k :: Continues(s.polls[j])
    requires PollCrashOf(s.polls[k]).Some?
    ensures StartRun(s, useTelegram).0 == Crashed(PollCrashOf(s.polls[k]).value)
    ensures forall e | e in StartRun(s, useTelegram).1 :: !Reports(e)
  {
    var run := PollsFrom(QueueId(s), s.polls, 0, None);
    StartRunPolls(s, useTelegram);
    PollsFromCrash(QueueId(s), s.polls, 0, None, k);
    PollsFromUnreported(QueueId(s), s.polls, 0, None);
    PreambleUnreported(s);
    assert AfterPolls(run, useTelegram).1 == run.1;
    assert StartRun(s, useTelegram).1 == Preamble(s) + run.1;
  }

  /** How a logged note appears on the console of the client's classic-layout logger. */
  function Console(l: Logging.Logger, n: Note, now: Logging.Clock): Logging.Line {
    Logging.Format(l, n.Message(), n.Status(), Logging.NoRetry, now)
  }

  /**
   * In the classic layout the final line is the blue target without a status tag, "None" when
   * there is no target; the lines of `start` never make the logger sleep.
   */
  lemma TargetOnConsole(l: Logging.Logger, t: Option<string>, now: Logging.Clock)
    requires l.classic
    ensures Console(l, Target(t), now) == [Logging.Ink(Logging.Blue), Logging.Text(" " + Show(t)), Logging.Ink(Logging.Reset)]
    ensures forall n: Note :: Logging.Sleeps(Logging.Log(l, n.Message(), n.Status(), Logging.NoRetry, now)) == []
  {
    assert !Logging.TaggedInClassic("success");
    forall n: Note ensures Logging.Sleeps(Logging.Log(l, n.Message(), n.Status(), Logging.NoRetry, now)) == [] {
      Logging.LogEffects(l, n.Message(), n.Status(), Logging.NoRetry, now);
    }
  }

  /** In the classic layout a failed status poll shows as the red "[ERROR]:" line "Error in Queue". */
  lemma QueueErrorOnConsole(l: Logging.Logger, now: Logging.Clock)
    requires l.classic
    ensures Console(l, QueueError, now)
         == [Logging.Text("[ERROR]:"), Logging.Ink(Logging.Red), Logging.Text(" Error in Queue"), Logging.Ink(Logging.Reset)]
  {
    assert Upper("error") == "ERROR";
    assert "[" + Upper("error") + "]:" == "[ERROR]:";
    assert " " + "Error in Queue" == " Error in Queue";
  }

  /** No status POST is sent unless every guard passed. */
  lemma NoPollsWithoutGuards(s: Script, useTelegram: bool)
    requires !ReachesPolls(s)
    ensures forall e | e in StartRun(s, useTelegram).1 :: !(e.Requested? && e.request.PostStatus?)
  {
    if HasQueueId(s) && s.preflight.Replied? && s.preflight.status == 200 {
      var u, uid, q := s.landing.url, UserId(s), QueueId(s);
      assert TimingsRead(s, useTelegram, q) == (Crashed(Raised(s.timings.error)), []);
      assert PreflightRead(s, useTelegram, q) == Then([Logged(OptionsOk), Requested(PostTimings)], TimingsRead(s, useTelegram, q));
      assert EnqueueRead(s, useTelegram) == Then([Logged(QueueIdIs(q)), Requested(OptionsTimings)], PreflightRead(s, useTelegram, q));
      assert QueuePageRead(s, useTelegram, u) == Then([Logged(QueueItLog(uid)), Requested(PostEnqueue(uid, u))], EnqueueRead(s, useTelegram));
    } else if HasQueueId(s) {
      PreflightStops(s, useTelegram);
    }
  }

  lemma PreflightStops(s: Script, useTelegram: bool)
    requires HasQueueId(s) && !(s.preflight.Replied? && s.preflight.status == 200)
    ensures forall e | e in StartRun(s, useTelegram).1 :: !(e.Requested? && e.request.PostStatus?)
  {
    var u, uid, q := s.landing.url, UserId(s), QueueId(s);
    assert EnqueueRead(s, useTelegram) == Then([Logged(QueueIdIs(q)), Requested(OptionsTimings)], PreflightRead(s, useTelegram, q));
    assert QueuePageRead(s, useTelegram, u) == Then([Logged(QueueItLog(uid)), Requested(PostEnqueue(uid, u))], EnqueueRead(s, useTelegram));
  }

  /** Past the guards, the first poll's status POST directly follows the preamble. */
  lemma FirstPollAfterPreamble(s: Script, useTelegram: bool)
    requires ReachesPolls(s) && |s.polls| > 0
    ensures Preamble(s) + [Requested(PostStatus(QueueId(s), s.polls[0].at - SetsLag))] <= StartRun(s, useTelegram).1
  {
    StartRunPolls(s, useTelegram);
    var run := PollsFrom(QueueId(s), s.polls, 0, None);
    assert run.1[0] == Requested(PostStatus(QueueId(s), s.polls[0].at - SetsLag));
  }

  /** The poll loop never logs "POST timings OK". */
  lemma {:induction false} PollsFromQuietOnTimings(queueId: string, polls: seq<Poll>, i: nat, redirect: Option<string>)
    requires i <= |polls|
    ensures Logged(PostTimingsOk) !in PollsFrom(queueId, polls, i, redirect).1
    decreases |polls| - i
  {
    if i < |polls| && polls[i].answer.Replied? && polls[i].answer.body.Json? {
      PollsFromQuietOnTimings(queueId, polls, i + 1, polls[i].answer.body.redirectUrl);
    }
  }

  /** The timings POST is not fatal; "POST timings OK" is logged exactly when it answered 201. */
  lemma TimingsLine(s: Script, useTelegram: bool)
    requires ReachesPolls(s)
    ensures Logged(PostTimingsOk) in StartRun(s, useTelegram).1 <==> s.timings.status == 201
  {
    StartRunPolls(s, useTelegram);
    var run := PollsFrom(QueueId(s), s.polls, 0, None);
    PollsFromQuietOnTimings(QueueId(s), s.polls, 0, None);
    var trace := StartRun(s, useTelegram).1;
    var last := AfterPolls(run, useTelegram).1;
    assert Logged(PostTimingsOk) !in last;
    assert trace == Preamble(s) + last;
  }
}
