# DCNFT waiting-room client, modelled in Dafny

DCNFT is a Python script that joins the Queue-it waiting room of the DC Universe NFT drop. It
polls the queue until the room hands out a redirect URL, then reports that URL (and, when
enabled, sends it through Telegram). This project models three parts of it and proves
properties of the model:

- `PowerSession`, the HTTP session wrapper. Its `request` normalises the keyword options, then
  makes up to seven attempts. Each retried failure is logged, recorded in `sessions_log` and,
  unless `error_delay` is zero, followed by a pause of `error_delay`. A failure that asks to
  cancel ends the loop at once with `CancelledRequest`, with no entry and no pause; the seventh
  retried failure ends it with `MaxRequestsExceed`. The model also covers `response_hook` (timing, `domain`, history entry)
  and `get_domain`. Module `RequestUtils`, file `request_utils.dfy`.
- `DcUniverse.start`, the client. It is a chain of guards (landing redirect, queue-it user id,
  queue id, timings preflight), each of which logs an error and returns early. Then comes the
  status poll loop, which ends on a redirect target or on a body that is not JSON. Module
  `DcUniverse`, file `dc_universe.dfy`.
- `Logger.log` and its six wrappers: colour by status, three layouts, and the retry suffix and
  sleep of the default layout. Module `Logging`, file `logger.dfy`.

The supporting modules are:

- `Strings`: decimal digits, Python's float text of a millisecond count, ASCII case,
  substring test, `str.replace` with an empty replacement;
- `Urls`: the part of `urlparse` that is used (scheme, netloc, hostname);
- `Wrappers`: `Option`.

## How the model is built

- **The session is a class.** `PowerSession` has the fields the Python object updates
  (`sessions_log`, `last_response`, the timer), plus fields that record the effects of its
  calls: the clock, the sleeps taken, the log calls made and the requests sent. `Request` is a
  `while` loop over these fields. It is proved equal to the reference function `RunRequest`.
  Closed forms of `RunRequest` for each of the three ways the loop can end are proved as
  lemmas.
- **The network is a parameter.** `Request` takes the answers to its attempts as a sequence of
  `Attempt` values: a response, or a thrown exception class, each with the milliseconds it
  took.
- **Time is an integer clock in milliseconds.** Each attempt advances it by its own duration,
  and each sleep by the error delay.
- **`start` is a method proved against a function.** `Start` takes a `Script` of answers: the
  landing, the queue page, enqueue, preflight and timings answers, and a finite list of poll
  answers, each with the clock reading of its POST. It returns how the run ends and its trace
  of events: requests, sleeps, log lines and the Telegram notification. The method is proved
  equal to the reference function `StartRun`, and the lemmas are about `StartRun`.
- **The logger is pure.** It returns its effects (emitted lines and sleeps) as values.

## Model

| member | source | states |
|---|---|---|
| RequestUtils.PowerSession.constructor | libraries/request_utils.py:54-66 | the history is empty, there is no last response, the timers are zero, the given logger is kept (otherwise a default one named after the session), and the retry suffix is derived from the delay |
| RequestUtils.RetryLog | libraries/request_utils.py:65 | the retry suffix is empty exactly when the error delay is zero |
| RequestUtils.RetryLogNamesDelay | libraries/request_utils.py:65 | a non-zero delay gives " Retrying in <t> seconds", where t is a decimal that denotes the delay in seconds |
| Strings.SecondsTextRoundTrip | libraries/request_utils.py:65 | the printed delay reads back as the same number of milliseconds (whole part, dot, one to three fraction digits) |
| RequestUtils.Normalise | libraries/request_utils.py:100-113 | allow_redirects defaults to True; non-empty headers become ordered with the same items; a falsy timeout becomes 10; no_cache is removed; with no_cache, "_" is set in non-empty params, or params become just "_"; nothing else changes |
| RequestUtils.NormaliseIdempotent | libraries/request_utils.py:100-113 | normalising normalised options changes nothing, whatever the token |
| RequestUtils.NoCacheParams | libraries/request_utils.py:108-113 | with no_cache, looking up "_" gives the token, and every other key of non-empty params keeps its value |
| RequestUtils.SetParamLookup | libraries/request_utils.py:111 | `update({key: value})`: the key maps to the value and every other key is unchanged |
| RequestUtils.SetParamKeys | libraries/request_utils.py:111 | an existing key keeps its position; a new key is appended |
| RequestUtils.SetParamUnique | libraries/request_utils.py:111 | the update keeps keys unique |
| RequestUtils.NoCacheToken | libraries/request_utils.py:109 | the token is a non-empty string of digits (the clock with its dot removed) |
| RequestUtils.ClauseFor | libraries/request_utils.py:123-154 | the chosen except clause catches the exception, and no earlier clause does |
| RequestUtils.ConnectionDispatch | libraries/request_utils.py:123-130 | ConnectTimeout goes to its own clause; ConnectionError, ProxyError and SSLError go to the ConnectionError clause |
| RequestUtils.ClauseDispatch | libraries/request_utils.py:131-144 | HTTPError, ReadTimeout, Timeout and RequestException each reach their own clause |
| RequestUtils.ClauseFallThrough | libraries/request_utils.py:144-154 | other requests errors and urllib3 errors reach the RequestException clause; exactly the non-requests exceptions reach `except Exception` |
| RequestUtils.CancelConditions | libraries/request_utils.py:144-152 | a failure cancels exactly when it is a `requests` error of the RequestException clause or a `urllib3` HTTPError whose lower-cased text contains "no schema supplied", or an exception outside both libraries whose type name or text is "CancelledRequest"; timeouts, connection errors and `requests` HTTPErrors never cancel |
| RequestUtils.RecordedError | libraries/request_utils.py:124-164 | a history entry records an error class exactly when one of the five specific clauses handled the failure (the `as error` name is unbound after the other two) |
| RequestUtils.NoteNeverSleeps | libraries/request_utils.py:125-154 | none of the session's log calls makes the logger sleep: their retry is a string or absent |
| RequestUtils.Hook | libraries/request_utils.py:77-95 | the connection time is the hook time minus the timer start; there is soup exactly when the body is non-empty |
| RequestUtils.PowerSession.ResponseHook | libraries/request_utils.py:77-95 | stops the timer, remembers the response, and appends one completed entry with the request URL, status and connection time |
| RequestUtils.HookDomainOfBuiltUrl | libraries/request_utils.py:81-86 | for "scheme://[user@]host[:port]tail", `domain` is the lower-cased scheme, "://" and the lower-cased host, without user and port |
| Urls.HostnameOfBuiltUrl | libraries/request_utils.py:81-86 | urlparse reads such a URL back into its lower-cased scheme and its lower-cased host |
| Urls.ParseBuiltUrl | libraries/request_utils.py:195-198 | urlparse reads "scheme://location tail" back into its scheme and netloc |
| RequestUtils.PowerSession.Sleep | libraries/request_utils.py:174-176 | the clock advances by the sleep, which is recorded |
| RequestUtils.PowerSession.MakeRequest | libraries/request_utils.py:178-179 | the request is recorded with its options, and the clock advances by the attempt's duration |
| RequestUtils.PowerSession.AfterRetriedFailure | libraries/request_utils.py:156-169 | a retried failure is recorded, then followed by a pause of the error delay unless it is zero |
| RequestUtils.PowerSession.RecordFailure | libraries/request_utils.py:156-166 | the failure's log lines are added, the last response is cleared, the timer is stopped, and a failed entry is appended with a time measured from the start of the request |
| RequestUtils.Retried | libraries/request_utils.py:115-172 | the number of retried failures before the first attempt that ends the loop; it is at most seven, and when it is below seven the next attempt ends the loop |
| RequestUtils.AttemptsMade | libraries/request_utils.py:115-172 | between one and seven attempts are made |
| RequestUtils.RequestAttempts | libraries/request_utils.py:115-172 | for any answers, `request` sends AttemptsMade requests; it adds one history entry per attempt except a cancelling one; it pauses once per retried failure unless the delay is zero; it raises MaxRequestsExceed exactly when all seven attempts are retried failures |
| RequestUtils.RunFromRetried | libraries/request_utils.py:115-172 | the loop after k retried failures is the loop started from their closed-form state |
| RequestUtils.PowerSession.Request | libraries/request_utils.py:97-172 | the new session state and the reply are those of `RunRequest` on the old state |
| RequestUtils.RequestExhausted | libraries/request_utils.py:97-172 | seven retried failures: MaxRequestsExceed, the same normalised request sent seven times, seven pauses (none when the delay is zero), seven failed entries and their log lines, last response cleared, clock and timer end in closed form |
| RequestUtils.RequestAnswered | libraries/request_utils.py:97-172 | n retried failures, then an answer: the hooked response is returned after n + 1 sends, n pauses, n failed entries and one completed entry; its connection time runs from the single timer start |
| RequestUtils.RequestCancelled | libraries/request_utils.py:97-172 | n retried failures, then a cancel: CancelledRequest after n + 1 sends, n pauses and n entries (none for the cancelling attempt); last response and timer end unchanged when n is 0 |
| RequestUtils.FailEntries | libraries/request_utils.py:156-166 | one entry per retried failure |
| RequestUtils.FailEntriesAt | libraries/request_utils.py:159-166 | the j-th entry has the request URL, the recorded error, and the time since the timer start |
| RequestUtils.FailEntriesCumulative | libraries/request_utils.py:156-169 | entry times grow by at least the delay from one failure to the next, and the j-th is at least j delays plus the attempt's duration, because the timer is not restarted |
| RequestUtils.Pauses | libraries/request_utils.py:168-169 | k pauses of the delay, none when the delay is zero |
| RequestUtils.PowerSession.GetDomain | libraries/request_utils.py:181-198 | None exactly when neither the URL nor the last response's URL is truthy; a truthy URL gives its domain; otherwise the last response's URL is used |
| RequestUtils.DomainOfBuiltUrl | libraries/request_utils.py:194-198 | pure_www gives the netloc; pure gives the netloc with `str.replace("www.", "")` applied; otherwise "https://" and the netloc, whatever the scheme |
| RequestUtils.DomainForms | libraries/request_utils.py:182-198 | for "https://www.<host>", where the host has no '/', '?' or '#' and does not contain "www.", the three forms are "https://www.<host>", "<host>" and "www.<host>" |
| Strings.ContainsIff | main.py:40 | Python `in` on strings holds exactly when the pattern occurs at some offset |
| Strings.RemoveAllNone | libraries/request_utils.py:197 | `str.replace(pat, '')` leaves a text without an occurrence of `pat` unchanged |
| Strings.RemoveAllChar | libraries/request_utils.py:109 | removing a character leaves no occurrence of it, and only characters of the input |
| Strings.NatToStringRoundTrip | libraries/logger.py:76 | the decimal text of a number reads back as that number |
| Logging.StatusColour | libraries/logger.py:43-58 | the colour of a status is never Reset |
| Logging.StatusColourMatchesPalette | libraries/logger.py:43-58 | the seven known statuses get their colours; any other status gets cyan |
| Logging.Render | libraries/logger.py:36-41 | a string is shown as is; an object as its `str`, or as its type name when that is empty |
| Logging.Log | libraries/logger.py:33-86 | the last effect emits the formatted line |
| Logging.LogEffects | libraries/logger.py:60-86 | exactly one line, whose one colour is the status colour and which ends with Reset; one sleep of `retry` seconds, only in the default layout and only for a non-zero number |
| Logging.TextRetryNeverSleeps | libraries/logger.py:73-80 | a string retry never sleeps |
| Logging.RetrySuffixInDefaultLayout | libraries/logger.py:72-84 | compared with the same line without a retry, the default layout only appends to the message: " Retry in N sec..." for a number, " Retry..." for another truthy retry, and nothing for a falsy one |
| Logging.OtherLayoutsIgnoreRetry | libraries/logger.py:60-70 | the classic and normal layouts ignore `retry` |
| Logging.ClassicTag | libraries/logger.py:61-65 | in the classic layout, the "[STATUS]:" tag is shown exactly for error, warning and debug |
| Logging.FormatShows | libraries/logger.py:60-84 | in every layout the line switches to the status colour once and resets once, and shows the message; the normal and default layouts start with the clock and show "[STATUS]"; the default layout also shows "[name] => " |
| Logging.Error | libraries/logger.py:88-89 | one line at status "error", in red |
| Logging.Info | libraries/logger.py:91-92 | one line at status "info", in white |
| Logging.Status | libraries/logger.py:94-95 | one line at status "status", in light yellow |
| Logging.Success | libraries/logger.py:97-98 | one line at status "success", in blue |
| Logging.Warning | libraries/logger.py:100-101 | one line at status "warning", in yellow |
| Logging.Debug | libraries/logger.py:103-104 | one line at status "debug", in green |
| DcUniverse.Start | main.py:16-178 | the outcome and trace of `start` are those of `StartRun` on the same answers |
| DcUniverse.PollLoop | main.py:129-178 | the outcome and trace of the poll loop and what follows it are those of the loop semantics `PollsFrom` |
| DcUniverse.LandingGuard | main.py:38-42 | a landing URL without "iobuilders.queue-it.net" stops `start` after one request and one error line |
| DcUniverse.QueueItLogGuard | main.py:44-52 | a queue page without a truthy `data-userid` stops `start` after "Can't find QUEUE_IT_LOG" |
| DcUniverse.QueueIdGuard | main.py:89-96 | an enqueue answer that is not JSON, or that has a falsy `queueId`, stops `start` after "Can't find QUEUE_ID" |
| DcUniverse.PreflightGuard | main.py:100-104 | a preflight status other than 200 stops `start` after "Error on setting Timings" |
| DcUniverse.StartRunPolls | main.py:16-129 | when every guard passes, the run is the preamble followed by the poll loop |
| DcUniverse.PreambleRequests | main.py:17-124 | before the loop, exactly the landing GET, the queue-page GET, the enqueue POST (with the user id and the landing URL as referer), the OPTIONS preflight and the timings POST are the session calls made, and `start` itself does not sleep before the loop |
| DcUniverse.NoPollsWithoutGuards | main.py:38-104 | no status POST is sent unless every guard passes |
| DcUniverse.PreflightStops | main.py:101-104 | after a queue id, a preflight that does not answer 200 means no status POST |
| DcUniverse.TimingsLine | main.py:126-127 | "POST timings OK" is logged exactly when the timings POST answered 201 |
| DcUniverse.PollsFromQuietOnTimings | main.py:129-171 | the poll loop never logs "POST timings OK" |
| DcUniverse.FirstPollAfterPreamble | main.py:124-138 | the first status POST comes right after the preamble, with `sets` five minutes before its clock reading |
| DcUniverse.StatusPostsAt | main.py:131-138 | the j-th status POST names the queue id, with `sets` equal to its clock reading minus 300 |
| DcUniverse.PollStep | main.py:130-167 | a poll that goes on sends one status POST and sleeps for its interval, then the next poll follows |
| DcUniverse.LastPoll | main.py:149-171 | a poll that breaks, or is not JSON, sends one POST, does not sleep and ends with a log line ("Error in Queue" for a body that is not JSON) |
| DcUniverse.PollKinds | main.py:149-171 | a poll either goes on, breaks, is not JSON or raises |
| DcUniverse.PollsFromStops | main.py:130-166 | polls that go on, then one that breaks: the loop breaks with that poll's redirect, after k + 1 status-POST session calls and k sleeps of the given intervals |
| DcUniverse.PollsFromQueueError | main.py:149-171 | polls that go on, then one that is not JSON: the loop breaks with the last redirect seen before it, after k + 1 POSTs and k sleeps, ending with "Error in Queue" |
| DcUniverse.PollsFromCrash | main.py:149-167 | polls that go on, then one that raises: the loop ends with that exception |
| DcUniverse.FinishedRun | main.py:173-178 | a loop that breaks with target t finishes with t: the requests are the preamble's followed by the loop's, the sleeps are the loop's, and the trace ends with the success line and, when enabled, the notification |
| DcUniverse.PollingStops | main.py:129-178 | when poll k breaks after polls that go on, `start` finishes with that poll's redirect URL, after the preamble, k + 1 status-POST session calls and k sleeps by `start` |
| DcUniverse.PollingQueueError | main.py:149-178 | when poll k is not JSON, `start` still logs success and notifies, with the redirect of the last parsed poll (None if there was none) |
| DcUniverse.TargetOnConsole | main.py:14 | on the client's classic-layout logger, the final line is the blue target with no status tag, showing "None" when there is no target; no line of `start` makes the logger sleep |
| DcUniverse.QueueErrorOnConsole | main.py:170 | on the classic-layout logger, "Error in Queue" is a red line tagged "[ERROR]:" |
| DcUniverse.PollsFromUnreported | main.py:129-171 | the poll loop itself never logs the target line or sends the notification |
| DcUniverse.PollingCrashes | main.py:149-167 | when poll k raises (a failed request, an interval of None, a negative interval), `start` ends with that exception, and its trace holds neither the success line nor the notification |

## Left out

- DcUniverse.Start: each session call is one `Requested` event and its final answer. The
  attempts, error-delay pauses and log lines inside `PowerSession.request` (modelled by
  RequestUtils.PowerSession.Request) are not in the trace, so the request and sleep counts of
  the `DcUniverse` lemmas count session calls and `start`'s own sleeps.
- Real I/O is not modelled: the network, TLS, DNS, `time.time`, `time.ctime`, `uuid.uuid1`,
  the printed `'\n\n'` and the `logging` module are parameters or are left out. The history
  entries have no `time` field, and the status POST's `seid` and JSON body are not modelled.
- `SessionAdapter` and `check_tls_version` are left out. They only configure the TLS pool or
  call a fixed URL.
- HTML parsing is reduced to its result. BeautifulSoup is replaced by a `Page` value: blank,
  or HTML with or without the `queue-it_log` meta tag and its `data-userid`.
- JSON decoding is reduced to its result. Each body is "not JSON" or the fields read from it.
  A JSON body that is not an object, and a `ticket` that is `null`, are not modelled: in
  Python those raise outside the `except`.
- `send_telegram` is an opaque `Notified` event. `Config.USE_TELEGRAM` is a parameter.
- `requests` calls `response_hook` on every redirect hop. The model runs it once, on the
  final response.
- The poll answers are a finite list. Running out of them is the model-only outcome
  `PollsRanOut`; the client polls for as long as it gets answers.
- Sharing is not modelled. The caller's `params` dict is updated in place by `no_cache`, and
  the caller's `kwargs` are shared; the model returns new options instead.
- Only the request options `request` reads are modelled (allow_redirects, headers, timeout,
  no_cache, params, allowed_codes). The others pass through unchanged.
- IPv6 literals and percent-encoding in host names are not modelled by `Urls`. Nor is
  `urlsplit`'s clean-up of its input: it first strips leading C0 control characters and spaces
  and removes every '\t', '\r' and '\n'; `Urls.Scheme` and `Urls.Netloc` read the text as given.
- Strings.Lower: case mapping is ASCII only, while Python's `str.lower` and `str.upper` are
  Unicode-aware. This matters for host names, the "no schema supplied" test and the
  `[STATUS]` tag only on non-ASCII input.
- `*args` to `request` and to the logger are not modelled.
- Exceptions outside `Exception` (KeyboardInterrupt, SystemExit) are not modelled. They pass
  through every clause of `request`'s except chain.
- RequestUtils.PowerSession.Request: the error delay is a whole number of milliseconds, not a
  float. Its text is Python's shortest float repr only for whole milliseconds.
- Logging.LogEffects: the numeric retry is a whole number of seconds. A float retry, a
  boolean (which Python counts as an int) and a negative int are not modelled. A negative int
  is truthy, so Python appends " Retry in -1 sec..." and then `time.sleep` raises
  `ValueError` before any line is printed.
- Logging.Format: the `%H:%M:%S` clock and the microseconds come in as text; their formatting
  is not modelled.
- RequestUtils.Hook: the soup itself is not modelled, only whether it exists.

## Notes on the code

- `request` starts its timer once per call, before the loop. Every history entry's connection
  time therefore includes all earlier attempts and pauses
  (`RequestUtils.FailEntriesCumulative`).
- A cancelling failure raises CancelledRequest before the history append, so it adds no
  history entry and leaves `last_response` as it was.
- The preflight check of `start` compares the status with 200 exactly.
- `get_domain(pure=True)` applies `str.replace('www.', '')` to the netloc. Without `pure` or
  `pure_www`, it returns "https://" followed by the netloc, whatever the URL's scheme.
- A status body that is not JSON logs "Error in Queue" and breaks the loop. `start` then logs
  `redirect_target` at status "success" (possibly None) and, when enabled, sends it to
  Telegram.
- The session passes its retry suffix to the logger as a string, so the logger never sleeps
  on its behalf (`RequestUtils.NoteNeverSleeps`). The pause comes from the session's own
  `sleep`.
