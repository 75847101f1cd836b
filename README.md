# Resilience core of the Gemini chat gateway

The gateway (`server.py`) exposes an OpenAI-style `/v1/chat/completions` endpoint in front of
a Gemini web client that authenticates with two browser cookies, `__Secure-1PSID` and
`__Secure-1PSIDTS`. This project models the part of the request handler that keeps the
service alive and the conversation continuous:

- the **circuit breaker**: a failure counter with three regimes (below 3 closed, from 3 open,
  at 100 critical: a hard rate limit sets it at once, and 100 consecutive authentication
  failures reach it too, after which the long cool-down and the rate-limit reason of line 395
  apply although no 429 was seen), its timestamp, and the cool-down admission check of 900 or
  3600 seconds plus a jitter of 0 to 300 seconds;
- the **error classification** of an upstream exception by its lower-cased text: "429" first,
  then nine authentication or connection-reset markers, else pass-through;
- the **cookie supplier** `get_auto_cookies`: the cache file unless a refresh is forced, then
  the browser cookie jar (last cookie of each name wins), a successful harvest written back;
- **session acquisition**: the chat held in memory, else one restored from its record on disk,
  else a new one, and the rebuild of the chat on a refreshed client;
- the **context reconciler**: when a conversation is not known to this process but the caller
  sent earlier turns, up to ten of them are written out as a script before the latest message;
- the **request handler** that strings these together, with the refresh-and-resend recovery.

Files, one module each: `wrappers.dfy` (Option), `text.dfy` (lower-casing, the substring test,
decimal printing), `classify.dfy`, `breaker.dfy`, `cookies.dfy`, `prompt.dfy`, `server.dfy`
(the `Server` class holding the process globals and the request handler) and `scenarios.dfy`
(three concrete runs of the handler, proved from its contract).

Everything the handler learns from outside is a parameter: clock readings and the jitter draw,
the browser's cookie jar, whether each client init succeeds, the outcome of each
`send_message`, and the UUID for a new conversation (the `Environment` record). The cookie
cache file and the conversations directory are abstract values held in fields.

The wait hint in a 503 is `int(...)` of the remaining time, which truncates (the floor); it is
not rounded up.

## Model

| member | source | states |
|---|---|---|
| Text.Lower | server.py:499 | `str.lower` keeps the length, maps each character through ASCII lower-casing and leaves no upper-case letter |
| Text.LowerIdempotent | server.py:499 | lower-casing an already lower-cased text changes nothing |
| Text.Contains | server.py:505 | the computed substring test is true exactly when the marker occurs at some offset of the text (Python's `in`) |
| Text.NatToDecimal | server.py:580 | `str(n)` is a non-empty string of decimal digits with no leading zero unless it is "0" |
| Text.DecimalRoundTrip | server.py:580 | reading the printed digits of `n` back gives `n` |
| Text.DecimalInjective | server.py:580 | two different failure counts never print the same |
| ErrorClass.ContainsAny | server.py:521-531 | the `or` chain over the marker list is true exactly when some marker of the list occurs in the text |
| ErrorClass.Classify | server.py:499-531 | rate limit iff "429" occurs in the lower-cased text; authentication failure iff it does not and one of the nine markers does; otherwise unclassified |
| ErrorClass.ClassifyIgnoresCase | server.py:499 | classification gives the same kind for a text and its lower-cased form |
| ErrorClass.RateLimitTakesPrecedence | server.py:505-531 | a text carrying "429" and any authentication marker is a rate limit |
| CircuitBreaker.CriticalCoolDownLonger | server.py:58-59 | the critical base cool-down is four times the normal one |
| CircuitBreaker.NeedsAdmissionCheck | server.py:380 | definition: the admission check runs iff there is no client or the counter is at least 3; `Decide`, `ClosedBreakerAdmits` and `DecideAsWritten` are stated in terms of it |
| CircuitBreaker.BaseCoolDown | server.py:384 | definition: 3600 seconds once the counter is at least 100, else 900; `CriticalCoolDownLonger` and `AdmissionWindow` are about it |
| CircuitBreaker.Decide | server.py:380-403 | rejected iff (no client or count at least 3) and elapsed time is below base plus jitter; the critical flag iff count at least 100; the remaining seconds are the floor of the remaining time, and the minutes are those seconds divided by 60 |
| CircuitBreaker.AdmissionWindow | server.py:380-394 | for every jitter draw: elapsed below the base is rejected, elapsed at least base plus 300 is admitted |
| CircuitBreaker.ClosedBreakerAdmits | server.py:380 | with a client and fewer than 3 failures the request is admitted whatever the clock says |
| CircuitBreaker.Step | server.py:417-573 | definition: the counter after one event (a rate limit sets 100, line 509; an authentication failure adds one below 100, lines 423-424 and 572-573; a success sets 0, lines 495 and 568; a cold-start init clears it below 100, lines 417-418); every `Record*` method and `InitOutcome` is proved equal to it, and `HardLimitsPinCounter`, `CriticalIsSticky`, `AuthFailuresAccumulate` and `SuccessResets` are about it |
| CircuitBreaker.Replay | server.py:380-581 | definition: the counter after a sequence of requests' events, one request at a time; `ReplayAppend` and the lemmas below are about it |
| CircuitBreaker.ReplayAppend | server.py:380-581 | replaying two runs of counter events one after the other is replaying their concatenation |
| CircuitBreaker.HardLimitsPinCounter | server.py:509 | one or more hard rate limits leave the counter at exactly 100, whatever it was |
| CircuitBreaker.CriticalIsSticky | server.py:417-418 | from 100, no run of authentication failures, rate limits or cold-start inits lowers the counter; only a success does |
| CircuitBreaker.SuccessResets | server.py:492-495 | a success after any history leaves the counter at 0 |
| CircuitBreaker.AuthFailuresAccumulate | server.py:423-424 | consecutive authentication failures each add one, saturating at 100 |
| CircuitBreaker.AuthFailuresReachCritical | server.py:423-424 | from an open breaker at 3, 97 authentication failures and no rate limit reach 100 and the one-hour base cool-down |
| CircuitBreaker.ThreeAuthFailuresOpen | server.py:380 | three authentication failures from a closed breaker open it |
| CircuitBreaker.DecideAsWritten | server.py:388 | as written, the admission block raises AttributeError exactly when it runs (no client, or count at least 3) |
| CircuitBreaker.RandintFinding | server.py:13 | a server with no client and counter 0, its failure time still 0.0, at any real clock reading (at least 1200 seconds since the epoch): the code as written fails the request, the intended check admits it for every jitter draw |
| Cookies.LastValue | server.py:141-145 | definition: the value of the last cookie with the name, or missing; `ScanJar` is proved equal to it and `LastValueIsLastMatch`, `LastValueNoMatch` are about it |
| Cookies.LastValueIsLastMatch | server.py:141-145 | the value kept for a name is that of the last cookie in the jar with that name |
| Cookies.LastValueNoMatch | server.py:138-145 | with no cookie of that name the value stays missing |
| Cookies.ScanJar | server.py:141-145 | the scan loop ends with the last value of each of the two cookie names |
| Cookies.Harvested | server.py:147-165 | a harvest yields a pair iff it produced a jar whose last values for both names are non-empty, and then exactly those values |
| Cookies.Cached | server.py:116-125 | definition: the cached pair when the file exists, reads and holds both values non-empty; `Obtain` is stated in terms of it |
| Cookies.Obtain | server.py:107-169 | any returned pair is complete; an unforced call with a complete cache returns it and leaves the cache alone; a forced call or an incomplete cache returns the harvest's result; the cache is unchanged unless a harvest succeeded, in which case it holds exactly that pair |
| Cookies.ForceRefreshIgnoresCache | server.py:116 | a forced refresh gives the same result whatever the cache file holds |
| Cookies.CookieSupplier.constructor | server.py:107 | the supplier starts with the given cache file |
| Cookies.CookieSupplier.GetAutoCookies | server.py:107-169 | the result and the new cache file are those of `Obtain` on the old cache |
| Prompt.Label | server.py:471 | definition: "User" exactly for the role "user", "Model" for every other role |
| Prompt.Line | server.py:472 | definition: one script line, the bracketed label, a colon, the content and a newline; `BuildContext`'s loop body is proved equal to it |
| Prompt.Lines | server.py:470-472 | definition: the script lines of a run of turns in order; `LinesAppend` and `LinesSplit` are about it |
| Prompt.LinesAppend | server.py:470-472 | the script of two runs of turns is the script of the first followed by that of the second |
| Prompt.LinesSplit | server.py:470-472 | each turn's line sits between the lines of the turns before it and those after it |
| Prompt.RecentHistory | server.py:464 | `all_messages[-11:-1]` has min(n-1, 10) turns and is exactly the run that ends just before the latest message |
| Prompt.Outbound | server.py:458-490 | with files the raw latest message and the files are sent; without files and with history injected, the script alone; without files and without injection, the latest message unchanged and no files |
| Prompt.InjectsHistory | server.py:463 | definition: history is injected iff the session is not recovered and there is more than one message; `Outbound` and `FreshSessionReplaysTurns` are stated in terms of it |
| Prompt.ContextPrompt | server.py:463-477 | definition: header, the lines of the recent turns, the system line and the latest message; `BuildContext` is proved equal to it and `FreshSessionReplaysTurns` is about it |
| Prompt.FinalPrompt | server.py:458-477 | definition: the script when history is injected, else the latest message; `FreshSessionReplaysTurns` is about it |
| Prompt.BuildContext | server.py:463-477 | the loop builds the header, one labelled line per recent turn in order, the system line and the latest message |
| Prompt.FreshSessionReplaysTurns | server.py:458-477 | every earlier turn in the window occurs, labelled, in the prompt of a new session; a recovered session sends the latest message exactly |
| Gateway.ModelFor | server.py:308-314 | the four known names map to their models (two names to 2.5 Pro) and every other name to the unspecified model |
| Gateway.RecoverFailedText | server.py:578-581 | the 401 detail is the fixed prefix followed by decimal digits that read back as the failure count, with no leading zero unless the count is 0 (then the single digit "0") |
| Gateway.ChosenId | server.py:448-450 | definition: the caller's id, else the fresh UUID; `GetOrCreate` is proved to return it |
| Gateway.HasRecord | server.py:441-442 | definition: the record exists and is truthy (non-empty metadata); `GetOrCreate` is stated in terms of it |
| Gateway.IsRecovered | server.py:433-446 | definition: the caller named a conversation held in memory or with a truthy record; `GetOrCreate` is proved to return it as its flag |
| Gateway.AcquiredChat | server.py:433-453 | definition: the held chat, else one started from the record's metadata, else a new chat; `GetOrCreate` is proved to return and enter it |
| Gateway.PassesAdmission | server.py:380-428 | definition: admitted by `Decide` and, on a cold start, the unforced supplier yields a pair and init succeeds; `AdmissionStage` proves the request continues exactly then |
| Gateway.RecoverSpec | server.py:536-581 | definition: the state and answer after the refresh-and-resend recovery; `Recover` is proved to meet it and `ResendOutcome` draws its consequences |
| Gateway.SendSpec | server.py:486-585 | definition: the state, answer and list of sends after the first send by error kind; `SendStage` and `HandleRequest` are proved to meet it |
| Gateway.AfterAdmission | server.py:405-419 | once through admission there is a client, and the timestamp, the chats and the records are as before |
| Gateway.Server.constructor | server.py:51-56 | no client, counter 0, timestamp 0.0, no chats held, the records already on disk |
| Gateway.Server.Startup | server.py:179-197 | the environment's pair when both are set, else the supplier's unforced result, becomes the client (initialised or not); otherwise the client is unchanged |
| Gateway.Server.Admit | server.py:380-403 | the cool-down check on the current state gives the decision `Decide` specifies |
| Gateway.Server.RecordCritical | server.py:509-510 | the counter becomes 100 and the timestamp the error time, whatever the counter was |
| Gateway.Server.RecordAuthFailure | server.py:572-575 | the counter gains one unless it is 100, and the timestamp becomes the given time |
| Gateway.Server.RecordSuccess | server.py:492-495 | the counter becomes 0 and the timestamp stays |
| Gateway.Server.InitOutcome | server.py:410-426 | the init succeeds iff there was a pair and the client initialised; a pair always becomes the client; success clears the counter unless critical, failure counts one more failure stamped with the given time |
| Gateway.Server.GetOrCreate | server.py:433-453 | the id is the caller's or else the fresh UUID; recovered iff the caller's id is held in memory or has a truthy record; the chat is the held one, else one restored from the record, else a new one; afterwards the id maps to that chat and nothing else in memory changed |
| Gateway.Server.RebuildSession | server.py:550-558 | the chat is rebuilt on the current client from the old entry's metadata and replaces that entry |
| Gateway.Server.SaveConversation | server.py:332-336 | the record of the id becomes the given metadata; every other record stays |
| Gateway.Server.AdmissionStage | server.py:380-428 | the request continues iff it is admitted and a cold start finds a pair that initialises; a rejection answers 503 with the cool-down notice and changes nothing; a failed cold start answers 500 and counts one failure |
| Gateway.Server.SendStage | server.py:486-585 | a reply resets the counter and persists the chat's metadata; a rate limit answers 429, pins the counter at 100 and is never resent; an unclassified error answers 500 with its own text and changes nothing; an authentication failure goes through the recovery; the payload is sent once, and again only on a resend |
| Gateway.Server.Recover | server.py:536-581 | a forced refresh; a new pair becomes the client; if it initialises the chat is rebuilt and the payload resent; a reply resets the counter and is persisted; any failure counts one more, is stamped with the error time of line 500 and answers 401 with the resulting count |
| Gateway.Server.HandleRequest | server.py:364-630 | no messages answers 500 "list index out of range" and changes nothing; a cooling-down breaker answers 503 and sends nothing; a failed cold start answers 500, counts one failure and leaves the supplier's pair as an uninitialised client (or no client) and the cache as the supplier left it; otherwise the acquired chat is entered in memory and the send of the reconciled payload ends as `SendSpec` states |
| Scenarios.ColdStartFillsCache | server.py:405-419 | a first request with no cache file and a logged-in browser completes and leaves the harvested pair in the cache |
| Scenarios.RateLimitThenCoolDown | server.py:505-516 | after a rate limit, a request 100 seconds later is answered 503 with the critical flag and a positive wait without anything being sent upstream, and the counter is 100 |
| Scenarios.Unauthorized | server.py:522 | a bare "401" is an authentication failure |
| Scenarios.RefreshedPair | server.py:141-147 | a jar with the timestamp cookie before the session cookie still yields both values |
| Scenarios.ResendOutcome | server.py:533-568 | for an expired session whose refresh finds a pair and whose resend replies, the send contract gives the reply, counter 0, the resend's metadata on disk and two sends of the same payload |
| Scenarios.RefreshAndResend | server.py:536-568 | an expired session with a record is refreshed and resent: the reply completes, the counter is 0, the record holds the resend's metadata and the payload was sent twice |

## Left out

- The Nacos service registration and its heartbeat thread (lines 199-280): network client and thread concurrency.
- FastAPI routing, CORS, static mounts, the upload, listing, image, model-list and health endpoints: HTTP glue outside the resilience core.
- The success response envelope (a random `chatcmpl-` id, the `created` clock reading, the echoed model name): only the conversation id and the content are kept.
- Images in a reply and their URLs (lines 596-609): file I/O and request headers.
- The cache file and the conversations directory are values, not files: JSON encoding, the `updated_at` stamp and the directory layout are not modelled.
- Cookies.Obtain: a failed write of the cache file (lines 159-160) is not modelled; the write is taken to succeed. A cache file holding non-string values is not modelled either.
- Gateway.Server.SaveConversation: a failing write, which the handler would answer with 500, is not modelled.
- `GeminiClient` (`init`, `start_chat`, `send_message`) and `browser_cookie3.chrome` are opaque: their outcomes are parameters, and a chat's metadata is an opaque value.
- The clock, the UUID generator and the random jitter are parameters; `get_container_ip`, `get_today_dir` and `generate_filename` are not modelled.
- The 503 detail text (a sentence with the reason, seconds and minutes) is modelled by its parts: the critical flag that selects the reason, the seconds and the minutes.
- Text.Lower: only ASCII letters are lower-cased; Python's full Unicode case mapping is not modelled.
- Gateway.Server.RebuildSession: the branch of line 556 (the id not held in memory) is not modelled, because acquisition always enters the id just before, so it cannot run when requests do not interleave; a concurrent `DELETE /conversations/{id}` (lines 672-674) during the send's `await` (lines 488-490) could reach it, which belongs to the concurrency line below.
- test_cookie.py: a manual probe that repeats the cookie-scan loop of `get_auto_cookies`.
- Concurrent requests interleaving on the shared globals and on `active_chats` (including a delete during an `await`): one request at a time is modelled.
- Clock readings (lines 390, 425, 500) and the `int(actual_cool_down - time_passed)` of line 394 are Python floats; the model uses exact reals, so float rounding at the cool-down boundary and in the wait hint is not modelled.
- Debug logging and the timing of the send (`start_time`, `elapsed_time`).

## Findings

| source | as written | input that shows it | evidently intended | confidence | as-written member | corrected member |
|---|---|---|---|---|---|---|
| server.py:388 | line 13 binds `random` to the function `random.random`, so `random.randint` raises AttributeError whenever the admission block runs; the handler answers 500 and, no state having changed, a server with no client or an open breaker never recovers | any request to a server that started without credentials: no client, counter 0, failure time 0.0, at any real clock reading | the jitter is a draw of `randint(0, 300)` and the request is admitted once the cool-down has passed | not executed | CircuitBreaker.DecideAsWritten | CircuitBreaker.Decide |
