/** The request handler of the chat gateway (server.py `chat_completions`, lines 357-630) and
    the process-wide state it changes: the upstream client, the conversations held in memory,
    the circuit-breaker counter and its timestamp, and the conversation records on disk.
    Everything the handler learns from outside (clock readings, the jitter draw, the browser
    cookie jar, the outcome of each upstream call, a fresh UUID) is a parameter. */
module Gateway {
  import opened Wrappers
  import opened Text
  import opened ErrorClass
  import opened CircuitBreaker
  import opened Cookies
  import opened Prompt

  datatype ModelId = Gemini25Pro | Gemini25Flash | Gemini30Pro | Unspecified

  /** MODEL_MAP (lines 308-314). */
  const ModelMap: map<string, ModelId> := map[
    "gemini-pro" := Gemini25Pro,
    "gemini-2.5-pro" := Gemini25Pro,
    "gemini-2.5-flash" := Gemini25Flash,
    "gemini-3.0-pro" := Gemini30Pro,
    "default" := Unspecified
  ]

  /** `MODEL_MAP.get(request.model, Model.UNSPECIFIED)` (line 367). */
  function ModelFor(name: string): (r: ModelId)
    ensures r == Gemini25Pro <==> name == "gemini-pro" || name == "gemini-2.5-pro"
    ensures r == Gemini25Flash <==> name == "gemini-2.5-flash"
    ensures r == Gemini30Pro <==> name == "gemini-3.0-pro"
    ensures r == Unspecified <==> name !in ["gemini-pro", "gemini-2.5-pro", "gemini-2.5-flash", "gemini-3.0-pro"]
  {
    if name in ModelMap then ModelMap[name] else Unspecified
  }

  /** A conversation's metadata as the upstream library gives it; opaque here. An empty one
      is falsy, so a record holding it does not restore a session. */
  datatype Metadata = Metadata(ids: seq<string>)

  /** The metadata of a chat started without any. */
  const NewChatMetadata: Metadata := Metadata([])

  /** `gemini_client`: absent, or created from a credential pair. The object is assigned
      before `init()` is awaited (lines 413-414, 547-548), so a failed init leaves a client
      that was never initialised. */
  datatype ClientState = NoClient | Client(creds: Credentials, initialized: bool)

  /** A chat session: the credentials of the client that started it, its metadata and model. */
  datatype Chat = Chat(owner: Credentials, metadata: Metadata, model: ModelId)

  /** The outcome of one `send_message`: a reply (its text, "" for none, and the chat's
      metadata afterwards) or an exception with the text `str(e)`. */
  datatype SendOutcome = Replied(text: string, metadata: Metadata) | Raised(error: string)

  /** The body of a `/v1/chat/completions` request; "" stands for no conversation id and an
      empty list for no files. */
  datatype Request = Request(model: string, messages: seq<Message>, conversationId: string, files: seq<string>)

  /** What the world answers during one request. */
  datatype Environment = Environment(
    admitTime: real,          // time.time() at line 390
    jitter: Jitter,           // the cool-down jitter draw of line 388
    initHarvest: Harvest,     // the browser harvest if the cold-start supplier reaches it
    initOk: bool,             // whether the cold-start init of line 414 succeeds
    initFailTime: real,       // time.time() at line 425
    freshId: string,          // str(uuid.uuid4()) at line 450
    firstSend: SendOutcome,   // lines 487-490
    errorTime: real,          // current_time at line 500
    refreshHarvest: Harvest,  // the browser harvest of the forced refresh at line 539
    reinitOk: bool,           // whether the init of line 548 succeeds
    retrySend: SendOutcome    // lines 562-565
  )

  /** An error detail: a text, or the structured cool-down notice of lines 395-400 (whether the
      counter is critical, selecting the reason, and the wait in seconds and in minutes). */
  datatype Detail = Plain(text: string) | CoolingDown(critical: bool, remainingSeconds: int, remainingMinutes: int)

  /** The reply: a completion (conversation id and content) or an HTTP error. */
  datatype Outcome = Completed(conversationId: string, content: string) | Failed(status: int, detail: Detail)

  const IndexErrorText: string := "list index out of range"
  const InitFailedText: string := "Gemini client init failed"
  const RateLimitedText: string := "Upstream service rate limited (429). System entering deep freeze for 1 hour."
  const RecoverFailedPrefix: string := "Session expired and recover failed. Failure count: "

  /** The 401 detail of line 580. */
  function RecoverFailedText(count: nat): (r: string)
    ensures RecoverFailedPrefix <= r && |r| > |RecoverFailedPrefix|
    ensures forall i :: |RecoverFailedPrefix| <= i < |r| ==> IsDigit(r[i])
    ensures DecimalValue(r[|RecoverFailedPrefix|..]) == count
    ensures r[|RecoverFailedPrefix|] == '0' ==> count == 0 && |r| == |RecoverFailedPrefix| + 1
  {
    var digits := NatToDecimal(count);
    DecimalRoundTrip(count);
    assert (RecoverFailedPrefix + digits)[|RecoverFailedPrefix|..] == digits;
    RecoverFailedPrefix + digits
  }

  /** The id the request ends up with: the caller's, else a fresh UUID. */
  function ChosenId(requested: string, freshId: string): string
  {
    if requested != "" then requested else freshId
  }

  /** `load_conversation(id)` returns a truthy record. */
  predicate HasRecord(records: map<string, Metadata>, id: string)
  {
    id in records && records[id].ids != []
  }

  /** `is_recovered_session`: the caller named a conversation that is held in memory or has a
      record. */
  predicate IsRecovered(chats: map<string, Chat>, records: map<string, Metadata>, requested: string)
  {
    requested != "" && (requested in chats || HasRecord(records, requested))
  }

  /** The chat the acquisition picks: memory first, then the record, then a new chat. */
  function AcquiredChat(chats: map<string, Chat>, records: map<string, Metadata>, requested: string,
                        owner: Credentials, model: ModelId): Chat
  {
    if requested != "" && requested in chats then chats[requested]
    else if requested != "" && HasRecord(records, requested) then Chat(owner, records[requested], model)
    else Chat(owner, NewChatMetadata, model)
  }

  /** The whole state one request can change: the globals, the records on disk and the
      cookie cache file. */
  datatype Snapshot = Snapshot(
    client: ClientState, count: Count, last: real,
    chats: map<string, Chat>, records: map<string, Metadata>, cache: CacheFile)

  /** The admission block lets the request through: it is not cooling down and, on a cold
      start, the supplier finds a pair and the client initialises. */
  predicate PassesAdmission(s: Snapshot, env: Environment)
  {
    Decide(s.client.Client?, s.count, s.last, env.admitTime, env.jitter).Admitted?
    && (s.client.NoClient? ==> Obtain(s.cache, false, env.initHarvest).0.Some? && env.initOk)
  }

  /** The state once the admission block has let the request through: on a cold start the
      supplier's pair is the client, the counter is cleared unless critical, and the cache
      holds what the supplier left; otherwise nothing changed. */
  function AfterAdmission(s: Snapshot, env: Environment): (t: Snapshot)
    requires PassesAdmission(s, env)
    ensures t.client.Client? && t.last == s.last && t.chats == s.chats && t.records == s.records
  {
    if s.client.NoClient?
    then
      var o := Obtain(s.cache, false, env.initHarvest);
      s.(client := Client(o.0.value, true), count := Step(s.count, InitSucceeded), cache := o.1)
    else s
  }

  /** How the recovery of lines 536-581 ends, from state `s` in which `id` is held: force a
      fresh pair; if there is one, it becomes the client; if that client initialises, the chat
      is rebuilt on it from the old chat's metadata and the payload is resent. A reply resets
      the counter and is persisted; any failure adds one to the counter, stamps it with the
      error time of line 500 and answers 401 with the resulting count. */
  ghost predicate RecoverSpec(s: Snapshot, id: string, model: ModelId, env: Environment, out: Outcome, t: Snapshot)
  {
    id in s.chats &&
    var renewed := Harvested(env.refreshHarvest);
    var resent := renewed.Some? && env.reinitOk;
    var rebuilt := Chat(if renewed.Some? then renewed.value else s.chats[id].owner, s.chats[id].metadata, model);
    && t.cache == Obtain(s.cache, true, env.refreshHarvest).1
    && t.client == (if renewed.Some? then Client(renewed.value, env.reinitOk) else s.client)
    && (out.Completed? <==> resent && env.retrySend.Replied?)
    && (if out.Completed?
        then out == Completed(id, env.retrySend.text)
             && t.count == 0 && t.last == s.last
             && t.chats == s.chats[id := rebuilt.(metadata := env.retrySend.metadata)]
             && t.records == s.records[id := env.retrySend.metadata]
        else out == Failed(401, Plain(RecoverFailedText(t.count)))
             && t.count == Step(s.count, AuthFailed) && t.last == env.errorTime
             && t.chats == (if resent then s.chats[id := rebuilt] else s.chats)
             && t.records == s.records)
  }

  /** How the send of lines 486-585 ends, from state `s` in which `id` holds `chat`. `sent`
      lists what was passed to `send_message`: the payload once, and again only on a resend.
      A reply resets the counter and persists the chat's new metadata; a rate limit pins the
      counter at 100 and is never resent; an unclassified error leaves every part of the state
      as it was; an authentication error goes through the recovery. */
  ghost predicate SendSpec(s: Snapshot, id: string, chat: Chat, payload: Payload, model: ModelId, env: Environment,
                           out: Outcome, sent: seq<Payload>, t: Snapshot)
  {
    && 1 <= |sent| <= 2 && sent[0] == payload && (|sent| == 2 ==> sent[1] == payload)
    && (env.firstSend.Replied? ==>
          out == Completed(id, env.firstSend.text) && |sent| == 1
          && t == s.(count := 0, chats := s.chats[id := chat.(metadata := env.firstSend.metadata)],
                     records := s.records[id := env.firstSend.metadata]))
    && (env.firstSend.Raised? && Classify(env.firstSend.error) == RateLimited ==>
          out == Failed(429, Plain(RateLimitedText)) && |sent| == 1
          && t == s.(count := CriticalCount, last := env.errorTime))
    && (env.firstSend.Raised? && Classify(env.firstSend.error) == Unclassified ==>
          out == Failed(500, Plain(env.firstSend.error)) && |sent| == 1 && t == s)
    && (env.firstSend.Raised? && Classify(env.firstSend.error) == AuthFailure ==>
          RecoverSpec(s, id, model, env, out, t)
          && |sent| == (if Harvested(env.refreshHarvest).Some? && env.reinitOk then 2 else 1))
  }

  class Server {
    var client: ClientState
    var failureCount: Count
    var lastFailureTime: real
    var activeChats: map<string, Chat>
    /** The conversations directory: one record per conversation id. */
    var records: map<string, Metadata>

    /** The globals of lines 51-56, with whatever records are already on disk. */
    constructor (stored: map<string, Metadata>)
      ensures client == NoClient && failureCount == 0 && lastFailureTime == 0.0
      ensures activeChats == map[] && records == stored
    {
      client := NoClient;
      failureCount := 0;
      lastFailureTime := 0.0;
      activeChats := map[];
      records := stored;
    }

    /** The client set-up at start-up (lines 179-197): the environment's pair if both halves
        are set, else the supplier without forcing a refresh. A failed init is only logged. */
    method Startup(envPsid: string, envTs: string, supplier: CookieSupplier, h: Harvest, initOk: bool)
      modifies this`client, supplier
      ensures envPsid != "" && envTs != "" ==>
                client == Client(Credentials(envPsid, envTs), initOk) && supplier.cache == old(supplier.cache)
      ensures !(envPsid != "" && envTs != "") ==>
                var o := Obtain(old(supplier.cache), false, h);
                supplier.cache == o.1
                && client == (if o.0.Some? then Client(o.0.value, initOk) else old(client))
    {
      var psid, ts := envPsid, envTs;
      if psid == "" || ts == "" {
        var auto := supplier.GetAutoCookies(false, h);
        if auto.Some? {
          psid, ts := auto.value.psid, auto.value.ts;
        }
      }
      if psid != "" && ts != "" {
        client := Client(Credentials(psid, ts), initOk);
      }
    }

    /** The cool-down check of lines 380-403, reading the clock and the jitter as given. */
    method Admit(now: real, jitter: Jitter) returns (d: Admission)
      ensures d == Decide(client.Client?, failureCount, lastFailureTime, now, jitter)
    {
      if client.NoClient? || failureCount >= OpenThreshold {
        var baseCoolDown := if failureCount >= CriticalCount then CriticalCoolDown else NormalCoolDown;
        var actualCoolDown := baseCoolDown + jitter;
        var timePassed := now - lastFailureTime;
        if timePassed < actualCoolDown as real {
          var remaining := (actualCoolDown as real - timePassed).Floor;
          return Rejected(failureCount >= CriticalCount, remaining, remaining / 60);
        }
      }
      d := Admitted;
    }

    /** A hard rate limit pins the counter at 100 and stamps the failure (lines 509-510). */
    method RecordCritical(now: real)
      modifies this`failureCount, this`lastFailureTime
      ensures failureCount == CriticalCount && failureCount == Step(old(failureCount), HardLimited)
      ensures lastFailureTime == now
    {
      failureCount := CriticalCount;
      lastFailureTime := now;
    }

    /** An authentication failure adds one unless the counter is critical (lines 423-425, 572-575). */
    method RecordAuthFailure(now: real)
      modifies this`failureCount, this`lastFailureTime
      ensures failureCount == if old(failureCount) < CriticalCount then old(failureCount) + 1 else CriticalCount
      ensures failureCount == Step(old(failureCount), AuthFailed)
      ensures lastFailureTime == now
    {
      if failureCount < CriticalCount {
        failureCount := failureCount + 1;
      }
      lastFailureTime := now;
    }

    /** A successful send resets the counter (lines 493-495, 568); the timestamp stays. */
    method RecordSuccess()
      modifies this`failureCount
      ensures failureCount == 0 && failureCount == Step(old(failureCount), Succeeded)
    {
      failureCount := 0;
    }

    /** The cold-start init of lines 410-426, given what the supplier returned. */
    method InitOutcome(cookies: Option<Credentials>, initOk: bool, now: real) returns (ok: bool)
      modifies this`client, this`failureCount, this`lastFailureTime
      ensures ok <==> cookies.Some? && initOk
      ensures cookies.Some? ==> client == Client(cookies.value, initOk)
      ensures cookies.None? ==> client == old(client)
      ensures ok ==> failureCount == Step(old(failureCount), InitSucceeded) && lastFailureTime == old(lastFailureTime)
      ensures !ok ==> failureCount == Step(old(failureCount), AuthFailed) && lastFailureTime == now
    {
      if cookies.Some? {
        client := Client(cookies.value, initOk);
        if initOk {
          if failureCount < CriticalCount {
            failureCount := 0;
          }
          return true;
        }
      }
      RecordAuthFailure(now);
      ok := false;
    }

    /** Lines 433-453: the chat held in memory, else one restored from the record, else a new
        one under the caller's id or a fresh UUID; the chosen chat is entered in memory. */
    method GetOrCreate(requested: string, model: ModelId, freshId: string) returns (id: string, chat: Chat, recovered: bool)
      requires client.Client?
      modifies this`activeChats
      ensures id == ChosenId(requested, freshId)
      ensures recovered == IsRecovered(old(activeChats), records, requested)
      ensures chat == AcquiredChat(old(activeChats), records, requested, client.creds, model)
      ensures activeChats == old(activeChats)[id := chat]
      ensures requested != "" && requested in old(activeChats) ==> activeChats == old(activeChats)
    {
      id := requested;
      var found := false;
      recovered := false;
      if id != "" {
        if id in activeChats {
          chat := activeChats[id];
          found, recovered := true, true;
        } else if id in records && records[id].ids != [] {
          chat := Chat(client.creds, records[id], model);
          activeChats := activeChats[id := chat];
          found, recovered := true, true;
        }
      }
      if !found {
        if id == "" {
          id := freshId;
        }
        chat := Chat(client.creds, NewChatMetadata, model);
        activeChats := activeChats[id := chat];
      }
    }

    /** After a refresh, the chat is rebuilt on the new client from the old chat's metadata
        (lines 551-558). The id is always held in memory at that point, because acquisition
        just entered it, so the branch of line 556 cannot run and is not modelled. */
    method RebuildSession(id: string, model: ModelId) returns (chat: Chat)
      requires client.Client? && id in activeChats
      modifies this`activeChats
      ensures chat == Chat(client.creds, old(activeChats)[id].metadata, model)
      ensures activeChats == old(activeChats)[id := chat]
    {
      var oldChat := activeChats[id];
      chat := Chat(client.creds, oldChat.metadata, model);
      activeChats := activeChats[id := chat];
    }

    /** `save_conversation` (lines 332-336). */
    method SaveConversation(id: string, metadata: Metadata)
      modifies this`records
      ensures records == old(records)[id := metadata]
    {
      records := records[id := metadata];
    }

    /** The state as a value. */
    function Snap(supplier: CookieSupplier): Snapshot
      reads this, supplier
    {
      Snapshot(client, failureCount, lastFailureTime, activeChats, records, supplier.cache)
    }

    /** The admission block (lines 380-428): reject while cooling down; on a cold start, obtain
        credentials from the supplier and initialise the client. `stop` is the reply when the
        request ends here. */
    method AdmissionStage(env: Environment, supplier: CookieSupplier) returns (stop: Option<Outcome>)
      modifies this`client, this`failureCount, this`lastFailureTime, supplier
      ensures stop.None? <==> PassesAdmission(old(Snap(supplier)), env)
      ensures stop.None? ==> Snap(supplier) == AfterAdmission(old(Snap(supplier)), env)
      ensures var d := Decide(old(client).Client?, old(failureCount), old(lastFailureTime), env.admitTime, env.jitter);
              d.Rejected? ==>
                stop == Some(Failed(503, CoolingDown(d.critical, d.remaining, d.minutes)))
                && Snap(supplier) == old(Snap(supplier))
      ensures old(client).NoClient?
              && Decide(false, old(failureCount), old(lastFailureTime), env.admitTime, env.jitter).Admitted?
              && !PassesAdmission(old(Snap(supplier)), env) ==>
                var o := Obtain(old(supplier.cache), false, env.initHarvest);
                stop == Some(Failed(500, Plain(InitFailedText)))
                && Snap(supplier) == old(Snap(supplier)).(
                     client := if o.0.Some? then Client(o.0.value, false) else NoClient,
                     count := Step(old(failureCount), AuthFailed), last := env.initFailTime, cache := o.1)
    {
      stop := None;
      if client.NoClient? || failureCount >= OpenThreshold {
        var d := Admit(env.admitTime, env.jitter);
        if d.Rejected? {
          return Some(Failed(503, CoolingDown(d.critical, d.remaining, d.minutes)));
        }
        if client.NoClient? {
          var cookies := supplier.GetAutoCookies(false, env.initHarvest);
          var ok := InitOutcome(cookies, env.initOk, env.initFailTime);
          if !ok {
            stop := Some(Failed(500, Plain(InitFailedText)));
          }
        }
      }
    }

    /** Sending (lines 486-585) on the acquired chat, with the refresh-and-resend recovery. */
    method SendStage(id: string, chat: Chat, payload: Payload, model: ModelId, env: Environment, supplier: CookieSupplier)
      returns (out: Outcome, sent: seq<Payload>)
      requires client.Client? && id in activeChats && activeChats[id] == chat
      modifies this, supplier
      ensures SendSpec(old(Snap(supplier)), id, chat, payload, model, env, out, sent, Snap(supplier))
    {
      sent := [payload];
      match env.firstSend
      case Replied(text, metadata) =>
        RecordSuccess();
        activeChats := activeChats[id := chat.(metadata := metadata)];
        SaveConversation(id, metadata);
        out := Completed(id, text);
      case Raised(error) =>
        var kind := Classify(error);
        if kind == RateLimited {
          RecordCritical(env.errorTime);
          out := Failed(429, Plain(RateLimitedText));
        } else if kind == AuthFailure {
          out := Recover(id, model, env, supplier);
          if Harvested(env.refreshHarvest).Some? && env.reinitOk {
            sent := sent + [payload];
          }
        } else {
          out := Failed(500, Plain(error));
        }
    }

    /** Lines 536-581: force a fresh pair, replace the client, rebuild the chat and resend once. */
    method Recover(id: string, model: ModelId, env: Environment, supplier: CookieSupplier) returns (out: Outcome)
      requires client.Client? && id in activeChats
      modifies this, supplier
      ensures RecoverSpec(old(Snap(supplier)), id, model, env, out, Snap(supplier))
    {
      var renewed := supplier.GetAutoCookies(true, env.refreshHarvest);
      if renewed.None? {
        RecordAuthFailure(env.errorTime);
        return Failed(401, Plain(RecoverFailedText(failureCount)));
      }
      client := Client(renewed.value, env.reinitOk);
      if !env.reinitOk {
        RecordAuthFailure(env.errorTime);
        return Failed(401, Plain(RecoverFailedText(failureCount)));
      }
      var chat := RebuildSession(id, model);
      match env.retrySend
      case Replied(text, metadata) =>
        RecordSuccess();
        activeChats := activeChats[id := chat.(metadata := metadata)];
        SaveConversation(id, metadata);
        out := Completed(id, text);
      case Raised(_) =>
        RecordAuthFailure(env.errorTime);
        out := Failed(401, Plain(RecoverFailedText(failureCount)));
    }

    /** One `/v1/chat/completions` request (lines 364-630, without the media and the response
        envelope): admission, acquisition, reconciliation, then the send and its recovery.
        `sent` lists what was passed to `send_message`, in order. */
    method HandleRequest(req: Request, env: Environment, supplier: CookieSupplier) returns (out: Outcome, sent: seq<Payload>)
      modifies this, supplier
      ensures |req.messages| == 0 ==>
                out == Failed(500, Plain(IndexErrorText)) && sent == [] && Snap(supplier) == old(Snap(supplier))
      ensures var d := Decide(old(client).Client?, old(failureCount), old(lastFailureTime), env.admitTime, env.jitter);
              |req.messages| > 0 && d.Rejected? ==>
                out == Failed(503, CoolingDown(d.critical, d.remaining, d.minutes))
                && sent == [] && Snap(supplier) == old(Snap(supplier))
      ensures |req.messages| > 0 && old(client).NoClient?
              && Decide(false, old(failureCount), old(lastFailureTime), env.admitTime, env.jitter).Admitted?
              && !PassesAdmission(old(Snap(supplier)), env) ==>
                var o := Obtain(old(supplier.cache), false, env.initHarvest);
                out == Failed(500, Plain(InitFailedText)) && sent == []
                && client == (if o.0.Some? then Client(o.0.value, false) else NoClient) && supplier.cache == o.1
                && failureCount == Step(old(failureCount), AuthFailed) && lastFailureTime == env.initFailTime
                && activeChats == old(activeChats) && records == old(records)
      ensures |req.messages| > 0 && PassesAdmission(old(Snap(supplier)), env) ==>
                var s := AfterAdmission(old(Snap(supplier)), env);
                var model := ModelFor(req.model);
                var id := ChosenId(req.conversationId, env.freshId);
                var chat := AcquiredChat(s.chats, s.records, req.conversationId, s.client.creds, model);
                var recovered := IsRecovered(s.chats, s.records, req.conversationId);
                SendSpec(s.(chats := s.chats[id := chat]), id, chat, Outbound(recovered, req.messages, req.files),
                         model, env, out, sent, Snap(supplier))
    {
      if |req.messages| == 0 {
        return Failed(500, Plain(IndexErrorText)), [];
      }
      var latest := req.messages[|req.messages| - 1].content;
      var model := ModelFor(req.model);
      var stop := AdmissionStage(env, supplier);
      if stop.Some? {
        return stop.value, [];
      }
      var id, chat, recovered := GetOrCreate(req.conversationId, model, env.freshId);
      var prompt := latest;
      if !recovered && |req.messages| > 1 {
        prompt := BuildContext(req.messages);
      }
      var payload := if |req.files| > 0 then Payload(latest, req.files) else Payload(prompt, []);
      out, sent := SendStage(id, chat, payload, model, env, supplier);
    }
  }
}
