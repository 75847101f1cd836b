/** End-to-end runs of the request handler on a fresh process, each a client of the
    contracts in module Gateway alone. */
module Scenarios {
  import opened Wrappers
  import opened Text
  import opened ErrorClass
  import opened CircuitBreaker
  import opened Cookies
  import opened Prompt
  import opened Gateway

  const Jar1: Harvest := Jar([Cookie(PsidCookie, "p1"), Cookie("NID", "x"), Cookie(TsCookie, "t1")])
  const Jar2: Harvest := Jar([Cookie(TsCookie, "t2"), Cookie(PsidCookie, "p2")])

  function Env(now: real, first: SendOutcome, refresh: Harvest, retry: SendOutcome): Environment
  {
    Environment(now, 0, Jar1, true, now, "c-1", first, now, refresh, true, retry)
  }

  /** The first request ever, with no cache file and a logged-in browser: the reply comes
      back and the cache file now holds the harvested pair. */
  method ColdStartFillsCache() returns (out: Outcome, cache: CacheFile)
    ensures out == Completed("c-1", "hello") && cache == Stored("p1", "t1")
  {
    var supplier := new CookieSupplier(Missing);
    var server := new Server(map[]);
    LastValueIsLastMatch(Jar1.cookies, PsidCookie, 0);
    LastValueIsLastMatch(Jar1.cookies, TsCookie, 2);
    var req := Request("gemini-pro", [Message("user", "hi")], "", []);
    var sent;
    out, sent := server.HandleRequest(req, Env(5000.0, Replied("hello", Metadata(["c-1"])), NoHarvester, Raised("")), supplier);
    cache := supplier.cache;
  }

  /** A rate limit, then a request 100 seconds later: it is turned away with a positive wait
      hint and never reaches the upstream service. */
  method RateLimitThenCoolDown() returns (first: Outcome, second: Outcome, count: int, sent: seq<Payload>)
    ensures first == Failed(429, Plain(RateLimitedText))
    ensures second.Failed? && second.status == 503 && second.detail.CoolingDown?
    ensures second.detail.critical && second.detail.remainingSeconds > 0
    ensures sent == []
    ensures count == CriticalCount
  {
    var supplier := new CookieSupplier(Missing);
    var server := new Server(map[]);
    server.Startup("p0", "t0", supplier, NoHarvester, true);
    var req := Request("gemini-pro", [Message("user", "hi")], "c-9", []);
    assert Lower("429") == "429";
    assert Classify("429") == RateLimited by {
      assert Contains("429", RateLimitMarker);
    }
    first, sent := server.HandleRequest(req, Env(1000.0, Raised("429"), NoHarvester, Raised("")), supplier);
    second, sent := server.HandleRequest(req, Env(1100.0, Raised("429"), NoHarvester, Raised("")), supplier);
    count := server.failureCount;
  }

  /** A bare "401" is an authentication failure. */
  lemma Unauthorized()
    ensures Classify("401") == AuthFailure
  {
    assert Lower("401") == "401";
    assert !Contains("401", RateLimitMarker);
    assert Occurs(AuthMarkers[0], "401") by {
      assert AuthMarkers[0] <= "401"[0..];
    }
  }

  /** The second jar holds the pair ("p2", "t2"). */
  lemma RefreshedPair()
    ensures Harvested(Jar2) == Some(Credentials("p2", "t2"))
  {
    LastValueIsLastMatch(Jar2.cookies, PsidCookie, 1);
    LastValueIsLastMatch(Jar2.cookies, TsCookie, 0);
  }

  const RefreshEnv: Environment := Env(2000.0, Raised("401"), Jar2, Replied("again", Metadata(["r2"])))

  /** What the send contract gives for an expired session once the refresh finds the second
      jar's pair and the resend replies. */
  lemma ResendOutcome(s: Snapshot, chat: Chat, out: Outcome, sent: seq<Payload>, t: Snapshot)
    requires "c-9" in s.chats
    requires SendSpec(s, "c-9", chat, Payload("hi", []), Gemini25Pro, RefreshEnv, out, sent, t)
    ensures out == Completed("c-9", "again") && t.count == 0
    ensures "c-9" in t.records && t.records["c-9"] == Metadata(["r2"])
    ensures sent == [Payload("hi", []), Payload("hi", [])]
  {
    Unauthorized();
    RefreshedPair();
  }

  /** An expired session: the forced refresh finds a new pair, the resend succeeds, the
      counter is back at 0 and the record holds the resend's metadata. */
  method RefreshAndResend() returns (out: Outcome, count: int, record: Metadata, sent: seq<Payload>)
    ensures out == Completed("c-9", "again") && count == 0
    ensures record == Metadata(["r2"])
    ensures sent == [Payload("hi", []), Payload("hi", [])]
  {
    var supplier := new CookieSupplier(Stored("old", "old"));
    var server := new Server(map["c-9" := Metadata(["r1"])]);
    server.Startup("p0", "t0", supplier, NoHarvester, true);
    var req := Request("gemini-pro", [Message("user", "hi")], "c-9", []);
    ghost var s := server.Snap(supplier);
    assert PassesAdmission(s, RefreshEnv) && AfterAdmission(s, RefreshEnv) == s;
    ghost var chat := AcquiredChat(s.chats, s.records, "c-9", s.client.creds, Gemini25Pro);
    assert IsRecovered(s.chats, s.records, "c-9");
    assert Outbound(true, req.messages, []) == Payload("hi", []);
    out, sent := server.HandleRequest(req, RefreshEnv, supplier);
    ResendOutcome(s.(chats := s.chats["c-9" := chat]), chat, out, sent, server.Snap(supplier));
    count := server.failureCount;
    record := server.records["c-9"];
  }
}
