/**
 Properties that span the components: a message delivered through the webhook
 makes the backend's later answer reach its sender, until the sweep evicts the
 session; after that the answer is dropped as "missing-sender".
 */
module Relay {
  import opened Wrappers
  import opened Sessions
  import opened Verification
  import opened Inbound
  import opened Callback

  /** Every delivery has a last delivery from the same sender at or after it. */
  lemma {:induction false} LastDeliveryExists(d: seq<Delivery>, j: int)
    requires 0 <= j < |d|
    ensures exists j' :: j <= j' < |d| && LastFor(d, j') && d[j'].senderId == d[j].senderId
    decreases |d| - j
  {
    if !LastFor(d, j) {
      var k :| j < k < |d| && d[k].senderId == d[j].senderId;
      LastDeliveryExists(d, k);
    }
  }

  /**
   After a webhook POST, a backend answer for any sender that delivered a
   message in it is relayed back to that sender with the backend's text,
   provided the sender id is non-empty.
   */
  lemma {:induction false} AnswerReachesSender(m: Registry, body: WebhookBody, clock: nat -> int, j: int, ai: Option<string>)
    requires 0 <= j < |Deliveries(PageEvents(body))|
    requires Deliveries(PageEvents(body))[j].senderId != ""
    ensures var s := Deliveries(PageEvents(body))[j].senderId;
      ReceiveResult(HandlePost(m, body, clock).sessions, ResultBody(Some(s), ai))
        == CallbackOutcome(Received, Some(Reply(s, ai)))
  {
    var d := Deliveries(PageEvents(body));
    HandlePostEffect(m, body, clock);
    LastDeliveryExists(d, j);
  }

  /** A session touched at `clock(j)` in a POST survives a sweep no later than the timeout afterwards. */
  lemma {:induction false} FreshSessionSurvivesSweep(m: Registry, body: WebhookBody, clock: nat -> int, j: int, now: int)
    requires LastFor(Deliveries(PageEvents(body)), j)
    requires now - clock(j) <= SessionTimeout
    ensures var s := Deliveries(PageEvents(body))[j].senderId;
      Lookup(Sweep(HandlePost(m, body, clock).sessions, now), s) == Some(Session(s, clock(j)))
  {
    HandlePostEffect(m, body, clock);
  }

  /** Once the sweep has evicted a chat id, an answer for it is dropped as "missing-sender". */
  lemma ExpiredSessionGetsNoReply(m: Registry, now: int, chatId: string, ai: Option<string>)
    requires chatId in m && Expired(m[chatId], now)
    ensures Lookup(Sweep(m, now), chatId).None?
    ensures ReceiveResult(Sweep(m, now), ResultBody(Some(chatId), ai)) == CallbackOutcome(MissingSender, None)
  {
  }

  /** The sweep does not change the answer to a callback for a session it keeps. */
  lemma SweepKeepsLiveReplies(m: Registry, now: int, chatId: string, ai: Option<string>)
    requires chatId in m && !Expired(m[chatId], now)
    ensures ReceiveResult(Sweep(m, now), ResultBody(Some(chatId), ai)) == ReceiveResult(m, ResultBody(Some(chatId), ai))
  {
  }

  /**
   The registry lifecycle walk-through: a session created at 0 is found, kept by
   a sweep at 100, evicted by a sweep at 400, and an answer after that finds no sender.
   */
  lemma RegistryLifecycleScenario(ai: Option<string>)
    ensures var m := Upsert(map[], "u1", "s1", 0);
      && Lookup(m, "u1") == Some(Session("s1", 0))
      && Lookup(Sweep(m, 100), "u1") == Some(Session("s1", 0))
      && Lookup(Sweep(Sweep(m, 100), 400), "u1") == None
      && ReceiveResult(Sweep(Sweep(m, 100), 400), ResultBody(Some("u1"), ai)) == CallbackOutcome(MissingSender, None)
  {
  }

  /** The handshake walk-through: the right token echoes "abc" with 200, a wrong one gets 403. */
  lemma HandshakeScenario()
    ensures Verify(VerifyQuery(Some("subscribe"), Some(DefaultVerifyToken), Some("abc")), DefaultVerifyToken)
         == PlainTextResponse(200, Some("abc"))
    ensures Verify(VerifyQuery(Some("subscribe"), Some("wrong"), Some("abc")), DefaultVerifyToken).statusCode == 403
  {
  }
}
