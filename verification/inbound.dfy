/**
 The POST branch of `/webhook` (main.py:78-142): a fold over `entry[].messaging[]`.
 Each message event upserts the sender's session and yields one payload for the
 backend; the payloads are the output of the fold, since sending them is network
 I/O whose failure is only logged. The JSON body is a datatype whose optional
 fields are keys that may be absent.

 Each message event reads the clock once (`time.time()`, main.py:96). The model
 takes the clock as a function of how many message events this request has
 already handled, so successive readings may differ and need not increase.
 */
module Inbound {
  import opened Wrappers
  import opened Sessions

  // ---------------------------------------------------------------------------
  // The inbound JSON body
  // ---------------------------------------------------------------------------

  /** `attachment.payload`, of which only `url` is read. */
  datatype AttachmentPayload = AttachmentPayload(url: Option<string>)

  datatype Attachment = Attachment(payload: Option<AttachmentPayload>)

  /** `event.message`: optional `text` and optional `attachments`. */
  datatype Message = Message(text: Option<string>, attachments: Option<seq<Attachment>>)

  /** `event.sender`, of which only `id` is read. */
  datatype Sender = Sender(id: Option<string>)

  datatype Event = Event(sender: Option<Sender>, message: Option<Message>)

  datatype Entry = Entry(messaging: Option<seq<Event>>)

  datatype WebhookBody = WebhookBody(objectKind: Option<string>, entry: Option<seq<Entry>>)

  // ---------------------------------------------------------------------------
  // The backend payload
  // ---------------------------------------------------------------------------

  const PageObject: string := "page"

  const MessengerCallback: string := "messenger"

  /** The static `file_ids` list sent with every payload (main.py:107-118). */
  const StaticFileIds: seq<string> := [
    "4eb53f62-d860-457f-bc00-fee11b31f190",
    "a933342b-8332-492e-a494-8e676af0ac0e",
    "b4d6024c-8bdb-4bfe-ab5c-abaea50b6461",
    "bff88d57-c61a-4e41-9295-3839ae47656a",
    "1b48046c-756a-49f5-af68-a615fcf520a7",
    "5bf8a7fb-9126-42d4-b405-1b909c656854",
    "7f63b10d-5073-4414-a7fa-2526d1526044",
    "1dae7954-a9c0-4966-9916-3e192d6c23f9",
    "a126c441-b0d9-4842-9d1e-d72182f5dffb",
    "b50962d3-8006-49bf-9502-34bcb6f19213"
  ]

  /** `dx_payload` (main.py:121-127). */
  datatype DxPayload = DxPayload(
    chatId: string,
    userMessage: Option<string>,
    fileIds: seq<string>,
    fileUrls: seq<string>,
    callbackType: string)

  /** `.get(key, [])` on a list-valued key. */
  function OrEmpty<T>(o: Option<seq<T>>): seq<T> {
    o.GetOr([])
  }

  /** `a.get("payload", {}).get("url")`. */
  function AttachmentUrl(a: Attachment): Option<string> {
    match a.payload
    case None => None
    case Some(p) => p.url
  }

  /**
   The `file_urls` loop (main.py:100-104): the attachment urls that are present
   and truthy (non-empty), kept in attachment order.
   */
  function FileUrls(atts: seq<Attachment>): (r: seq<string>)
    ensures |r| <= |atts|
    ensures forall u :: u in r <==> exists i :: 0 <= i < |atts| && AttachmentUrl(atts[i]) == Some(u) && u != ""
    decreases |atts|
  {
    if |atts| == 0 then []
    else
      var url := AttachmentUrl(atts[0]);
      var rest := FileUrls(atts[1..]);
      assert forall i :: 0 < i < |atts| ==> atts[i] == atts[1..][i - 1];
      if url.Some? && url.value != "" then [url.value] + rest else rest
  }

  /** A message event that reached the upsert: the sender id it carries and its message. */
  datatype Delivery = Delivery(senderId: string, message: Message)

  /** `event["sender"]["id"]`, None when either key is missing. */
  function SenderId(e: Event): Option<string> {
    match e.sender
    case None => None
    case Some(s) => s.id
  }

  /** A message event without a sender id: `event["sender"]["id"]` raises, and the request fails. */
  predicate Anonymous(e: Event) {
    e.message.Some? && SenderId(e).None?
  }

  function Payload(d: Delivery): DxPayload {
    DxPayload(d.senderId, d.message.text, StaticFileIds, FileUrls(OrEmpty(d.message.attachments)), MessengerCallback)
  }

  // ---------------------------------------------------------------------------
  // The fold, as the source nests it
  // ---------------------------------------------------------------------------

  /** The state the handler builds: the registry, the payloads sent so far, and whether it raised. */
  datatype Progress = Progress(sessions: Registry, dispatched: seq<DxPayload>, crashed: bool)

  /** One iteration of the inner loop (main.py:84-127). */
  function HandleEvent(p: Progress, e: Event, clock: nat -> int): (q: Progress)
    requires !p.crashed
    ensures e.message.None? ==> q == p
    ensures q.crashed <==> Anonymous(e)
  {
    match e.message
    case None => p
    case Some(msg) =>
      match SenderId(e)
      case None => p.(crashed := true)
      case Some(id) =>
        var chatId := id;
        Progress(Upsert(p.sessions, chatId, id, clock(|p.dispatched|)),
                 p.dispatched + [Payload(Delivery(id, msg))],
                 false)
  }

  /** The inner loop over `entry.get("messaging", [])`; a raised error ends the request. */
  function HandleEvents(p: Progress, events: seq<Event>, clock: nat -> int): Progress
    decreases |events|
  {
    if p.crashed || |events| == 0 then p
    else HandleEvents(HandleEvent(p, events[0], clock), events[1..], clock)
  }

  /** The outer loop over `body.get("entry", [])`. */
  function HandleEntries(p: Progress, entries: seq<Entry>, clock: nat -> int): Progress
    decreases |entries|
  {
    if p.crashed || |entries| == 0 then p
    else HandleEntries(HandleEvents(p, OrEmpty(entries[0].messaging), clock), entries[1..], clock)
  }

  /** The webhook's JSON answer: `{"status": "ok"}`, or a server error when the handler raised. */
  datatype PostStatus = StatusOk | InternalServerError

  datatype PostOutcome = PostOutcome(sessions: Registry, dispatched: seq<DxPayload>, status: PostStatus)

  /** The whole POST branch of `/webhook` (main.py:78-142). */
  function HandlePost(m: Registry, body: WebhookBody, clock: nat -> int): (r: PostOutcome)
    ensures body.objectKind != Some(PageObject) ==> r == PostOutcome(m, [], StatusOk)
  {
    if body.objectKind == Some(PageObject) then
      var q := HandleEntries(Progress(m, [], false), OrEmpty(body.entry), clock);
      PostOutcome(q.sessions, q.dispatched, if q.crashed then InternalServerError else StatusOk)
    else
      PostOutcome(m, [], StatusOk)
  }

  // ---------------------------------------------------------------------------
  // Reference definitions: what the fold computes, stated without state
  // ---------------------------------------------------------------------------

  /** All events of all entries, flattened in order. */
  function AllEvents(entries: seq<Entry>): seq<Event>
    decreases |entries|
  {
    if |entries| == 0 then [] else OrEmpty(entries[0].messaging) + AllEvents(entries[1..])
  }

  /** The events a page body contributes: none unless `object` is "page". */
  function PageEvents(body: WebhookBody): seq<Event> {
    if body.objectKind == Some(PageObject) then AllEvents(OrEmpty(body.entry)) else []
  }

  /** The message events, in order, up to the first one without a sender id. */
  function Deliveries(events: seq<Event>): seq<Delivery>
    decreases |events|
  {
    if |events| == 0 then []
    else if events[0].message.None? then Deliveries(events[1..])
    else if SenderId(events[0]).None? then []
    else [Delivery(SenderId(events[0]).value, events[0].message.value)] + Deliveries(events[1..])
  }

  function Senders(d: seq<Delivery>): set<string> {
    set x | x in d :: x.senderId
  }

  function Payloads(d: seq<Delivery>): seq<DxPayload> {
    seq(|d|, j requires 0 <= j < |d| => Payload(d[j]))
  }

  /** `d[j]` is the last delivery from its sender. */
  ghost predicate LastFor(d: seq<Delivery>, j: int) {
    0 <= j < |d| && forall j' :: j < j' < |d| ==> d[j'].senderId != d[j].senderId
  }

  // ---------------------------------------------------------------------------
  // Lemmas
  // ---------------------------------------------------------------------------

  /** `file_urls` keeps attachment order: the urls of a concatenation are the urls of each part, in turn. */
  lemma {:induction false} FileUrlsAppend(a: seq<Attachment>, b: seq<Attachment>)
    ensures FileUrls(a + b) == FileUrls(a) + FileUrls(b)
    decreases |a|
  {
    if |a| == 0 {
      assert a + b == b;
    } else {
      assert (a + b)[0] == a[0];
      assert (a + b)[1..] == a[1..] + b;
      FileUrlsAppend(a[1..], b);
    }
  }

  /** A single attachment contributes its url exactly when the url is present and non-empty. */
  lemma FileUrlsSingle(a: Attachment)
    ensures FileUrls([a]) == if AttachmentUrl(a).Some? && AttachmentUrl(a).value != "" then [AttachmentUrl(a).value] else []
  {
  }

  /** The inner loop over a concatenation is the loop over the first part followed by the second. */
  lemma {:induction false} HandleEventsAppend(p: Progress, a: seq<Event>, b: seq<Event>, clock: nat -> int)
    ensures HandleEvents(p, a + b, clock) == HandleEvents(HandleEvents(p, a, clock), b, clock)
    decreases |a|
  {
    if p.crashed {
    } else if |a| == 0 {
      assert a + b == b;
    } else {
      assert (a + b)[0] == a[0];
      assert (a + b)[1..] == a[1..] + b;
      HandleEventsAppend(HandleEvent(p, a[0], clock), a[1..], b, clock);
    }
  }

  /** The nested loops handle exactly the flattened event list, in order. */
  lemma {:induction false} HandleEntriesFlat(p: Progress, entries: seq<Entry>, clock: nat -> int)
    ensures HandleEntries(p, entries, clock) == HandleEvents(p, AllEvents(entries), clock)
    decreases |entries|
  {
    if p.crashed || |entries| == 0 {
    } else {
      var first := OrEmpty(entries[0].messaging);
      HandleEntriesFlat(HandleEvents(p, first, clock), entries[1..], clock);
      HandleEventsAppend(p, first, AllEvents(entries[1..]), clock);
    }
  }

  /** An event without `message` can be dropped anywhere without changing the outcome. */
  lemma {:induction false} IgnoresNonMessageEvent(p: Progress, a: seq<Event>, e: Event, b: seq<Event>, clock: nat -> int)
    requires e.message.None?
    ensures HandleEvents(p, a + [e] + b, clock) == HandleEvents(p, a + b, clock)
  {
    var pa := HandleEvents(p, a, clock);
    HandleEventsAppend(p, a + [e], b, clock);
    HandleEventsAppend(p, a, [e], clock);
    HandleEventsAppend(p, a, b, clock);
    assert [e][1..] == [];
  }

  /** The handler raises exactly when some message event lacks a sender id. */
  lemma {:induction false} HandleEventsCrash(p: Progress, events: seq<Event>, clock: nat -> int)
    requires !p.crashed
    ensures HandleEvents(p, events, clock).crashed <==> exists i :: 0 <= i < |events| && Anonymous(events[i])
    decreases |events|
  {
    if |events| == 0 {
    } else {
      var p' := HandleEvent(p, events[0], clock);
      if !p'.crashed {
        HandleEventsCrash(p', events[1..], clock);
        assert forall i :: 0 < i < |events| ==> events[i] == events[1..][i - 1];
      }
    }
  }

  /** The payloads sent are, in order, one per delivery. */
  lemma {:induction false} HandleEventsDispatches(p: Progress, events: seq<Event>, clock: nat -> int)
    requires !p.crashed
    ensures HandleEvents(p, events, clock).dispatched == p.dispatched + Payloads(Deliveries(events))
    decreases |events|
  {
    if |events| == 0 {
    } else {
      var e := events[0];
      var p' := HandleEvent(p, e, clock);
      if e.message.None? {
        HandleEventsDispatches(p, events[1..], clock);
      } else if SenderId(e).None? {
      } else {
        var x := Delivery(SenderId(e).value, e.message.value);
        var d' := Deliveries(events[1..]);
        assert Deliveries(events) == [x] + d';
        assert HandleEvents(p, events, clock) == HandleEvents(p', events[1..], clock);
        assert p'.dispatched == p.dispatched + [Payload(x)];
        HandleEventsDispatches(p', events[1..], clock);
        assert Payloads([x] + d') == [Payload(x)] + Payloads(d');
      }
    }
  }

  /** Facts about a delivery list whose head is `x`. */
  lemma {:induction false} DeliveriesCons(x: Delivery, d': seq<Delivery>)
    ensures Senders([x] + d') == {x.senderId} + Senders(d')
    ensures LastFor([x] + d', 0) ==> x.senderId !in Senders(d')
    ensures forall j :: 0 < j < |d'| + 1 && LastFor([x] + d', j) ==> LastFor(d', j - 1)
  {
    var d := [x] + d';
    forall y | y in d ensures y.senderId in {x.senderId} + Senders(d') {
      if y != x {
        assert y in d';
      }
    }
    if LastFor(d, 0) {
      forall y | y in d' ensures y.senderId != x.senderId {
        var i :| 0 <= i < |d'| && d'[i] == y;
        assert d[i + 1] == y;
      }
    }
    forall j | 0 < j < |d'| + 1 && LastFor(d, j) ensures LastFor(d', j - 1) {
      forall j' | j - 1 < j' < |d'| ensures d'[j'].senderId != d'[j - 1].senderId {
        assert d'[j'] == d[j' + 1];
      }
    }
  }

  /** The registry after the inner loop gains exactly the delivering senders and keeps every other entry. */
  lemma {:induction false} HandleEventsKeys(p: Progress, events: seq<Event>, clock: nat -> int)
    requires !p.crashed
    ensures var q := HandleEvents(p, events, clock); var d := Deliveries(events);
      && q.sessions.Keys == p.sessions.Keys + Senders(d)
      && (forall k :: k in p.sessions && k !in Senders(d) ==> q.sessions[k] == p.sessions[k])
    decreases |events|
  {
    if |events| == 0 {
    } else {
      var e := events[0];
      if e.message.None? {
        HandleEventsKeys(p, events[1..], clock);
      } else if SenderId(e).None? {
      } else {
        HandleEventsKeys(HandleEvent(p, e, clock), events[1..], clock);
        DeliveriesCons(Delivery(SenderId(e).value, e.message.value), Deliveries(events[1..]));
      }
    }
  }

  /** Each sender's session holds its own id and the clock reading of its last delivery in `d`. */
  ghost predicate RecordsLastWrites(sessions: Registry, d: seq<Delivery>, clock: nat -> int, offset: nat) {
    forall j :: LastFor(d, j) ==>
      d[j].senderId in sessions && sessions[d[j].senderId] == Session(d[j].senderId, clock(offset + j))
  }

  lemma {:induction false} LastWritesCons(sessions: Registry, x: Delivery, d': seq<Delivery>, clock: nat -> int, offset: nat)
    requires RecordsLastWrites(sessions, d', clock, offset + 1)
    requires x.senderId !in Senders(d') ==>
      x.senderId in sessions && sessions[x.senderId] == Session(x.senderId, clock(offset))
    ensures RecordsLastWrites(sessions, [x] + d', clock, offset)
  {
    var d := [x] + d';
    DeliveriesCons(x, d');
    forall j | LastFor(d, j)
      ensures d[j].senderId in sessions && sessions[d[j].senderId] == Session(d[j].senderId, clock(offset + j))
    {
      if j == 0 {
        assert d[0] == x;
      } else {
        assert d[j] == d'[j - 1];
        assert LastFor(d', j - 1);
        assert offset + j == (offset + 1) + (j - 1);
      }
    }
  }

  /** One message event with a sender id: its upsert is the last write unless a later delivery overwrites it. */
  lemma {:induction false} LastWriteStep(p: Progress, events: seq<Event>, clock: nat -> int)
    requires !p.crashed && |events| > 0 && events[0].message.Some? && SenderId(events[0]).Some?
    requires RecordsLastWrites(
      HandleEvents(HandleEvent(p, events[0], clock), events[1..], clock).sessions,
      Deliveries(events[1..]), clock, |p.dispatched| + 1)
    ensures RecordsLastWrites(HandleEvents(p, events, clock).sessions, Deliveries(events), clock, |p.dispatched|)
  {
    var e := events[0];
    var p' := HandleEvent(p, e, clock);
    var id := SenderId(e).value;
    var x := Delivery(id, e.message.value);
    var d' := Deliveries(events[1..]);
    var q := HandleEvents(p', events[1..], clock);
    assert Deliveries(events) == [x] + d';
    assert HandleEvents(p, events, clock) == q;
    assert id !in Senders(d') ==> id in q.sessions && q.sessions[id] == Session(id, clock(|p.dispatched|)) by {
      HandleEventsKeys(p', events[1..], clock);
    }
    LastWritesCons(q.sessions, x, d', clock, |p.dispatched|);
  }

  /**
   Last write wins across one request: each delivering sender's session holds
   its own id as sender and the clock reading of its LAST delivery.
   */
  lemma {:induction false} HandleEventsLastWrite(p: Progress, events: seq<Event>, clock: nat -> int)
    requires !p.crashed
    ensures RecordsLastWrites(HandleEvents(p, events, clock).sessions, Deliveries(events), clock, |p.dispatched|)
    decreases |events|
  {
    if |events| == 0 {
    } else if events[0].message.None? {
      HandleEventsLastWrite(p, events[1..], clock);
    } else if SenderId(events[0]).Some? {
      HandleEventsLastWrite(HandleEvent(p, events[0], clock), events[1..], clock);
      LastWriteStep(p, events, clock);
    }
  }

  /**
   The whole POST branch against the reference: with `d` the deliveries of the
   page's events, the payloads are one per delivery in order, the registry gains
   exactly the delivering senders with last-write-wins timestamps and keeps every
   other entry, and the answer is `{"status": "ok"}` unless a message event
   lacks a sender id.
   */
  lemma {:induction false} HandlePostEffect(m: Registry, body: WebhookBody, clock: nat -> int)
    ensures var r := HandlePost(m, body, clock); var events := PageEvents(body); var d := Deliveries(events);
      && r.dispatched == Payloads(d)
      && (r.status == StatusOk <==> forall i :: 0 <= i < |events| ==> !Anonymous(events[i]))
      && r.sessions.Keys == m.Keys + Senders(d)
      && (forall k :: k in m && k !in Senders(d) ==> r.sessions[k] == m[k])
      && (forall j :: LastFor(d, j) ==> r.sessions[d[j].senderId] == Session(d[j].senderId, clock(j)))
  {
    if body.objectKind == Some(PageObject) {
      var p := Progress(m, [], false);
      var entries := OrEmpty(body.entry);
      HandleEntriesFlat(p, entries, clock);
      HandleEventsCrash(p, AllEvents(entries), clock);
      HandleEventsDispatches(p, AllEvents(entries), clock);
      HandleEventsKeys(p, AllEvents(entries), clock);
      HandleEventsLastWrite(p, AllEvents(entries), clock);
    }
  }
}
