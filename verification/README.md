# Messenger relay: session registry and webhook decisions

This project models the logic of a small relay between a chat platform's webhook and a
backend AI service (`main.py`). The relay does four things:

- It answers the platform's subscription handshake. This is a GET on `/webhook` that echoes `hub.challenge` when `hub.mode` is "subscribe" and `hub.verify_token` matches the configured token.
- It folds over the message events of an inbound POST on `/webhook`. For each event that has a `message`, it records a session for the sender in the in-memory registry `sender_map` and builds the payload it forwards to the backend: chat id, text, the static `file_ids`, the non-empty attachment urls, and `callback_type` "messenger".
- It resolves the backend's answer posted to `/dx-result`. It looks up the chat id and builds a reply to the stored sender, or answers "missing-sender".
- It sweeps the registry periodically, evicting every session idle strictly longer than `SESSION_TIMEOUT` (300).

Modules, one per component:

- `Wrappers` (`wrappers.dfy`) holds `Option`, used for JSON keys that may be absent.
- `Sessions` (`sessions.dfy`) holds the registry as an immutable `map<string, Session>`, with upsert, lookup and the sweep. The sweep has two forms: a reference function, and a method that follows the source's scan-then-pop loop.
- `Verification` (`verification.dfy`) holds the GET handshake decision.
- `Inbound` (`inbound.dfy`) holds the POST body as datatypes, the `file_urls` extraction, and the nested fold over `entry[].messaging[]`. It also holds a flat reference definition, the deliveries, that the fold is proved against.
- `Callback` (`callback.dfy`) holds the `/dx-result` resolution.
- `Relay` (`relay.dfy`) holds properties that span the components, plus two walk-through scenarios.

Time is an integer parameter. Inside one POST, each message event reads the clock once. The model therefore takes a `clock: nat -> int` indexed by how many message events the request has already handled. No monotonicity is assumed, because the code does not enforce any.

The app runs on one asyncio event loop, and a sweep never awaits between its scan and its pops. So each handler call and each sweep pass is one atomic step, and the model is sequential.

Three behaviours of the code are worth stating plainly, and the model keeps them:

- The code does not keep `last_active` non-decreasing: it stores whatever `time.time()` returns, so the model allows the clock to go backwards.
- The code does not reject an empty sender id. An empty id is stored, and the callback then treats it as falsy and answers "missing-sender".
- The handler does not always answer `{"status": "ok"}`. A message event without `sender` or `sender.id` raises `KeyError` at main.py:87. The request then fails with a server error, and the sessions and payloads of the earlier events in the same body persist. The model states exactly when this happens: `Inbound.HandleEventsCrash`, `Inbound.HandlePostEffect`.

## Model

| member | source | states |
|---|---|---|
| Sessions.Upsert | main.py:93-97 | the registry afterwards has the old keys plus `chat_id`; `chat_id` maps to `{sender_id, last_active = now}`; every other key keeps its value |
| Sessions.Lookup | main.py:156 | a pure read: it misses exactly when the chat id has no session, otherwise it returns the stored session |
| Sessions.Sweep | main.py:31-38 | a key survives the sweep exactly when its session's idle time `now - last_active` is not greater than 300; survivors keep their values |
| Sessions.CleanupPass | main.py:31-38 | the source's two loops (collect expired ids, then pop each) leave exactly the registry `Sweep` describes; the evicted ids are exactly the expired keys, disjoint from the survivors, and together with them make up the old key set |
| Sessions.UpsertLastWriteWins | main.py:94-97 | a second upsert of the same chat id replaces the first instead of adding a second entry; lookup then returns the later sender and time |
| Sessions.UpsertDistinctCommute | main.py:94-97 | upserts of two distinct chat ids commute, and neither overwrites the other |
| Sessions.SweepIsSubMap | main.py:32-38 | the sweep only removes: its result is a sub-map of its input and no larger |
| Sessions.SweepIdempotent | main.py:32-38 | a second sweep at the same `now` removes nothing further |
| Sessions.SweepBoundary | main.py:24-38 | the comparison is strict: a session idle exactly 300 is kept, one idle 301 is evicted |
| Sessions.SweepKeepsFutureSessions | main.py:34 | a session stamped at or after `now` (clock went back) is never evicted |
| Verification.Verify | main.py:62-73 | the answer is 200 exactly when mode is "subscribe" and the token equals the configured one; the 200 body is the challenge; every other answer is 403 "Forbidden" |
| Verification.RefusalIgnoresChallenge | main.py:68-73 | a refused handshake is always 403 and does not depend on the challenge sent |
| Verification.MissingTokenRefused | main.py:64-73 | a query without `hub.verify_token` is refused whatever token is configured |
| Inbound.FileUrls | main.py:100-104 | a url is in `file_urls` exactly when some attachment's `payload.url` is present and non-empty and equals it; there are no more urls than attachments |
| Inbound.FileUrlsAppend | main.py:100-104 | `file_urls` keeps attachment order: the urls of a concatenation are the urls of each part in turn |
| Inbound.FileUrlsSingle | main.py:101-104 | one attachment contributes its url exactly when the url is present and non-empty, and otherwise contributes nothing |
| Inbound.HandleEvent | main.py:84-127 | an event without `message` changes nothing; the handler raises exactly on a message event without a sender id |
| Inbound.HandlePost | main.py:81-142 | a body whose `object` is not "page" leaves the registry unchanged, sends nothing and answers `{"status": "ok"}` |
| Inbound.HandleEventsAppend | main.py:83-127 | the event loop over two lists run back to back equals the loop over their concatenation |
| Inbound.HandleEntriesFlat | main.py:82-83 | the nested loops over `entry[]` and `messaging[]` handle exactly the flattened event list, in order |
| Inbound.IgnoresNonMessageEvent | main.py:84-85 | removing an event without `message` from anywhere in the list changes neither the registry, the payloads nor the outcome |
| Inbound.HandleEventsCrash | main.py:87 | the handler fails exactly when some message event lacks `sender.id` |
| Inbound.HandleEventsDispatches | main.py:87-127 | the payloads sent are, in order, one per message event up to the first failing one; each is addressed to its sender's id and carries that message's text and urls |
| Inbound.HandleEventsKeys | main.py:93-97 | the registry gains exactly the ids of the senders that delivered a message, and every other entry is unchanged |
| Inbound.HandleEventsLastWrite | main.py:93-97 | each delivering sender's session holds its own id and the clock reading of its last message in the request |
| Inbound.HandlePostEffect | main.py:81-142 | the whole POST against the flat reference: payloads, registry keys, untouched entries, last-write-wins timestamps, and `{"status": "ok"}` exactly when no message event lacks a sender id |
| Callback.StoredSender | main.py:153-157 | the stored sender id is found exactly when the chat id is given and has a session, and it is that session's `sender_id` |
| Callback.ReceiveResult | main.py:153-180 | "received" exactly when the chat id has a session with a non-empty sender id; a reply exists exactly then, addressed to the stored sender and carrying `ai_response`; otherwise "missing-sender" and no reply |
| Callback.ReplyAfterUpsert | main.py:156-166 | right after an upsert with a non-empty sender, a callback for that chat id replies to that sender |
| Callback.NoReplyWithoutSession | main.py:156-161 | a callback for a chat id without a session answers "missing-sender" and sends nothing |
| Relay.AnswerReachesSender | main.py:93-166 | after a POST, a backend answer for any sender with a non-empty id that delivered a message in it reaches that sender with the backend's text |
| Relay.FreshSessionSurvivesSweep | main.py:31-38 | a session touched in a POST survives any sweep at most 300 after its last touch, with its sender and time intact |
| Relay.ExpiredSessionGetsNoReply | main.py:34-38 | once a session is expired at `now`, the sweep removes it and a callback for it answers "missing-sender" with no reply |
| Relay.SweepKeepsLiveReplies | main.py:31-38 | the sweep does not change the callback outcome for a session it keeps |
| Relay.RegistryLifecycleScenario | main.py:24-38 | a session created at 0 is found, kept by a sweep at 100, evicted by a sweep at 400, and an answer afterwards finds no sender |
| Relay.HandshakeScenario | main.py:68-73 | the right token with challenge "abc" answers 200 "abc"; a wrong token answers 403 |

## Left out

- HTTP plumbing is not modelled: FastAPI routing, request and response objects, and JSON decoding. Bodies are datatypes whose `Option` fields stand for keys that may be absent. A key present with a `null` or wrongly typed value is not modelled, for example `"message": null`, which raises `AttributeError` in the source. Ids are strings.
- The `requests.post` calls to the backend and to the Graph API are not modelled, including the bearer header and the error handling (main.py:131-140, main.py:168-178). They are network I/O whose failures are only logged. The model returns the payloads and the reply that would be sent, and the webhook's status never depends on them.
- The asyncio background task, its 5-second sleep and its cancellation are not modelled (main.py:39-43). The model has one sweep pass, `Sessions.CleanupPass`, not the scheduler loop.
- Log lines are not modelled. `CleanupPass` returns the evicted ids that the source logs.
- `time.time()` returns floats. The model uses integer timestamps passed in as parameters.
- `load_dotenv` and `os.getenv` configuration are not modelled. The verify token is a parameter, and its default is `Verification.DefaultVerifyToken`. `PAGE_ACCESS_TOKEN` and `DX_API_SEND_MESSAGE` only feed the network calls.
- The `GET /` status endpoint (main.py:49-51) returns a constant and is not modelled.
- For a missing `hub.challenge`, the 200 answer of the handshake carries `None` as its content. Rendering that as an empty body is framework behaviour and is not modelled.
