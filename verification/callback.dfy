/**
 The `/dx-result` callback (main.py:148-180): the backend posts its answer for a
 chat id; the relay looks up who to reply to and builds the reply for the chat
 platform. The registry is only read. Sending the reply is network I/O whose
 failure is only logged, so the status never depends on it.
 */
module Callback {
  import opened Wrappers
  import opened Sessions

  /** The callback body `{ chat_id, ai_response }`; either key may be absent. */
  datatype ResultBody = ResultBody(chatId: Option<string>, aiResponse: Option<string>)

  /** The reply `{ recipient: { id }, message: { text } }` sent to the chat platform. */
  datatype Reply = Reply(recipientId: string, text: Option<string>)

  /** `{"status": "missing-sender"}` or `{"status": "received"}`. */
  datatype CallbackStatus = MissingSender | Received

  datatype CallbackOutcome = CallbackOutcome(status: CallbackStatus, reply: Option<Reply>)

  /** The stored `sender_id` for the chat id, None when there is no chat id or no session (main.py:156-157). */
  function StoredSender(m: Registry, chatId: Option<string>): (r: Option<string>)
    ensures r.Some? <==> chatId.Some? && Lookup(m, chatId.value).Some?
    ensures r.Some? ==> r.value == m[chatId.value].senderId
  {
    match chatId
    case None => None
    case Some(id) =>
      match Lookup(m, id)
      case None => None
      case Some(info) => Some(info.senderId)
  }

  /** There is someone to reply to: a session exists and its sender id is truthy, i.e. non-empty. */
  ghost predicate HasReplyTarget(m: Registry, chatId: Option<string>) {
    chatId.Some? && chatId.value in m && m[chatId.value].senderId != ""
  }

  /**
   Resolves a backend result: "received" with a reply addressed to the stored
   sender and carrying the backend's text, or "missing-sender" with no reply.
   */
  function ReceiveResult(m: Registry, body: ResultBody): (r: CallbackOutcome)
    ensures r.status == Received <==> HasReplyTarget(m, body.chatId)
    ensures r.reply.Some? <==> r.status == Received
    ensures r.status == Received ==> r.reply.value == Reply(m[body.chatId.value].senderId, body.aiResponse)
  {
    var sender := StoredSender(m, body.chatId);
    if sender.None? || sender.value == "" then
      CallbackOutcome(MissingSender, None)
    else
      CallbackOutcome(Received, Some(Reply(sender.value, body.aiResponse)))
  }

  /** After an upsert of a non-empty sender, a callback for that chat id replies to it. */
  lemma ReplyAfterUpsert(m: Registry, chatId: string, senderId: string, now: int, ai: Option<string>)
    requires senderId != ""
    ensures ReceiveResult(Upsert(m, chatId, senderId, now), ResultBody(Some(chatId), ai))
         == CallbackOutcome(Received, Some(Reply(senderId, ai)))
  {
  }

  /** A callback for a chat id with no session is answered "missing-sender" and sends nothing. */
  lemma NoReplyWithoutSession(m: Registry, chatId: string, ai: Option<string>)
    requires Lookup(m, chatId).None?
    ensures ReceiveResult(m, ResultBody(Some(chatId), ai)) == CallbackOutcome(MissingSender, None)
  {
  }
}
