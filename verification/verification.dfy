/**
 The GET branch of `/webhook` (main.py:62-73): the chat platform's subscription
 handshake. The configured token (`FB_VERIFY_TOKEN`) is a parameter; the query
 parameters are optional because `dict.get` yields None for a missing one.
 */
module Verification {
  import opened Wrappers

  /** The value `FB_VERIFY_TOKEN` takes when the environment does not set it (main.py:14). */
  const DefaultVerifyToken: string := "myverifytoken"

  const SubscribeMode: string := "subscribe"

  /** The query parameters `hub.mode`, `hub.verify_token` and `hub.challenge`. */
  datatype VerifyQuery = VerifyQuery(mode: Option<string>, verifyToken: Option<string>, challenge: Option<string>)

  /** A `PlainTextResponse`: status code and content. */
  datatype PlainTextResponse = PlainTextResponse(statusCode: int, content: Option<string>)

  const Forbidden: PlainTextResponse := PlainTextResponse(403, Some("Forbidden"))

  /** The handshake answers 200 with the challenge exactly when the mode is "subscribe" and the token matches. */
  function Verify(q: VerifyQuery, configuredToken: string): (r: PlainTextResponse)
    ensures r.statusCode == 200 <==> q.mode == Some(SubscribeMode) && q.verifyToken == Some(configuredToken)
    ensures r.statusCode == 200 ==> r.content == q.challenge
    ensures r.statusCode != 200 ==> r == Forbidden
  {
    if q.mode == Some(SubscribeMode) && q.verifyToken == Some(configuredToken) then
      PlainTextResponse(200, q.challenge)
    else
      Forbidden
  }

  /** A refused handshake does not depend on the challenge, so a wrong token learns nothing from it. */
  lemma RefusalIgnoresChallenge(q: VerifyQuery, challenge: Option<string>, configuredToken: string)
    requires Verify(q, configuredToken).statusCode != 200
    ensures Verify(q.(challenge := challenge), configuredToken) == Verify(q, configuredToken)
    ensures Verify(q, configuredToken).statusCode == 403
  {
  }

  /** Without a token parameter the handshake is always refused, whatever token is configured. */
  lemma MissingTokenRefused(q: VerifyQuery, configuredToken: string)
    requires q.verifyToken.None?
    ensures Verify(q, configuredToken) == Forbidden
  {
  }
}
