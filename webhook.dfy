/**
 * The two webhook endpoints, without the HTTP server: the subscription
 * handshake as a decision, and event delivery as "acknowledge, then
 * dispatch the first message, if any".
 */
module Webhook {
  import opened Wrappers
  import opened Messages
  import opened Dispatcher

  /** `process.env.VERIFY_TOKEN || "my_verify_token"`: an unset or empty variable takes the default. */
  function ConfiguredVerifyToken(env: Option<string>): (token: string)
    ensures token != ""
    ensures env.Some? && env.value != "" ==> token == env.value
    ensures env.None? || env.value == "" ==> token == "my_verify_token"
  {
    if env.Some? && env.value != "" then env.value else "my_verify_token"
  }

  datatype VerifyReply = Accept(challenge: Option<string>) | Forbidden

  /** The HTTP status each reply is sent with. */
  function Status(r: VerifyReply): int {
    match r
    case Accept(_) => 200
    case Forbidden => 403
  }

  /**
   * The handshake: the challenge is echoed with 200 exactly when the mode is
   * `subscribe` and the token matches the configured one; anything else is 403.
   */
  function Verify(mode: Option<string>, token: Option<string>, challenge: Option<string>, verifyToken: string): (r: VerifyReply)
    ensures r.Accept? <==> mode == Some("subscribe") && token == Some(verifyToken)
    ensures r.Accept? ==> r.challenge == challenge && Status(r) == 200
    ensures r.Forbidden? ==> Status(r) == 403
  {
    if mode == Some("subscribe") && token == Some(verifyToken) then Accept(challenge) else Forbidden
  }

  /** A request without a token is never accepted, since the configured token is never empty or missing. */
  lemma MissingTokenRejected(mode: Option<string>, challenge: Option<string>, env: Option<string>)
    ensures Verify(mode, None, challenge, ConfiguredVerifyToken(env)) == Forbidden
    ensures Verify(mode, Some(""), challenge, ConfiguredVerifyToken(env)) == Forbidden
  {
  }

  /** The parts of a delivered notification the handler walks through; a missing array is empty. */
  datatype ChangeValue = ChangeValue(messages: seq<InboundMessage>)
  datatype Change = Change(value: Option<ChangeValue>)
  datatype Entry = Entry(changes: seq<Change>)
  datatype Notification = Notification(entry: seq<Entry>)

  /** `entry[0].changes[0].value.messages[0]`, when every step exists. */
  function FirstMessage(n: Notification): (r: Option<InboundMessage>)
    ensures r.Some? <==>
              && |n.entry| > 0 && |n.entry[0].changes| > 0
              && n.entry[0].changes[0].value.Some?
              && |n.entry[0].changes[0].value.value.messages| > 0
    ensures r.Some? ==> r.value == n.entry[0].changes[0].value.value.messages[0]
  {
    if |n.entry| == 0 || |n.entry[0].changes| == 0 then None
    else match n.entry[0].changes[0].value
      case None => None
      case Some(v) => if |v.messages| == 0 then None else Some(v.messages[0])
  }

  /** Everything one delivery makes the bot send: the replies to its first message, if any. */
  function DeliveryReplies(n: Notification): (r: seq<Outbound>)
    ensures |r| <= 2
    ensures r != [] ==> FirstMessage(n).Some?
    ensures forall o :: o in r ==> o.to == FirstMessage(n).value.from
  {
    match FirstMessage(n)
    case None => []
    case Some(m) => Replies(m)
  }

  /**
   * The POST handler: the delivery is acknowledged with 200 before anything
   * else, whatever follows; only the first message is handled, and a failure
   * while handling it is swallowed.
   */
  method ReceiveDelivery(n: Notification, gateway: Gateway) returns (status: int)
    modifies gateway
    ensures status == 200
    ensures gateway.sent == old(gateway.sent) + DeliveryReplies(n)
  {
    status := 200;
    var m := FirstMessage(n);
    if m.Some? {
      var threw := HandleMessage(m.value, gateway);
    }
  }

  /** Only the first message of a delivery is answered; the rest are ignored. */
  lemma OnlyFirstMessageAnswered(m: InboundMessage, rest: seq<InboundMessage>)
    ensures DeliveryReplies(Notification([Entry([Change(Some(ChangeValue([m] + rest)))])])) == Replies(m)
  {
  }
}
