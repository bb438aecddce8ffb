/**
 The webhook handlers of the call-flow server, one pure function per
 handler. A handler receives the registry and the request's relevant
 fields and returns the new registry, the HTTP reply (an NCCO, a plain
 text body, or nothing for an internal continuation) and the commands it
 sends to the voice API. The asynchronous completion of a WebSocket-leg
 creation is an event of its own (`WsCreated` / `WsCreateFailed`), so that
 racing callbacks are different event orders.
 */
module CallFlow {
  import opened Optional
  import opened LegRegistry
  import SpokenDigits

  /** Which pair of endpoints handled the PSTN leg: `/answer`, `/dtmf`,
      `/event` for calls into the service number, `/answer_2`, `/dtmf2`,
      `/event_2` for calls placed through `/call`. */
  datatype Direction = Inbound | Outbound

  /** NCCO actions, restricted to the fields the handlers set. */
  datatype Action =
    | Talk(text: string, bargeIn: bool)
    | Input(eventPath: string, maxDigits: nat, timeoutSeconds: nat, submitOnHash: bool)
    | Conversation(name: string)
    | ListenConversation(name: string, canHear: seq<Uuid>, startOnEnter: bool)

  datatype Reply = Ncco(actions: seq<Action>) | Text(body: string) | NoReply

  /** Query parameters `peer_uuid` and `conf_number` of a WebSocket leg's answer URL. */
  datatype WsQuery = WsQuery(peerUuid: string, confNumber: string)

  /** Requests to the voice API. A conference number or peer uuid that was
      `undefined` in the JavaScript handlers is `None`. */
  datatype Command =
    | CreateWsLeg(dir: Direction, peerUuid: Uuid, confNumber: Option<string>)
    | Hangup(wsUuid: Option<Uuid>)
    | CreatePstnCall(number: string)

  datatype Event =
    | Answered(dir: Direction, uuid: Uuid)
    | Dtmf(dir: Direction, uuid: Uuid, timedOut: bool, digits: string)
    | Status(dir: Direction, uuid: Uuid, kind: Option<string>, status: Option<string>)
    | WsCreated(peer: Uuid, wsUuid: Uuid)
    | WsCreateFailed(peer: Uuid)
    | WsAnswered(query: WsQuery)
    | WsStatus
    | CallRequest(number: Option<string>)

  datatype Outcome = Outcome(reg: Registry, reply: Reply, cmds: seq<Command>)

  const RoomPrefix := "conf_"
  const TransferType := "transfer"
  const CompletedStatus := "completed"
  const MaxDigits := 6
  const DigitTimeoutSeconds := 7
  const InboundPrompt := "Enter a conference number, between one and six digit long"
  const OutboundPrompt := "Hello this is a call from your preferred provider. Enter a conference number, between one and six digit long"
  const Farewell := "You did not press any key, good bye"
  const MissingNumber := "\"number\" parameter missing as query parameter - please check"
  /** What JavaScript's string concatenation makes of `undefined`. */
  const Undefined := "undefined"

  /** A `transfer` status event for leg `u`. */
  function Transfer(dir: Direction, u: Uuid): Event {
    Status(dir, u, Some(TransferType), None)
  }

  /** A `completed` status event for leg `u`. */
  function Completed(dir: Direction, u: Uuid): Event {
    Status(dir, u, None, Some(CompletedStatus))
  }

  /** The conference room of a conference number. */
  function RoomName(confNumber: string): string {
    RoomPrefix + confNumber
  }

  function Confirmation(digits: string): string {
    "You entered conference number " + SpokenDigits.ReadBack(digits) + ", you are now on the conference call."
  }

  /** JavaScript truthiness of a string-or-undefined value. */
  predicate Truthy(v: Option<string>) {
    v.Some? && v.value != ""
  }

  /** The answer-URL parameters a WebSocket-leg creation carries, as rendered by string concatenation. */
  function QueryOf(c: Command): (q: WsQuery)
    requires c.CreateWsLeg?
    ensures q.peerUuid == c.peerUuid
    ensures c.confNumber.Some? ==> q.confNumber == c.confNumber.value
    ensures c.confNumber.None? ==> q.confNumber == Undefined
  {
    WsQuery(c.peerUuid, c.confNumber.GetOr(Undefined))
  }

  function CountCreates(cmds: seq<Command>): nat {
    if cmds == [] then 0 else (if cmds[0].CreateWsLeg? then 1 else 0) + CountCreates(cmds[1..])
  }

  function CountHangups(cmds: seq<Command>): nat {
    if cmds == [] then 0 else (if cmds[0].Hangup? then 1 else 0) + CountHangups(cmds[1..])
  }

  /** `/answer` and `/answer_2`: greet the caller and collect the conference
      number by DTMF, posting the result to the DTMF endpoint of the same
      direction. */
  function OnAnswer(dir: Direction): (reply: Reply)
    ensures reply.Ncco? && |reply.actions| == 2
    ensures reply.actions[0].Talk? && reply.actions[0].bargeIn
    ensures reply.actions[1] == Input(if dir == Inbound then "/dtmf" else "/dtmf2", 6, 7, true)
  {
    var prompt := if dir == Inbound then InboundPrompt else OutboundPrompt;
    var path := if dir == Inbound then "/dtmf" else "/dtmf2";
    Ncco([Talk(prompt, true), Input(path, MaxDigits, DigitTimeoutSeconds, true)])
  }

  /** `/dtmf` and `/dtmf2`: the two handlers are identical. */
  function OnDtmf(r: Registry, u: Uuid, timedOut: bool, digits: string): (o: Outcome)
    ensures o.cmds == []
    ensures timedOut ==> o.reg == r && o.reply == Ncco([Talk(Farewell, false)])
    ensures !timedOut ==>
      && Lookup(o.reg.confOf, u) == Some(digits)
      && (forall k :: k != u ==> Lookup(o.reg.confOf, k) == Lookup(r.confOf, k))
      && o.reg.wsOf == r.wsOf
    ensures !timedOut ==>
      && o.reply.Ncco? && |o.reply.actions| == 2
      && o.reply.actions[0] == Talk(Confirmation(digits), false)
      && o.reply.actions[1] == Conversation(RoomName(digits))
  {
    if timedOut then
      Outcome(r, Ncco([Talk(Farewell, false)]), [])
    else
      var reply := Ncco([Talk(Confirmation(digits), false), Conversation(RoomName(digits))]);
      Outcome(AddConfNumber(r, u, digits), reply, [])
  }

  /** The WebSocket-leg creation a `transfer` event requests. The inbound
      handler first tests the stored conference number for truthiness; the
      outbound handler does not test it at all. */
  function TransferCommands(r: Registry, dir: Direction, u: Uuid): seq<Command> {
    var conf := Lookup(r.confOf, u);
    match dir
    case Inbound => if Truthy(conf) then [CreateWsLeg(Inbound, u, conf)] else []
    case Outbound => [CreateWsLeg(Outbound, u, conf)]
  }

  /** `/event` and `/event_2`: the `transfer` branch, then independently
      the `completed` branch, which hangs up whatever peer is recorded
      (possibly `undefined`) and deletes both bindings of the leg. */
  function OnStatus(r: Registry, dir: Direction, u: Uuid, kind: Option<string>, status: Option<string>): (o: Outcome)
    ensures o.reply == Text("Ok")
    ensures CountCreates(o.cmds) ==
      (if kind == Some(TransferType) && (dir == Outbound || Truthy(Lookup(r.confOf, u))) then 1 else 0)
    ensures CountHangups(o.cmds) == (if status == Some(CompletedStatus) then 1 else 0)
    ensures forall c :: c in o.cmds ==>
      c == CreateWsLeg(dir, u, Lookup(r.confOf, u)) || c == Hangup(Lookup(r.wsOf, u))
    ensures status == Some(CompletedStatus) ==>
      Lookup(o.reg.confOf, u) == None && Lookup(o.reg.wsOf, u) == None
    ensures status != Some(CompletedStatus) ==> o.reg == r
    ensures forall k :: k != u ==>
      Lookup(o.reg.confOf, k) == Lookup(r.confOf, k) && Lookup(o.reg.wsOf, k) == Lookup(r.wsOf, k)
    ensures o.reg.wsOf.Values <= r.wsOf.Values
  {
    var creates := if kind == Some(TransferType) then TransferCommands(r, dir, u) else [];
    if status == Some(CompletedStatus) then
      var hangup := Hangup(Lookup(r.wsOf, u));
      assert CountHangups([hangup]) == 1;
      CountsOfAppend(creates, [hangup]);
      Outcome(RemoveWsUuid(RemoveConfNumber(r, u), u), Text("Ok"), creates + [hangup])
    else
      Outcome(r, Text("Ok"), creates)
  }

  /** The `.then` continuation of a WebSocket-leg creation: records the returned leg uuid. */
  function OnWsCreated(r: Registry, u: Uuid, w: Uuid): (o: Outcome)
    ensures o.cmds == [] && o.reply == NoReply
    ensures Lookup(o.reg.wsOf, u) == Some(w)
    ensures forall k :: k != u ==> Lookup(o.reg.wsOf, k) == Lookup(r.wsOf, k)
    ensures o.reg.confOf == r.confOf
  {
    Outcome(AddWsUuid(r, u, w), NoReply, [])
  }

  /** `/ws_answer_1` and `/ws_answer_2`: put the WebSocket leg in the room of
      its conference number, hearing only its PSTN peer. */
  function OnWsAnswer(q: WsQuery): (reply: Reply)
    ensures reply.Ncco? && |reply.actions| == 1
    ensures reply.actions[0].ListenConversation?
    ensures reply.actions[0].name == RoomPrefix + q.confNumber
    ensures reply.actions[0].canHear == [q.peerUuid] && reply.actions[0].startOnEnter
  {
    Ncco([ListenConversation(RoomName(q.confNumber), [q.peerUuid], true)])
  }

  /** `/call`: a missing `number` is refused without placing a call. */
  function OnCall(r: Registry, number: Option<string>): (o: Outcome)
    ensures o.reg == r
    ensures number.None? ==> o.reply == Text(MissingNumber) && o.cmds == []
    ensures number.Some? ==> o.reply == Text("Ok") && o.cmds == [CreatePstnCall(number.value)]
  {
    match number
    case None => Outcome(r, Text(MissingNumber), [])
    case Some(n) => Outcome(r, Text("Ok"), [CreatePstnCall(n)])
  }

  /** The leg whose bindings an event may change. */
  function Touched(e: Event): set<Uuid> {
    match e
    case Dtmf(_, u, _, _) => {u}
    case Status(_, u, _, _) => {u}
    case WsCreated(u, _) => {u}
    case _ => {}
  }

  /** The kind of HTTP answer each webhook gives: status webhooks are
      acknowledged with "Ok" before anything else happens, the answer and
      DTMF webhooks return an NCCO, and a creation continuation answers no
      request at all. */
  predicate ReplyFits(e: Event, reply: Reply) {
    match e
    case Answered(_, _) => reply.Ncco?
    case Dtmf(_, _, _, _) => reply.Ncco?
    case Status(_, _, _, _) => reply == Text("Ok")
    case WsCreated(_, _) => reply == NoReply
    case WsCreateFailed(_) => reply == NoReply
    case WsAnswered(_) => reply.Ncco?
    case WsStatus => reply == Text("Ok")
    case CallRequest(_) => reply.Text?
  }

  /** The whole server as one transition. */
  function Step(r: Registry, e: Event): (o: Outcome)
    ensures ReplyFits(e, o.reply)
    ensures forall k :: k !in Touched(e) ==>
      Lookup(o.reg.confOf, k) == Lookup(r.confOf, k) && Lookup(o.reg.wsOf, k) == Lookup(r.wsOf, k)
    ensures o.reg.wsOf.Values <= r.wsOf.Values + (if e.WsCreated? then {e.wsUuid} else {})
    ensures forall c :: c in o.cmds && c.Hangup? && c.wsUuid.Some? ==> c.wsUuid.value in r.wsOf.Values
  {
    match e
    case Answered(dir, _) => Outcome(r, OnAnswer(dir), [])
    case Dtmf(_, u, timedOut, digits) => OnDtmf(r, u, timedOut, digits)
    case Status(dir, u, kind, status) => OnStatus(r, dir, u, kind, status)
    case WsCreated(u, w) => OnWsCreated(r, u, w)
    case WsCreateFailed(_) => Outcome(r, NoReply, [])
    case WsAnswered(q) => Outcome(r, OnWsAnswer(q), [])
    case WsStatus => Outcome(r, Text("Ok"), [])
    case CallRequest(number) => OnCall(r, number)
  }

  lemma {:induction false} CountsOfAppend(a: seq<Command>, b: seq<Command>)
    ensures CountCreates(a + b) == CountCreates(a) + CountCreates(b)
    ensures CountHangups(a + b) == CountHangups(a) + CountHangups(b)
  {
    if a == [] {
      assert a + b == b;
    } else {
      assert (a + b)[0] == a[0];
      assert (a + b)[1..] == a[1..] + b;
      CountsOfAppend(a[1..], b);
    }
  }
}
