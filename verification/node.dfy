/** One node of the ring: its state as a value, and what each handler and timer
    tick makes of it. A step returns the new state and the packets it sends. */
module NodeModel {
  import opened Base
  import opened JoinTable

  const JOIN_ACCEPT_TIMEOUT_S := 1
  const JOIN_ACCEPT_RETRIES := 30
  const JOIN_REQUEST_TIMEOUT_S := 10
  const JOIN_REQUEST_RETRIES := 65536
  const JOIN_ACK_RESEND_S := 1
  const JOIN_ACK_MAX_RETRIES := 30
  const JOIN_PENDING_TTL_S := 200

  datatype Route = Route(name: Name, port: nat)

  datatype Token = Token(data: string, sender: Name, receiver: Name, version: nat, isEmpty: bool)

  /** A token structure overwritten with zeros: note that it does not count as empty. */
  const ZERO_TOKEN := Token("", "", "", 0, false)

  datatype Msg =
    | TokenMsg(token: Token)
    | JoinAccept(requestId: nat, newNode: Route, before: Route, prev: Route)
    | JoinAck(requestId: nat, from: Name)
    | JoinAckAck(requestId: nat, to: Name)
    | JoinRequest(request: Request)
    | JoinCommit(requestId: nat, newName: Name, version: nat)

  datatype Packet = Unicast(dst: Route, msg: Msg) | Broadcast(msg: Msg)

  datatype Inflight = Inflight(active: bool, requestId: nat, joiner: PendingJoin, expectedPrev: Name,
                               gotPrev: bool, gotJoiner: bool, lastSent: int, retries: nat)

  datatype AckSender = AckSender(active: bool, requestId: nat, coord: Route,
                                 lastSent: int, retries: nat, gotAckAck: bool)

  datatype RequestTimer = RequestTimer(id: nat, lastSent: int, retries: nat)

  /** `sending` marks a node blocked in the send of the token: it has handed the token to
      the transport, still has `haveToken` set, and runs no handler. */
  datatype Node = Node(current: Route, prev: Route, next: Route, joined: bool, lastSeen: nat,
                       joins: JoinState, inflight: Inflight, ackSender: AckSender, request: RequestTimer,
                       tokenIn: Token, haveToken: bool, cliPending: Token, haveCli: bool, sending: bool)

  function JoinerRoute(e: PendingJoin): Route { Route(e.name, e.port) }

  // ------------------------------------------------------ coordinator steps

  /** Starts the splice of `e` between this node's predecessor and this node. */
  function StartInflight(nd: Node, e: PendingJoin): Node {
    nd.(inflight := Inflight(true, e.requestId, e, nd.prev.name, nd.prev.name == nd.current.name, false, 0, 0))
  }

  function NextVersion(v: nat): nat { (v + 1) % U32_SIZE }

  /** Completes the join once both confirmations are in. */
  function TryComplete(nd: Node): (Node, seq<Packet>) {
    if !nd.inflight.active || !nd.inflight.gotPrev || !nd.inflight.gotJoiner then (nd, [])
    else
      var joiner := nd.inflight.joiner;
      var version := NextVersion(nd.lastSeen);
      var joins := RecordCompleted(Remove(nd.joins, joiner.name).0, joiner.requestId, joiner.name);
      (nd.(prev := JoinerRoute(joiner),
           next := if nd.inflight.expectedPrev == nd.current.name then JoinerRoute(joiner) else nd.next,
           lastSeen := version,
           tokenIn := nd.tokenIn.(version := version),
           joins := joins,
           inflight := nd.inflight.(active := false, gotPrev := false, gotJoiner := false, retries := 0)),
       [Broadcast(JoinCommit(nd.inflight.requestId, joiner.name, version))])
  }

  function AcceptMsg(nd: Node): Msg {
    JoinAccept(nd.inflight.requestId, JoinerRoute(nd.inflight.joiner), nd.current, nd.prev)
  }

  function InflightTick(nd: Node, now: int): (Node, seq<Packet>) {
    if !nd.inflight.active then (nd, [])
    else if nd.inflight.gotPrev && nd.inflight.gotJoiner then TryComplete(nd)
    else if nd.inflight.lastSent != 0 && now - nd.inflight.lastSent < JOIN_ACCEPT_TIMEOUT_S then (nd, [])
    else
      var retries := if nd.inflight.retries >= JOIN_ACCEPT_RETRIES then 0 else nd.inflight.retries;
      (nd.(inflight := nd.inflight.(lastSent := now, retries := retries + 1)),
       (if nd.inflight.gotJoiner then [] else [Unicast(JoinerRoute(nd.inflight.joiner), AcceptMsg(nd))])
       + (if nd.inflight.gotPrev then [] else [Unicast(nd.prev, AcceptMsg(nd))]))
  }

  /** The confirmations an acknowledgement from `from` stands for. */
  function Confirm(nd: Node, from: Name): Node {
    nd.(inflight := nd.inflight.(
      gotPrev := nd.inflight.gotPrev || from == nd.inflight.expectedPrev || from == nd.prev.name,
      gotJoiner := nd.inflight.gotJoiner || from == nd.inflight.joiner.name))
  }

  /** Confirmation bookkeeping, then completion, then the acknowledgement of the acknowledgement. */
  function HandleAck(nd: Node, m: Msg): (Node, seq<Packet>)
    requires m.JoinAck?
  {
    var (nd1, out) :=
      if nd.inflight.active && nd.inflight.requestId == m.requestId then
        TryComplete(Confirm(nd, m.from))
      else (nd, []);
    var reply := JoinAckAck(m.requestId, m.from);
    if nd1.inflight.active && m.from == nd1.inflight.joiner.name then
      var p := Unicast(Route(m.from, nd1.inflight.joiner.port), reply);
      (nd1, out + [p, p, p])
    else if m.from == nd1.prev.name then
      var p := Unicast(Route(m.from, nd1.prev.port), reply);
      (nd1, out + [p, p, p])
    else (nd1, out)
  }

  // ------------------------------------------------ predecessor and joiner

  /** The routing change an accept makes, and whether it made one. */
  function ApplyAccept(nd: Node, m: Msg): (Node, bool)
    requires m.JoinAccept?
  {
    if nd.current.name == m.newNode.name then
      if nd.joined || m.requestId != nd.request.id then (nd, false)
      else (nd.(prev := m.prev, next := m.before, joined := true,
                request := nd.request.(lastSent := 0, retries := 0)), true)
    else if nd.current.name == m.prev.name then
      if nd.next.name != m.before.name then (nd, false)
      else (nd.(next := m.newNode, joined := true), true)
    else (nd, false)
  }

  /** `sent` tells whether the first send of the acknowledgement was confirmed in time. */
  function HandleAccept(nd: Node, m: Msg, sent: bool, now: int): (Node, seq<Packet>)
    requires m.JoinAccept?
  {
    var nd1 := nd.(joins := MarkCompletedAndPrunePending(nd.joins, m.newNode.name, m.requestId));
    var (nd2, did) := ApplyAccept(nd1, m);
    if !did then (nd2, [])
    else
      (nd2.(ackSender := AckSender(true, m.requestId, m.before, if sent then now else 0, if sent then 1 else 0, false)),
       [Unicast(m.before, JoinAck(m.requestId, nd.current.name))])
  }

  function HandleAckAck(nd: Node, m: Msg): Node
    requires m.JoinAckAck?
  {
    if m.to == nd.current.name && nd.ackSender.active && nd.ackSender.requestId == m.requestId then
      nd.(ackSender := nd.ackSender.(gotAckAck := true))
    else nd
  }

  function AckSenderTick(nd: Node, now: int): (Node, seq<Packet>) {
    var a := nd.ackSender;
    if !a.active then (nd, [])
    else if a.gotAckAck then (nd.(ackSender := a.(active := false)), [])
    else if a.lastSent != 0 && now - a.lastSent < JOIN_ACK_RESEND_S then (nd, [])
    else if a.retries >= JOIN_ACK_MAX_RETRIES then (nd.(ackSender := a.(active := false)), [])
    else (nd.(ackSender := a.(lastSent := now, retries := a.retries + 1)),
          [Unicast(a.coord, JoinAck(a.requestId, nd.current.name))])
  }

  // -------------------------------------------------------------- broadcast

  /** The third component is false when the retries are used up and the node stops. */
  function RequestTick(nd: Node, now: int): (Node, seq<Packet>, bool) {
    if nd.joined then (nd, [], true)
    else if nd.request.lastSent != 0 && now - nd.request.lastSent < JOIN_REQUEST_TIMEOUT_S then (nd, [], true)
    else if nd.request.retries >= JOIN_REQUEST_RETRIES then (nd, [], false)
    else (nd.(request := nd.request.(lastSent := now, retries := nd.request.retries + 1)),
          [Broadcast(JoinRequest(Request(nd.current.name, nd.request.id, nd.current.port)))], true)
  }

  /** A request the node does not put in its table: its own, the one in flight, one it knows completed. */
  predicate IgnoresRequest(nd: Node, r: Request) {
    || r.name == nd.current.name
    || (nd.inflight.active && nd.inflight.joiner.name == r.name)
    || IsCompleted(nd.joins.completed, r.name)
  }

  function HandleRequest(nd: Node, r: Request, ip: nat, now: int): Node {
    if IgnoresRequest(nd, r) then nd else nd.(joins := Add(nd.joins, r, ip, now).0)
  }

  /** Drops every pending join, as a version advance does. */
  function ClearPending(joins: JoinState): JoinState { Drop(joins, Used(joins.joins)).0 }

  /** The branch that completes an in-flight join on a commit from elsewhere. */
  function CompleteViaCommit(nd: Node): Node {
    var joiner := nd.inflight.joiner;
    nd.(prev := JoinerRoute(joiner),
        joins := RecordCompleted(Remove(nd.joins, joiner.name).0, joiner.requestId, joiner.name),
        inflight := nd.inflight.(active := false, gotPrev := false, gotJoiner := false, retries := 0),
        tokenIn := nd.tokenIn.(version := nd.lastSeen))
  }

  /** The name is completed; a later version clears the table. */
  function LearnCommit(nd: Node, m: Msg): Node
    requires m.JoinCommit?
  {
    var joins := MarkCompletedAndPrunePending(nd.joins, m.newName, m.requestId);
    if m.version > nd.lastSeen then nd.(lastSeen := m.version, joins := ClearPending(joins))
    else nd.(joins := joins)
  }

  function StopAcks(nd: Node, requestId: nat): Node {
    if nd.ackSender.active && nd.ackSender.requestId == requestId then
      nd.(ackSender := nd.ackSender.(active := false, gotAckAck := true))
    else nd
  }

  function HandleCommit(nd: Node, m: Msg): Node
    requires m.JoinCommit?
  {
    var nd1 := LearnCommit(nd, m);
    var nd2 := if nd1.inflight.active && nd1.inflight.requestId == m.requestId then CompleteViaCommit(nd1) else nd1;
    StopAcks(nd2, m.requestId)
  }

  function PruneTick(nd: Node, now: int): Node { nd.(joins := Prune(nd.joins, now, JOIN_PENDING_TTL_S)) }

  // ------------------------------------------------------------------ token

  function ReceiveToken(nd: Node, t: Token): Node {
    var nd1 := nd.(tokenIn := t);
    if !nd.joined then nd1
    else if t.version > nd.lastSeen then
      nd1.(lastSeen := t.version, joins := ClearPending(nd.joins), haveToken := true)
    else nd1.(haveToken := true)
  }

  function InitialToken(nd: Node): Node {
    if !nd.joined || nd.haveToken then nd
    else nd.(tokenIn := Token("", "", "", nd.lastSeen, true), haveToken := true)
  }

  predicate IsForMe(nd: Node) { !nd.tokenIn.isEmpty && nd.tokenIn.receiver == nd.current.name }

  /** The token after a message for this node has been taken out. */
  function Consumed(nd: Node): Token {
    if IsForMe(nd) then Token("", "", "", nd.tokenIn.version, true) else nd.tokenIn
  }

  predicate Attaches(nd: Node) { nd.haveCli && Consumed(nd).isEmpty }

  function OutgoingToken(nd: Node): Token {
    if Attaches(nd) then nd.cliPending.(version := nd.lastSeen) else Consumed(nd)
  }

  /** The token leaves: the node blocks in the send until the successor acknowledges. */
  function BeginForward(nd: Node): (Node, seq<Packet>) {
    var nd1 := if Attaches(nd)
      then nd.(haveCli := false, cliPending := Token("", "", "", nd.cliPending.version, true)) else nd;
    (nd1.(sending := true), [Unicast(nd.next, TokenMsg(OutgoingToken(nd)))])
  }

  /** The send returned. */
  function EndForward(nd: Node): Node {
    nd.(sending := false, haveToken := false, tokenIn := ZERO_TOKEN)
  }

  /** The send failed: the token stays, as it was before the forward. */
  function AbandonForward(nd: Node): Node { nd.(sending := false) }

  predicate TokenReady(nd: Node) { nd.joined && nd.haveToken && !nd.inflight.active }

  /** With pending joins the holder starts the oldest one; otherwise it forwards the token. */
  function HandleToken(nd: Node, now: int): (Node, seq<Packet>) {
    if !TokenReady(nd) then (nd, [])
    else if Used(nd.joins.joins) > 0 then
      var (joins, e) := Pop(nd.joins);
      if e.None? then (nd.(joins := joins), [])
      else InflightTick(StartInflight(nd.(joins := joins), e.value), now)
    else BeginForward(nd)
  }

  function ReadCli(nd: Node, t: Token): Node {
    if !nd.tokenIn.isEmpty then nd else nd.(cliPending := t, haveCli := true)
  }

  // ------------------------------------------------------------------ timers

  const SELECT_TIMEOUT_S := 10

  function DueAt(lastSent: int, period: int, now: int): int {
    if lastSent == 0 then now else lastSent + period
  }

  /** The running minimum of the deadlines, with 0 for none so far. */
  function Earlier(next: int, deadline: int): int {
    if next == 0 || deadline < next then deadline else next
  }

  predicate WorkWaits(nd: Node, rudpPending: bool) {
    || (nd.inflight.active && nd.inflight.gotPrev && nd.inflight.gotJoiner)
    || rudpPending
    || (nd.haveToken && nd.joined && !nd.inflight.active)
  }

  function NextDeadline(nd: Node, now: int): int {
    var d0 := if !nd.joined then DueAt(nd.request.lastSent, JOIN_REQUEST_TIMEOUT_S, now) else 0;
    var d1 := if nd.inflight.active && !(nd.inflight.gotPrev && nd.inflight.gotJoiner)
              then Earlier(d0, DueAt(nd.inflight.lastSent, JOIN_ACCEPT_TIMEOUT_S, now)) else d0;
    var d2 := if Used(nd.joins.joins) > 0 then Earlier(d1, now + 1) else d1;
    if nd.ackSender.active && !nd.ackSender.gotAckAck
    then Earlier(d2, DueAt(nd.ackSender.lastSent, JOIN_ACK_RESEND_S, now)) else d2
  }

  /** How many seconds the event loop may sleep. */
  function SelectTimeout(nd: Node, rudpPending: bool, now: int): int {
    if WorkWaits(nd, rudpPending) then 0
    else
      var deadline := NextDeadline(nd, now);
      if deadline == 0 then SELECT_TIMEOUT_S
      else if deadline <= now then 0
      else deadline - now
  }
}
