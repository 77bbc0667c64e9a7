/** All nodes together: the network, the steps of a run, and what a proper ring is. */
module RingProtocol {
  import opened Base
  import opened JoinTable
  import opened NodeModel

  /** A completed join: `joiner` was put between `prev` and `before`. */
  datatype Splice = Splice(joiner: Name, prev: Name, before: Name)

  /** `net` holds every packet ever sent: any of them may arrive at its destination at any time,
      in any order, any number of times or never. The token travels apart from them, in `transit`.
      `ports` and `ids` give each process its port and its request id (0 for the first members).
      `ring` and `history` only record the run: the members from the token's place onwards, and
      the completed joins in order. No step reads them. */
  datatype State = State(nodes: map<Name, Node>, ports: map<Name, nat>, ids: map<Name, nat>,
                         net: set<Packet>, transit: Option<Packet>, ring: seq<Name>, history: seq<Splice>)

  datatype Label =
    | RequestTimer(n: Name, now: int)
    | Deliver(n: Name, p: Packet, sent: bool, ip: nat, now: int)
    | MaybeComplete(n: Name)
    | InflightTimer(n: Name, now: int)
    | AckTimer(n: Name, now: int)
    | PruneTimer(n: Name, now: int)
    | UseToken(n: Name, now: int)
    | SendReturns(n: Name)
    | TokenArrives(n: Name)
    | CliInput(n: Name, token: Token)

  function Dispatch(nd: Node, m: Msg, sent: bool, ip: nat, now: int): (Node, seq<Packet>) {
    match m
    case TokenMsg(t) => (ReceiveToken(nd, t), [])
    case JoinAccept(_, _, _, _) => HandleAccept(nd, m, sent, now)
    case JoinAck(_, _) => HandleAck(nd, m)
    case JoinAckAck(_, _) => (HandleAckAck(nd, m), [])
    case JoinRequest(r) => (HandleRequest(nd, r, ip, now), [])
    case JoinCommit(_, _, _) => (HandleCommit(nd, m), [])
  }

  /** What the node of label `l` does. */
  function LocalStep(g: State, l: Label): (Node, seq<Packet>)
    requires l.n in g.nodes
  {
    var nd := g.nodes[l.n];
    match l
    case RequestTimer(_, now) => var (nd', out, _) := RequestTick(nd, now); (nd', out)
    case Deliver(_, p, sent, ip, now) => Dispatch(nd, p.msg, sent, ip, now)
    case MaybeComplete(_) => TryComplete(nd)
    case InflightTimer(_, now) => InflightTick(nd, now)
    case AckTimer(_, now) => AckSenderTick(nd, now)
    case PruneTimer(_, now) => (PruneTick(nd, now), [])
    case UseToken(_, now) => HandleToken(nd, now)
    case SendReturns(_) => (EndForward(nd), [])
    case TokenArrives(_) => if g.transit.Some? then Dispatch(nd, g.transit.value.msg, false, 0, 0) else (nd, [])
    case CliInput(_, t) => (ReadCli(nd, t), [])
  }

  predicate Addressed(p: Packet, to: Route) { p.Broadcast? || p.dst == to }

  /** A node blocked in the send of the token does nothing until that send returns. */
  predicate Enabled(g: State, l: Label) {
    && l.n in g.nodes
    && (l.SendReturns? <==> g.nodes[l.n].sending)
    && (l.Deliver? ==> l.p in g.net && Addressed(l.p, g.nodes[l.n].current))
    && (l.TokenArrives? ==> g.transit.Some? && Addressed(g.transit.value, g.nodes[l.n].current))
  }

  /** The packets that go into the network; the token does not. */
  function Datagrams(out: seq<Packet>): set<Packet> { set p | p in out && !p.msg.TokenMsg? }

  /** Node `n` becomes `nd` and sends `out`; a join it completes is recorded. */
  function Put(g: State, n: Name, nd: Node, out: seq<Packet>): State
    requires n in g.nodes
  {
    var was := g.nodes[n];
    var done := was.inflight.active && !nd.inflight.active;
    var joiner := was.inflight.joiner.name;
    g.(nodes := g.nodes[n := nd],
       net := g.net + Datagrams(out),
       ring := if done then g.ring + [joiner] else g.ring,
       history := if done then g.history + [Splice(joiner, was.prev.name, n)] else g.history)
  }

  function Rotate(ring: seq<Name>): seq<Name> { if ring == [] then [] else ring[1..] + [ring[0]] }

  predicate Forwards(g: State, l: Label) {
    l.n in g.nodes && l.UseToken? && !g.nodes[l.n].sending && LocalStep(g, l).0.sending
  }

  function Apply(g: State, l: Label): State
    requires l.n in g.nodes
  {
    var (nd, out) := LocalStep(g, l);
    var g1 := Put(g, l.n, nd, out);
    if Forwards(g, l) then
      g1.(transit := if out == [] then None else Some(out[0]), ring := Rotate(g1.ring))
    else if l.TokenArrives? then g1.(transit := None)
    else g1
  }

  // ------------------------------------------------------------- the ring

  function PortOf(ports: map<Name, nat>, n: Name): nat { if n in ports then ports[n] else 0 }

  function RouteTo(g: State, n: Name): Route { Route(n, PortOf(g.ports, n)) }

  predicate Distinct(s: seq<Name>) { forall i, j | 0 <= i < j < |s| :: s[i] != s[j] }

  function Last(s: seq<Name>): Name
    requires s != []
  {
    s[|s| - 1]
  }

  function PrevIn(s: seq<Name>, i: nat): Name
    requires i < |s|
  {
    if i == 0 then Last(s) else s[i - 1]
  }

  function NextIn(s: seq<Name>, i: nat): Name
    requires i < |s|
  {
    if i + 1 < |s| then s[i + 1] else s[0]
  }

  /** `c` lists the joined nodes once each, every `next` names the following one with its
      port, and every `prev` the one before. */
  ghost predicate IsRing(g: State, c: seq<Name>) {
    && c != [] && Distinct(c)
    && (forall n :: n in c <==> n in g.nodes && g.nodes[n].joined)
    && (forall i: nat {:trigger NextIn(c, i)} | i < |c| :: g.nodes[c[i]].next == RouteTo(g, NextIn(c, i)))
    && (forall i: nat {:trigger PrevIn(c, i)} | i < |c| :: g.nodes[c[i]].prev == RouteTo(g, PrevIn(c, i)))
  }

  ghost predicate DistinctIds(ids: map<Name, nat>) {
    forall a, b | a in ids && b in ids && a != b && ids[a] != 0 :: ids[a] != ids[b]
  }

  /** Distinct names, ports and non-zero request ids; a well-formed first ring whose first node
      starts the token; nobody has joins, messages or timers under way. */
  ghost predicate Init(g: State) {
    && g.ports.Keys == g.ids.Keys == g.nodes.Keys
    && |g.nodes.Keys| < U32_SIZE
    && IsRing(g, g.ring)
    && (forall n | n in g.nodes :: InitNode(g, n, g.nodes[n]))
    && DistinctIds(g.ids)
    && g.net == {} && g.transit == None && g.history == []
  }

  ghost predicate InitNode(g: State, n: Name, nd: Node) {
    && nd.current == RouteTo(g, n)
    && n in g.ids && nd.request.id == g.ids[n] && (nd.joined <==> g.ids[n] == 0)
    && nd.lastSeen == 0 && nd.joins == EmptyState()
    && !nd.inflight.active && !nd.inflight.gotPrev && !nd.inflight.gotJoiner && !nd.ackSender.active
    && !nd.sending && (nd.haveToken <==> g.ring != [] && n == g.ring[0])
    && (nd.haveToken ==> nd.tokenIn.isEmpty && nd.tokenIn.version == 0)
  }

  ghost predicate StepAt(states: seq<State>, labels: seq<Label>, i: nat)
    requires |states| == |labels| + 1 && i < |labels|
  {
    Enabled(states[i], labels[i]) && states[i + 1] == Apply(states[i], labels[i])
  }

  /** Consecutive steps: `states[i + 1]` comes from `states[i]` by the step `labels[i]`. */
  ghost predicate Steps(states: seq<State>, labels: seq<Label>) {
    && |states| == |labels| + 1
    && forall i: nat | i < |labels| :: StepAt(states, labels, i)
  }

  /** A run: consecutive steps from a proper start. */
  ghost predicate IsRun(states: seq<State>, labels: seq<Label>) { Steps(states, labels) && Init(states[0]) }

  // ----------------------------------------------------------- assumptions

  predicate StartsJoin(g: State, l: Label) {
    l.n in g.nodes && l.UseToken? && TokenReady(g.nodes[l.n]) && Used(g.nodes[l.n].joins.joins) > 0
  }

  /** A join started by this step is for a node that has not joined yet. */
  predicate StartsFresh(g: State, l: Label) {
    StartsJoin(g, l) ==>
      var e := Pop(g.nodes[l.n].joins).1;
      e.Some? ==> e.value.name in g.nodes && !g.nodes[e.value.name].joined
  }

  ghost predicate JoinsStartFresh(states: seq<State>, labels: seq<Label>)
    requires |states| == |labels| + 1
  {
    forall i {:trigger StartsFresh(states[i], labels[i])} | 0 <= i < |labels| :: StartsFresh(states[i], labels[i])
  }
}
