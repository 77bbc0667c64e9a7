/** The inductive invariant of a run: the ring, the join under way, the token, the
    versions, and what every packet still in the network may say. */
module RingInvariant {
  import opened Base
  import opened JoinTable
  import opened JoinTableLaws
  import opened NodeModel
  import opened RingProtocol

  /** A join is under way at the token's place. */
  predicate Joining(g: State) {
    g.ring != [] && g.ring[0] in g.nodes && g.nodes[g.ring[0]].inflight.active
  }

  function Joiner(g: State): Name
    requires Joining(g)
  {
    g.nodes[g.ring[0]].inflight.joiner.name
  }

  ghost predicate Domain(g: State) {
    && g.ports.Keys == g.ids.Keys == g.nodes.Keys
    && g.ring != [] && (forall i | 0 <= i < |g.ring| :: g.ring[i] in g.nodes)
  }

  ghost predicate Names(g: State)
    requires Domain(g)
  {
    && |g.nodes.Keys| < U32_SIZE && |g.history| < |g.ring| && Distinct(g.ring) && DistinctIds(g.ids)
    && (forall n | n in g.nodes :: g.nodes[n].current == RouteTo(g, n) && g.nodes[n].request.id == g.ids[n])
  }

  /** The pointers of the members: a ring, except that with a join under way the predecessor
      of the coordinator may already point to the joiner. */
  ghost predicate Pointers(g: State)
    requires Domain(g)
  {
    && (forall i: nat {:trigger PrevIn(g.ring, i)} | i < |g.ring| ::
          g.nodes[g.ring[i]].prev == RouteTo(g, PrevIn(g.ring, i)))
    && (forall i: nat {:trigger NextIn(g.ring, i)} | i < |g.ring| ::
          var next := g.nodes[g.ring[i]].next;
          next == RouteTo(g, NextIn(g.ring, i))
          || (i == |g.ring| - 1 && Joining(g) && next == RouteTo(g, Joiner(g))))
  }

  /** Exactly the members are joined, and with a join under way possibly the joiner,
      which then points at its two neighbours. */
  ghost predicate Membership(g: State)
    requires Domain(g)
  {
    forall n | n in g.nodes :: MemberOk(g, n, g.nodes[n])
  }

  ghost predicate MemberOk(g: State, n: Name, nd: Node)
    requires Domain(g) && n in g.nodes
  {
    && (n in g.ring ==> nd.joined)
    && (!nd.joined ==> g.ids[n] != 0)
    && (n !in g.ring && nd.joined ==>
          && Joining(g) && n == Joiner(g)
          && nd.prev == RouteTo(g, Last(g.ring)) && nd.next == RouteTo(g, g.ring[0]))
  }

  /** One token: held by the first of `ring`, or travelling to it. Only its holder coordinates. */
  ghost predicate OneToken(g: State)
    requires Domain(g)
  {
    && (forall n | n in g.nodes :: TokenOk(g, n, g.nodes[n]))
    && (g.transit.Some? ==>
          && g.transit.value.Unicast? && g.transit.value.dst == RouteTo(g, g.ring[0])
          && g.transit.value.msg.TokenMsg? && g.transit.value.msg.token.version == |g.history|)
  }

  ghost predicate TokenOk(g: State, n: Name, nd: Node)
    requires Domain(g)
  {
    && ((nd.haveToken && !nd.sending) <==> (g.transit.None? && n == g.ring[0]))
    && (nd.sending ==> nd.haveToken && n in g.ring)
    && (nd.inflight.active ==> n == g.ring[0] && g.transit.None?)
  }

  ghost predicate JoinPhase(g: State)
    requires Domain(g)
  {
    Joining(g) ==>
      var f, joiner, last := g.nodes[g.ring[0]].inflight, Joiner(g), Last(g.ring);
      && joiner !in g.ring
      && PendingOk(g.ids, g.ports, g.ring[0], f.joiner) && f.requestId == f.joiner.requestId
      && f.expectedPrev == last
      && (last == g.ring[0] ==> f.gotPrev)
      && (f.gotPrev ==> last == g.ring[0] || g.nodes[last].next == RouteTo(g, joiner))
      && (f.gotJoiner ==> g.nodes[joiner].joined)
  }

  /** The token carries the number of completed joins; nobody has seen a later version. */
  ghost predicate Versions(g: State)
    requires Domain(g)
  {
    && (forall n | n in g.nodes :: g.nodes[n].lastSeen <= |g.history|)
    && (g.transit.None? ==>
          && g.nodes[g.ring[0]].lastSeen == |g.history|
          && g.nodes[g.ring[0]].tokenIn.version == |g.history|)
  }

  /** Every completed join: its three nodes are members, and the predecessor
      will not point at its old successor again. */
  ghost predicate HistoryOk(g: State)
    requires Domain(g)
  {
    && (forall i | 0 <= i < |g.history| :: SpliceOk(g, g.history[i]))
    && (forall i, j | 0 <= i < j < |g.history| :: g.history[i].joiner != g.history[j].joiner)
    && (forall i | 0 <= i < |g.ring| && g.ids[g.ring[i]] != 0 :: HasJoined(g.history, g.ring[i]))
  }

  ghost predicate SpliceOk(g: State, s: Splice)
    requires Domain(g)
  {
    && s.joiner in g.ring && s.prev in g.ring && s.before in g.ring
    && g.ids[s.joiner] != 0
    && g.nodes[s.prev].next.name != s.before
  }

  ghost predicate HasJoined(history: seq<Splice>, n: Name) {
    exists i :: 0 <= i < |history| && history[i].joiner == n
  }

  // -------------------------------------------------------------- packets

  /** What the meaning of a packet depends on. */
  datatype View = View(ports: map<Name, nat>, ids: map<Name, nat>, ring: seq<Name>, history: seq<Splice>,
                       joining: Option<Name>, prevDone: bool, joinerDone: bool)

  function ViewOf(g: State): View {
    var last := if g.ring == [] then "" else Last(g.ring);
    if Joining(g) then
      View(g.ports, g.ids, g.ring, g.history, Some(Joiner(g)),
           last in g.nodes && g.nodes[last].next.name == Joiner(g),
           Joiner(g) in g.nodes && g.nodes[Joiner(g)].joined)
    else View(g.ports, g.ids, g.ring, g.history, None, false, false)
  }

  ghost predicate AcceptOk(v: View, m: Msg)
    requires m.JoinAccept?
  {
    && m.newNode.name in v.ids && m.requestId == v.ids[m.newNode.name] != 0
    && m.newNode.port == PortOf(v.ports, m.newNode.name)
    && m.before.port == PortOf(v.ports, m.before.name)
    && m.prev.port == PortOf(v.ports, m.prev.name)
    && (|| Splice(m.newNode.name, m.prev.name, m.before.name) in v.history
        || (v.ring != [] && v.joining == Some(m.newNode.name)
            && m.before.name == v.ring[0] && m.prev.name == Last(v.ring)))
  }

  /** Node `from` may acknowledge request `requestId`: its part of that splice is done. */
  ghost predicate AckOk(v: View, requestId: nat, from: Name) {
    && requestId != 0
    && forall j | j in v.ids && v.ids[j] == requestId ::
         || j in v.ring
         || (v.ring != [] && v.joining == Some(j)
             && (from == j ==> v.joinerDone) && (from == Last(v.ring) ==> v.prevDone))
  }

  ghost predicate MsgOk(v: View, m: Msg) {
    match m
    case TokenMsg(_) => false
    case JoinAccept(_, _, _, _) => AcceptOk(v, m)
    case JoinAck(id, from) => AckOk(v, id, from)
    case JoinAckAck(_, _) => true
    case JoinRequest(r) =>
      r.name in v.ids && r.requestId == v.ids[r.name] != 0 && r.port == PortOf(v.ports, r.name)
    case JoinCommit(id, newName, version) =>
      && 1 <= version <= |v.history| && v.history[version - 1].joiner == newName
      && newName in v.ids && id == v.ids[newName] != 0
  }

  ghost predicate NetOk(g: State) {
    forall p | p in g.net :: MsgOk(ViewOf(g), p.msg)
  }

  ghost predicate AckSendersOk(g: State) {
    forall n | n in g.nodes && g.nodes[n].ackSender.active ::
      AckOk(ViewOf(g), g.nodes[n].ackSender.requestId, n)
  }

  // --------------------------------------------------------------- tables

  predicate PendingOk(ids: map<Name, nat>, ports: map<Name, nat>, n: Name, e: PendingJoin) {
    e.name in ids && e.name != n && e.requestId == ids[e.name] != 0 && e.port == PortOf(ports, e.name)
  }

  ghost predicate TableOk(ids: map<Name, nat>, ports: map<Name, nat>, n: Name, joins: JoinState) {
    && WellFormed(joins)
    && forall i | 0 <= i < |joins.joins| && joins.joins[i].Some? :: PendingOk(ids, ports, n, joins.joins[i].value)
  }

  ghost predicate TablesOk(g: State) {
    forall n | n in g.nodes :: TableOk(g.ids, g.ports, n, g.nodes[n].joins)
  }

  /** The part of the invariant that speaks of pointers, token, join and history. */
  ghost predicate RingOk(g: State) {
    && Domain(g) && Names(g) && Pointers(g) && Membership(g) && OneToken(g) && JoinPhase(g)
    && Versions(g) && HistoryOk(g)
  }

  ghost predicate Inv(g: State) {
    RingOk(g) && NetOk(g) && AckSendersOk(g) && TablesOk(g)
  }

  // ---------------------------------------------------- growth of the view

  /** `w` is a later view than `v`: members and history only grow, and a join
      under way goes on or is completed. */
  ghost predicate Later(v: View, w: View) {
    && w.ports == v.ports && w.ids == v.ids
    && |v.history| <= |w.history| && w.history[..|v.history|] == v.history
    && (forall n | n in v.ring :: n in w.ring)
    && (v.joining.Some? && v.ring != [] ==>
          || (w.joining == v.joining && w.ring != [] && w.ring[0] == v.ring[0] && Last(w.ring) == Last(v.ring)
              && (v.prevDone ==> w.prevDone) && (v.joinerDone ==> w.joinerDone))
          || (v.joining.value in w.ring && Splice(v.joining.value, Last(v.ring), v.ring[0]) in w.history))
  }

  lemma MsgStaysOk(v: View, w: View, m: Msg)
    requires Later(v, w) && MsgOk(v, m)
    ensures MsgOk(w, m)
  {
    match m
    case JoinCommit(id, newName, version) =>
      assert w.history[..|v.history|][version - 1] == w.history[version - 1];
    case JoinAccept(_, _, _, _) =>
      var s := Splice(m.newNode.name, m.prev.name, m.before.name);
      if s in v.history {
        assert s in w.history[..|v.history|];
      }
    case _ =>
  }

  lemma AckStaysOk(v: View, w: View, id: nat, from: Name)
    requires Later(v, w) && AckOk(v, id, from)
    ensures AckOk(w, id, from)
  {
    MsgStaysOk(v, w, JoinAck(id, from));
  }

  // ----------------------------------------------------- tables under steps

  lemma TableStaysOk(ids: map<Name, nat>, ports: map<Name, nat>, n: Name, joins: JoinState, name: Name, id: nat,
    now: int, ttl: int)
    requires TableOk(ids, ports, n, joins)
    ensures TableOk(ids, ports, n, Remove(joins, name).0)
    ensures TableOk(ids, ports, n, RecordCompleted(joins, id, name))
    ensures TableOk(ids, ports, n, MarkCompletedAndPrunePending(joins, name, id))
    ensures TableOk(ids, ports, n, Prune(joins, now, ttl))
  {
    RecordKeepsCache(joins.completed, id, name);
    OnlyClearedOps(joins, name, id, now, ttl);
  }

  lemma ClearedTableOk(ids: map<Name, nat>, ports: map<Name, nat>, n: Name, joins: JoinState)
    requires TableOk(ids, ports, n, joins)
    ensures TableOk(ids, ports, n, ClearPending(joins))
  {
    DropAllEmpties(joins);
  }

  lemma PoppedTableOk(ids: map<Name, nat>, ports: map<Name, nat>, n: Name, joins: JoinState)
    requires TableOk(ids, ports, n, joins)
    ensures TableOk(ids, ports, n, Pop(joins).0)
    ensures Used(joins.joins) > 0 ==> Pop(joins).1.Some? && PendingOk(ids, ports, n, Pop(joins).1.value)
  {
    PopAccounting(joins);
  }

  lemma AddedTableOk(ids: map<Name, nat>, ports: map<Name, nat>, n: Name, joins: JoinState, r: Request, ip: nat,
    now: int)
    requires TableOk(ids, ports, n, joins)
    requires r.name in ids && r.name != n && r.requestId == ids[r.name] != 0 && r.port == PortOf(ports, r.name)
    ensures TableOk(ids, ports, n, Add(joins, r, ip, now).0)
  {
    AddAccounting(joins, r, ip, now);
  }
}
