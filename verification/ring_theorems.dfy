/** Runs keep the invariant; what that means for the ring, the token and the versions. */
module RingTheorems {
  import opened Base
  import opened JoinTable
  import opened NodeModel
  import opened RingProtocol
  import opened RingInvariant
  import opened RingRun
  import opened RingHandlers

  // --------------------------------------------------------- the invariant

  lemma DispatchStep(g: State, n: Name, m: Msg, sent: bool, ip: nat, now: int)
    requires Inv(g) && n in g.nodes && MsgOk(ViewOf(g), m)
    ensures var (nd, out) := Dispatch(g.nodes[n], m, sent, ip, now); Inv(Put(g, n, nd, out))
  {
    match m
    case JoinAccept(_, _, _, _) => AcceptStep(g, n, m, sent, now);
    case JoinAck(_, _) => AckStep(g, n, m);
    case JoinAckAck(_, _) => AckAckStep(g, n, m);
    case JoinRequest(r) => RequestStep(g, n, r, ip, now);
    case JoinCommit(_, _, _) => CommitStep(g, n, m);
  }

  lemma PlainApply(g: State, l: Label)
    requires l.n in g.nodes && !l.UseToken? && !l.TokenArrives?
    ensures Apply(g, l) == Put(g, l.n, LocalStep(g, l).0, LocalStep(g, l).1)
  {
  }

  lemma ArriveApply(g: State, l: Label)
    requires l.n in g.nodes && l.TokenArrives? && g.transit.Some? && g.transit.value.msg.TokenMsg?
    ensures Apply(g, l) == Put(g, l.n, ReceiveToken(g.nodes[l.n], g.transit.value.msg.token), []).(transit := None)
  {
  }

  /** Every step keeps the invariant, provided a join it starts is for a node not joined yet. */
  lemma StepKeepsInv(g: State, l: Label)
    requires Inv(g) && Enabled(g, l) && StartsFresh(g, l)
    ensures Inv(Apply(g, l))
  {
    var n := l.n;
    if l.UseToken? {
      UseTokenStep(g, l);
    } else if l.TokenArrives? {
      ArriveStep(g, n);
      ArriveApply(g, l);
    } else {
      PlainApply(g, l);
      match l
      case RequestTimer(_, now) => RequestTimerStep(g, n, now);
      case Deliver(_, p, sent, ip, now) => DispatchStep(g, n, p.msg, sent, ip, now);
      case MaybeComplete(_) => CompleteStep(g, n);
      case InflightTimer(_, now) => InflightTimerStep(g, n, now);
      case AckTimer(_, now) => AckTimerStep(g, n, now);
      case PruneTimer(_, now) => PruneStep(g, n, now);
      case SendReturns(_) => SendReturnsStep(g, n);
      case CliInput(_, t) => CliStep(g, n, t);
    }
  }

  lemma InitRing(g: State)
    requires Init(g)
    ensures Domain(g) && Names(g) && Pointers(g) && !Joining(g) && JoinPhase(g)
  {
    forall i | 0 <= i < |g.ring| ensures g.ring[i] in g.nodes { assert g.ring[i] in g.ring; }
    assert InitNode(g, g.ring[0], g.nodes[g.ring[0]]);
  }

  lemma InitNodes(g: State)
    requires Init(g) && Domain(g)
    ensures Membership(g) && OneToken(g) && Versions(g)
  {
    forall n | n in g.nodes ensures MemberOk(g, n, g.nodes[n]) && TokenOk(g, n, g.nodes[n]) {
      assert InitNode(g, n, g.nodes[n]);
    }
    assert g.ring[0] in g.ring;
  }

  lemma InitRest(g: State)
    requires Init(g) && Domain(g)
    ensures HistoryOk(g) && NetOk(g) && AckSendersOk(g) && TablesOk(g)
  {
    forall i | 0 <= i < |g.ring| ensures g.ids[g.ring[i]] == 0 {
      assert g.ring[i] in g.ring;
      assert InitNode(g, g.ring[i], g.nodes[g.ring[i]]);
    }
  }

  lemma InitInv(g: State)
    requires Init(g)
    ensures Inv(g)
  {
    InitRing(g);
    InitNodes(g);
    InitRest(g);
  }

  lemma NextInv(states: seq<State>, labels: seq<Label>, k: nat)
    requires IsRun(states, labels) && JoinsStartFresh(states, labels) && k < |labels| && Inv(states[k])
    ensures Inv(states[k + 1])
  {
    assert StepAt(states, labels, k);
    StepKeepsInv(states[k], labels[k]);
  }

  /** Every state of a run whose joins start fresh satisfies the invariant. */
  lemma RunInv(states: seq<State>, labels: seq<Label>, k: nat)
    requires IsRun(states, labels) && JoinsStartFresh(states, labels) && k < |states|
    ensures Inv(states[k])
  {
    InitInv(states[0]);
    for i := 0 to k
      invariant Inv(states[i])
    {
      NextInv(states, labels, i);
    }
  }

  // -------------------------------------------------------------- ring safety

  ghost predicate NoJoinInFlight(g: State) {
    forall n | n in g.nodes :: !g.nodes[n].inflight.active
  }

  /** Ring safety: with no join in flight, the `next` pointers form one cycle through exactly
      the joined nodes, and `prev` is its inverse. */
  lemma RingSafety(states: seq<State>, labels: seq<Label>, k: nat)
    requires IsRun(states, labels) && JoinsStartFresh(states, labels) && k < |states|
    ensures NoJoinInFlight(states[k]) ==> exists c :: IsRing(states[k], c)
  {
    RunInv(states, labels, k);
    var g := states[k];
    if NoJoinInFlight(g) {
      QuietRing(g);
    }
  }

  lemma QuietRing(g: State)
    requires RingOk(g) && !Joining(g)
    ensures IsRing(g, g.ring)
  {
    forall n ensures n in g.ring <==> n in g.nodes && g.nodes[n].joined {
      if n in g.nodes { assert MemberOk(g, n, g.nodes[n]); }
    }
  }

  /** Where `k` steps along the `next` pointers lead from `n`. */
  function Follow(g: State, n: Name, k: nat): Name
    decreases k
  {
    if k == 0 || n !in g.nodes then n else Follow(g, g.nodes[n].next.name, k - 1)
  }

  /** The element `m` places round `c`, for up to two rounds. */
  function Around(c: seq<Name>, m: nat): Name
    requires m < 2 * |c|
  {
    if m < |c| then c[m] else c[m - |c|]
  }

  lemma {:induction false} FollowIndex(g: State, c: seq<Name>, i: nat, k: nat)
    requires IsRing(g, c) && i < |c| && k <= |c|
    ensures Follow(g, c[i], k) == Around(c, i + k)
    decreases k
  {
    if k > 0 {
      assert c[i] in c;
      assert g.nodes[c[i]].next == RouteTo(g, NextIn(c, i));
      FollowIndex(g, c, if i + 1 < |c| then i + 1 else 0, k - 1);
    }
  }

  lemma ReachesIndex(g: State, c: seq<Name>, i: nat, j: nat)
    requires IsRing(g, c) && i < |c| && j < |c|
    ensures exists k: nat :: k < |c| && Follow(g, c[i], k) == c[j]
  {
    var k: nat := if i <= j then j - i else j - i + |c|;
    FollowIndex(g, c, i, k);
    assert Follow(g, c[i], k) == c[j];
  }

  lemma ReturnsFirstAt(g: State, c: seq<Name>, i: nat)
    requires IsRing(g, c) && i < |c|
    ensures Follow(g, c[i], |c|) == c[i]
    ensures forall k: nat | 0 < k < |c| :: Follow(g, c[i], k) != c[i]
  {
    FollowIndex(g, c, i, |c|);
    forall k: nat | 0 < k < |c| ensures Follow(g, c[i], k) != c[i] { FollowIndex(g, c, i, k); }
  }

  /** In a ring every member reaches every member along `next`, coming back to itself
      for the first time after as many hops as there are members. */
  lemma RingReachesAll(g: State, c: seq<Name>, a: Name, b: Name)
    requires IsRing(g, c) && a in g.nodes && g.nodes[a].joined && b in g.nodes && g.nodes[b].joined
    ensures exists k: nat :: k < |c| && Follow(g, a, k) == b
    ensures Follow(g, a, |c|) == a
    ensures forall k: nat | 0 < k < |c| :: Follow(g, a, k) != a
  {
    assert a in c && b in c;
    var i :| 0 <= i < |c| && c[i] == a;
    var j :| 0 <= j < |c| && c[j] == b;
    ReachesIndex(g, c, i, j);
    ReturnsFirstAt(g, c, i);
  }

  /** Who deviates while coordinator `c` splices `j` in before itself and after `p`. */
  ghost predicate SpliceUnderWay(g: State, ring: seq<Name>, c: Name, p: Name, j: Name) {
    && ring != [] && Distinct(ring) && c == ring[0] && p == Last(ring) && j !in ring
    && (forall n | n in ring :: n in g.nodes && g.nodes[n].joined)
    && (forall n | n in g.nodes && g.nodes[n].joined :: n in ring || n == j)
    && j in g.nodes && (g.nodes[j].joined ==> g.nodes[j].prev == RouteTo(g, p) && g.nodes[j].next == RouteTo(g, c))
    && (forall i: nat {:trigger PrevIn(ring, i)} | i < |ring| :: g.nodes[ring[i]].prev == RouteTo(g, PrevIn(ring, i)))
    && (forall i: nat {:trigger NextIn(ring, i)} | i < |ring| && ring[i] != p ::
          g.nodes[ring[i]].next == RouteTo(g, NextIn(ring, i)))
    && (g.nodes[p].next == RouteTo(g, c) || g.nodes[p].next == RouteTo(g, j))
    && (g.nodes[c].inflight.gotPrev ==> p == c || g.nodes[p].next == RouteTo(g, j))
    && (g.nodes[c].inflight.gotJoiner ==> g.nodes[j].joined)
  }

  /** With a join in flight only the predecessor's `next` and the joiner deviate from the old
      ring, and the confirmations the coordinator has are true. */
  lemma SpliceSafety(states: seq<State>, labels: seq<Label>, k: nat, c: Name)
    requires IsRun(states, labels) && JoinsStartFresh(states, labels) && k < |states|
    requires c in states[k].nodes && states[k].nodes[c].inflight.active
    ensures exists ring ::
              SpliceUnderWay(states[k], ring, c, states[k].nodes[c].inflight.expectedPrev,
                states[k].nodes[c].inflight.joiner.name)
    ensures states[k].nodes[c].prev.name == states[k].nodes[c].inflight.expectedPrev
  {
    RunInv(states, labels, k);
    HeadIs(states[k], c);
    SpliceShape(states[k]);
  }

  lemma SpliceMembers(g: State)
    requires RingOk(g) && Joining(g)
    ensures forall n | n in g.ring :: n in g.nodes && g.nodes[n].joined
    ensures forall n | n in g.nodes && g.nodes[n].joined :: n in g.ring || n == Joiner(g)
  {
    forall n | n in g.nodes ensures MemberOk(g, n, g.nodes[n]) {}
  }

  lemma SpliceJoiner(g: State)
    requires RingOk(g) && Joining(g)
    ensures var c, p, j := g.ring[0], Last(g.ring), Joiner(g);
      && j !in g.ring && j in g.nodes && p == g.nodes[c].inflight.expectedPrev && g.nodes[c].prev.name == p
      && (g.nodes[j].joined ==> g.nodes[j].prev == RouteTo(g, p) && g.nodes[j].next == RouteTo(g, c))
      && (g.nodes[c].inflight.gotJoiner ==> g.nodes[j].joined)
  {
    assert MemberOk(g, Joiner(g), g.nodes[Joiner(g)]);
    assert PrevIn(g.ring, 0) == Last(g.ring);
  }

  lemma SplicePrev(g: State)
    requires RingOk(g) && Joining(g)
    ensures var c, p, j := g.ring[0], Last(g.ring), Joiner(g);
      && p in g.nodes && (g.nodes[p].next == RouteTo(g, c) || g.nodes[p].next == RouteTo(g, j))
      && (g.nodes[c].inflight.gotPrev ==> p == c || g.nodes[p].next == RouteTo(g, j))
  {
    assert NextIn(g.ring, |g.ring| - 1) == g.ring[0];
  }

  lemma SplicePointers(g: State)
    requires RingOk(g) && Joining(g)
    ensures forall i: nat {:trigger PrevIn(g.ring, i)} | i < |g.ring| ::
      g.nodes[g.ring[i]].prev == RouteTo(g, PrevIn(g.ring, i))
    ensures forall i: nat {:trigger NextIn(g.ring, i)} | i < |g.ring| && g.ring[i] != Last(g.ring) ::
              g.nodes[g.ring[i]].next == RouteTo(g, NextIn(g.ring, i))
  {
  }

  lemma SpliceShape(g: State)
    requires RingOk(g) && Joining(g)
    ensures SpliceUnderWay(g, g.ring, g.ring[0], g.nodes[g.ring[0]].inflight.expectedPrev, Joiner(g))
    ensures g.nodes[g.ring[0]].prev.name == g.nodes[g.ring[0]].inflight.expectedPrev
  {
    SpliceMembers(g);
    SpliceJoiner(g);
    SplicePrev(g);
    SplicePointers(g);
  }

  // ---------------------------------------------------------------- one token

  ghost predicate Holds(g: State, n: Name) {
    n in g.nodes && g.nodes[n].haveToken && !g.nodes[n].sending
  }

  ghost predicate TravelsTo(g: State, n: Name) {
    n in g.nodes && g.transit.Some? && g.transit.value.Unicast? && g.transit.value.dst == RouteTo(g, n)
  }

  /** In every state there is exactly one token, held by or travelling to a joined node; only
      its holder has a join in flight, so there is at most one in the whole ring. */
  lemma TokenSafety(states: seq<State>, labels: seq<Label>, k: nat)
    requires IsRun(states, labels) && JoinsStartFresh(states, labels) && k < |states|
    ensures var g := states[k];
      && (g.transit.None? ==> exists n :: Holds(g, n))
      && (g.transit.Some? ==> forall n :: !Holds(g, n))
      && (g.transit.Some? ==> exists n :: TravelsTo(g, n) && g.nodes[n].joined)
      && (forall a, b | Holds(g, a) && Holds(g, b) :: a == b)
      && (forall n | Holds(g, n) :: g.nodes[n].joined)
      && (forall n | n in g.nodes && g.nodes[n].inflight.active :: Holds(g, n))
      && (forall a, b | a in g.nodes && g.nodes[a].inflight.active && b in g.nodes && g.nodes[b].inflight.active ::
            a == b)
  {
    RunInv(states, labels, k);
    TokenShape(states[k]);
    assert states[k].transit.Some? ==> TravelsTo(states[k], states[k].ring[0]);
  }

  lemma TokenShape(g: State)
    requires RingOk(g)
    ensures g.transit.None? ==> Holds(g, g.ring[0])
    ensures forall n | Holds(g, n) :: n == g.ring[0] && g.transit.None? && g.nodes[n].joined
    ensures forall n | n in g.nodes && g.nodes[n].inflight.active :: n == g.ring[0] && Holds(g, n)
    ensures g.ring[0] in g.nodes && g.nodes[g.ring[0]].joined
    ensures g.transit.Some? ==> g.transit.value.Unicast? && g.transit.value.dst == RouteTo(g, g.ring[0])
  {
    assert g.ring[0] in g.ring;
    forall n | n in g.nodes ensures MemberOk(g, n, g.nodes[n]) && TokenOk(g, n, g.nodes[n]) {}
  }

  // ----------------------------------------------------------------- versions

  function TokenVersion(g: State): nat
    requires RingOk(g)
  {
    if g.transit.Some? && g.transit.value.msg.TokenMsg? then g.transit.value.msg.token.version
    else g.nodes[g.ring[0]].tokenIn.version
  }

  /** The token's version is the number of completed joins; every node's is at most that
      and the holder's equals it. */
  lemma VersionCounting(states: seq<State>, labels: seq<Label>, k: nat)
    requires IsRun(states, labels) && JoinsStartFresh(states, labels) && k < |states|
    ensures RingOk(states[k])
    ensures var g := states[k];
      && TokenVersion(g) == |g.history|
      && (forall n | n in g.nodes :: g.nodes[n].lastSeen <= TokenVersion(g))
      && (forall n | Holds(g, n) :: g.nodes[n].lastSeen == TokenVersion(g))
  {
    RunInv(states, labels, k);
    TokenShape(states[k]);
  }

  /** No two completed joins are announced with the same version, and no join with two. */
  lemma VersionsAreUnique(states: seq<State>, labels: seq<Label>, k: nat, p: Packet, q: Packet)
    requires IsRun(states, labels) && JoinsStartFresh(states, labels) && k < |states|
    requires p in states[k].net && p.msg.JoinCommit? && q in states[k].net && q.msg.JoinCommit?
    ensures p.msg.version == q.msg.version <==> p.msg.newName == q.msg.newName
  {
    RunInv(states, labels, k);
    CommitsAreUnique(states[k], p.msg, q.msg);
  }

  lemma CommitNamesJoin(v: View, m: Msg)
    requires m.JoinCommit? && MsgOk(v, m)
    ensures 1 <= m.version <= |v.history| && v.history[m.version - 1].joiner == m.newName
  {
  }

  lemma CommitsAreUnique(g: State, a: Msg, b: Msg)
    requires Domain(g) && HistoryOk(g)
    requires a.JoinCommit? && b.JoinCommit? && MsgOk(ViewOf(g), a) && MsgOk(ViewOf(g), b)
    ensures a.version == b.version <==> a.newName == b.newName
  {
    var v := ViewOf(g);
    assert v.history == g.history;
    CommitNamesJoin(v, a);
    CommitNamesJoin(v, b);
  }

  lemma CompleteGrows(nd: Node)
    requires NextVersion(nd.lastSeen) >= nd.lastSeen
    ensures TryComplete(nd).0.lastSeen >= nd.lastSeen
  {
  }

  lemma DispatchGrows(nd: Node, m: Msg, sent: bool, ip: nat, now: int)
    requires NextVersion(nd.lastSeen) >= nd.lastSeen
    ensures Dispatch(nd, m, sent, ip, now).0.lastSeen >= nd.lastSeen
  {
    match m
    case JoinAck(_, _) =>
      AckShape(nd, m);
      CompleteGrows(Confirm(nd, m.from));
    case JoinCommit(_, _, _) => CommitGrows(nd, m);
    case _ =>
  }

  lemma CommitGrows(nd: Node, m: Msg)
    requires m.JoinCommit?
    ensures HandleCommit(nd, m).lastSeen >= nd.lastSeen
  {
  }

  lemma TickGrows(nd: Node, now: int)
    requires NextVersion(nd.lastSeen) >= nd.lastSeen
    ensures InflightTick(nd, now).0.lastSeen >= nd.lastSeen
  {
    CompleteGrows(nd);
  }

  lemma HandleTokenGrows(nd: Node, now: int)
    requires NextVersion(nd.lastSeen) >= nd.lastSeen
    ensures HandleToken(nd, now).0.lastSeen >= nd.lastSeen
  {
    var (joins, e) := Pop(nd.joins);
    if e.Some? { TickGrows(StartInflight(nd.(joins := joins), e.value), now); }
  }

  lemma LastSeenGrows(g: State, l: Label)
    requires l.n in g.nodes && NextVersion(g.nodes[l.n].lastSeen) >= g.nodes[l.n].lastSeen
    ensures LocalStep(g, l).0.lastSeen >= g.nodes[l.n].lastSeen
  {
    var nd := g.nodes[l.n];
    match l
    case Deliver(_, p, sent, ip, now) => DispatchGrows(nd, p.msg, sent, ip, now);
    case MaybeComplete(_) => CompleteGrows(nd);
    case InflightTimer(_, now) => TickGrows(nd, now);
    case UseToken(_, now) => HandleTokenGrows(nd, now);
    case TokenArrives(_) => if g.transit.Some? { DispatchGrows(nd, g.transit.value.msg, false, 0, 0); }
    case _ =>
  }

  /** A node's version never goes back. */
  lemma VersionsNeverGoBack(g: State, l: Label, n: Name)
    requires Inv(g) && Enabled(g, l) && n in g.nodes
    ensures n in Apply(g, l).nodes && Apply(g, l).nodes[n].lastSeen >= g.nodes[n].lastSeen
  {
    NoWrapAnywhere(g, l.n);
    LastSeenGrows(g, l);
    ApplyNodes(g, l);
  }

  lemma NoWrapAnywhere(g: State, n: Name)
    requires RingOk(g) && n in g.nodes
    ensures NextVersion(g.nodes[n].lastSeen) >= g.nodes[n].lastSeen
  {
    NoWrap(g);
  }

  lemma ApplyNodes(g: State, l: Label)
    requires l.n in g.nodes
    ensures Apply(g, l).nodes == g.nodes[l.n := LocalStep(g, l).0]
  {
  }
}
