/** Old and repeated packets change no route, in every run. */
module Replay {
  import opened Base
  import opened JoinTable
  import opened NodeModel
  import opened NodeLaws
  import opened RingProtocol
  import opened RingInvariant
  import opened RingRun
  import opened RingHandlers
  import opened RingTheorems

  // ------------------------------------------------------ nodes within a run

  function EventOf(g: State, l: Label): Event {
    match l
    case RequestTimer(_, now) => OnRequestTimer(now)
    case Deliver(_, p, sent, ip, now) => OnMessage(p.msg, sent, ip, now)
    case MaybeComplete(_) => OnMaybeComplete
    case InflightTimer(_, now) => OnInflightTimer(now)
    case AckTimer(_, now) => OnAckTimer(now)
    case PruneTimer(_, now) => OnPruneTimer(now)
    case UseToken(_, now) => OnUseToken(now)
    case SendReturns(_) => OnSendReturns
    case TokenArrives(_) => if g.transit.Some? then OnMessage(g.transit.value.msg, false, 0, 0) else OnMaybeComplete
    case CliInput(_, t) => OnCliInput(t)
  }

  lemma MessageReacts(nd: Node, m: Msg, sent: bool, ip: nat, now: int)
    ensures Dispatch(nd, m, sent, ip, now).0 == ReactToMessage(nd, m, sent, ip, now)
  {
  }

  lemma LocalReacts(g: State, l: Label)
    requires Enabled(g, l)
    ensures LocalStep(g, l).0 == React(g.nodes[l.n], EventOf(g, l))
    ensures EventOf(g, l).OnSendReturns? <==> g.nodes[l.n].sending
  {
    match l
    case Deliver(_, p, sent, ip, now) => MessageReacts(g.nodes[l.n], p.msg, sent, ip, now);
    case TokenArrives(_) => MessageReacts(g.nodes[l.n], g.transit.value.msg, false, 0, 0);
    case _ =>
  }

  ghost predicate AllLocal(g: State) { forall n | n in g.nodes :: LocalInv(g.nodes[n]) }

  lemma StepLocal(g: State, l: Label)
    requires AllLocal(g) && Enabled(g, l)
    ensures AllLocal(Apply(g, l)) && Steady(g.nodes[l.n], LocalStep(g, l).0)
  {
    LocalReacts(g, l);
    ReactLaw(g.nodes[l.n], EventOf(g, l));
    ApplyNodes(g, l);
  }

  /** The local invariant holds of every node in every run, whatever joins are started. */
  lemma {:induction false} RunLocal(states: seq<State>, labels: seq<Label>, k: nat)
    requires IsRun(states, labels) && k < |states|
    ensures AllLocal(states[k])
    decreases k
  {
    if k == 0 {
      forall n | n in states[0].nodes ensures LocalInv(states[0].nodes[n]) {
        assert InitNode(states[0], n, states[0].nodes[n]);
      }
    } else {
      RunLocal(states, labels, k - 1);
      assert StepAt(states, labels, k - 1);
      StepLocal(states[k - 1], labels[k - 1]);
    }
  }

  // --------------------------------------------------------- shape of a step

  /** With a join under way, a step either completes it or leaves ring and joiner as they are. */
  lemma JoiningGoesOn(g: State, l: Label)
    requires RingOk(g) && AllLocal(g) && Enabled(g, l) && Joining(g)
    ensures var h := Apply(g, l);
      || Splice(Joiner(g), Last(g.ring), g.ring[0]) in h.history
      || (h.ring == g.ring && Joining(h) && Joiner(h) == Joiner(g))
  {
    StepLocal(g, l);
    NoForward(g, l);
    var (nd, out) := LocalStep(g, l);
    if l.n != g.ring[0] && g.nodes[l.n].inflight.active {
      HeadIs(g, l.n);
      assert false;
    }
    PutGoesOn(g, l.n, nd, out);
    var h, p := Apply(g, l), Put(g, l.n, nd, out);
    assert h == p || h == p.(transit := None);
  }

  lemma PutGoesOn(g: State, n: Name, nd: Node, out: seq<Packet>)
    requires RingOk(g) && Joining(g) && n in g.nodes
    requires if n == g.ring[0] then nd.inflight.active ==> nd.inflight.joiner == g.nodes[n].inflight.joiner
             else !g.nodes[n].inflight.active
    ensures var h := Put(g, n, nd, out);
      || Splice(Joiner(g), Last(g.ring), g.ring[0]) in h.history
      || (h.ring == g.ring && Joining(h) && Joiner(h) == Joiner(g))
  {
    assert PrevIn(g.ring, 0) == Last(g.ring);
    if n == g.ring[0] && !nd.inflight.active {
      assert Put(g, n, nd, out).history[|g.history|] == Splice(Joiner(g), Last(g.ring), n);
    }
  }

  lemma NoForward(g: State, l: Label)
    requires RingOk(g) && AllLocal(g) && Enabled(g, l) && Joining(g)
    ensures !Forwards(g, l)
  {
    if l.UseToken? && TokenReady(g.nodes[l.n]) && !g.nodes[l.n].sending {
      HolderIs(g, l.n);
      assert false;
    } else if l.UseToken? && !g.nodes[l.n].sending {
      assert LocalStep(g, l).0 == g.nodes[l.n];
    }
  }

  lemma HistoryGrows(g: State, l: Label, s: Splice)
    requires l.n in g.nodes && s in g.history
    ensures s in Apply(g, l).history
  {
  }

  /** Only `UseToken` starts a join, and it takes the request id from the popped entry. */
  lemma OnlyUseTokenStarts(nd: Node, e: Event)
    requires LocalInv(nd) && (e.OnSendReturns? <==> nd.sending)
    requires !nd.inflight.active && React(nd, e).inflight.active
    ensures e.OnUseToken? && TokenReady(nd) && Used(nd.joins.joins) > 0 && Pop(nd.joins).1.Some?
    ensures React(nd, e).inflight.requestId == Pop(nd.joins).1.value.requestId
  {
    match e
    case OnMessage(m, sent, ip, now) => MessageStartsNone(nd, m, sent, ip, now);
    case _ =>
  }

  lemma MessageStartsNone(nd: Node, m: Msg, sent: bool, ip: nat, now: int)
    requires !nd.inflight.active
    ensures !ReactToMessage(nd, m, sent, ip, now).inflight.active
  {
    match m
    case JoinAccept(_, _, _, _) => AcceptShape(nd, m, sent, now);
    case JoinCommit(_, _, _) => CommitShape(nd, m);
    case _ =>
  }

  // --------------------------------------------------------------- accepts

  /** Accept `m` has had its effect on node `n`, or never can have. */
  ghost predicate AcceptSettled(g: State, n: Name, m: Msg)
    requires m.JoinAccept? && n in g.nodes
  {
    if n == m.newNode.name then g.nodes[n].joined
    else
      || n != m.prev.name
      || SpliceOf(m) in g.history
      || (Joining(g) && Joiner(g) == m.newNode.name && g.ring[0] == m.before.name && Last(g.ring) == n
          && g.nodes[n].next.name == Joiner(g))
  }

  lemma SettledDoesNotApply(g: State, n: Name, m: Msg)
    requires RingOk(g) && n in g.nodes && m.JoinAccept? && AcceptSettled(g, n, m)
    ensures !ApplyAccept(g.nodes[n], m).1
  {
    CurrentIs(g, n);
    OldAcceptIgnored(g, n, m);
  }

  /** Once the predecessor points to the joiner, only completion can move its `next`. */
  lemma PrevNextStays(g: State, l: Label)
    requires Inv(g) && AllLocal(g) && Enabled(g, l) && Joining(g)
    requires g.nodes[Last(g.ring)].next.name == Joiner(g)
    requires l.n == Last(g.ring) && (l.n == g.ring[0] ==> LocalStep(g, l).0.inflight.active)
    ensures LocalStep(g, l).0.next == g.nodes[l.n].next
  {
    var nd, e := g.nodes[l.n], EventOf(g, l);
    LocalReacts(g, l);
    if nd.inflight.active { HeadIs(g, l.n); }
    if e.OnMessage? && e.m.JoinAccept? && l.Deliver? {
      AcceptDoesNotApply(g, l.n, e.m);
    }
    if l.TokenArrives? { ArrivesAtHead(g, l.n); }
    RoutesStay(nd, e);
  }

  lemma AcceptDoesNotApply(g: State, n: Name, m: Msg)
    requires Domain(g) && Membership(g) && HistoryOk(g) && JoinPhase(g) && Joining(g)
    requires n == Last(g.ring) && g.nodes[n].next.name == Joiner(g) && g.nodes[n].current == RouteTo(g, n)
    requires m.JoinAccept? && AcceptOk(ViewOf(g), m)
    ensures !ApplyAccept(g.nodes[n], m).1
  {
    OldAcceptIgnored(g, n, m);
    assert g.ring[|g.ring| - 1] == n && g.ring[0] in g.ring;
    assert MemberOk(g, n, g.nodes[n]);
  }

  /** The part of `AcceptSettled` that lasts only while the join is under way. */
  lemma PointingGoesOn(g: State, l: Label, n: Name, m: Msg)
    requires Inv(g) && AllLocal(g) && Enabled(g, l) && n in g.nodes && m.JoinAccept?
    requires Joining(g) && Joiner(g) == m.newNode.name && g.ring[0] == m.before.name && Last(g.ring) == n
    requires g.nodes[n].next.name == Joiner(g) && n != m.newNode.name && n == m.prev.name
    ensures n in Apply(g, l).nodes && AcceptSettled(Apply(g, l), n, m)
  {
    var h := Apply(g, l);
    ApplyNodes(g, l);
    JoiningGoesOn(g, l);
    if SpliceOf(m) !in h.history {
      if l.n == n { PrevNextStays(g, l); }
      Pointing(g, h, n, m);
    }
  }

  lemma Pointing(g: State, h: State, n: Name, m: Msg)
    requires m.JoinAccept? && n in h.nodes && n != m.newNode.name && n == m.prev.name
    requires Joining(g) && Joiner(g) == m.newNode.name && g.ring[0] == m.before.name && Last(g.ring) == n
    requires h.ring == g.ring && Joining(h) && Joiner(h) == Joiner(g) && h.nodes[n].next.name == Joiner(g)
    ensures AcceptSettled(h, n, m)
  {
  }

  lemma AcceptStaysSettled(g: State, l: Label, n: Name, m: Msg)
    requires Inv(g) && AllLocal(g) && Enabled(g, l) && n in g.nodes && m.JoinAccept? && AcceptSettled(g, n, m)
    ensures n in Apply(g, l).nodes && AcceptSettled(Apply(g, l), n, m)
  {
    ApplyNodes(g, l);
    if n == m.newNode.name {
      StepLocal(g, l);
    } else if n == m.prev.name {
      if SpliceOf(m) in g.history {
        HistoryGrows(g, l, SpliceOf(m));
      } else {
        PointingGoesOn(g, l, n, m);
      }
    }
  }

  lemma AppliedRoutes(nd: Node, m: Msg, sent: bool, now: int)
    requires m.JoinAccept? && ApplyAccept(nd, m).1
    ensures var nd' := HandleAccept(nd, m, sent, now).0;
      && nd'.joined && nd'.inflight == nd.inflight
      && (nd.current.name != m.newNode.name ==> nd'.next == m.newNode)
  {
  }

  /** An accept that does not apply has nothing left to do. */
  lemma NotAppliedIsSettled(g: State, n: Name, m: Msg)
    requires RingOk(g) && n in g.nodes && m.JoinAccept? && AcceptOk(ViewOf(g), m) && !ApplyAccept(g.nodes[n], m).1
    ensures AcceptSettled(g, n, m)
  {
    CurrentIs(g, n);
    if n != m.newNode.name && n == m.prev.name && SpliceOf(m) !in g.history {
      assert NextIn(g.ring, |g.ring| - 1) == g.ring[0];
    }
  }

  lemma AppliedIsSettled(g: State, l: Label)
    requires Inv(g) && AllLocal(g) && Enabled(g, l) && l.Deliver? && l.p.msg.JoinAccept?
    requires l.n in Apply(g, l).nodes
    ensures AcceptSettled(Apply(g, l), l.n, l.p.msg)
  {
    var n, m, h := l.n, l.p.msg, Apply(g, l);
    ApplyNodes(g, l);
    if ApplyAccept(g.nodes[n], m).1 {
      CurrentIs(g, n);
      AcceptIsCurrent(g, n, m);
      AppliedRoutes(g.nodes[n], m, l.sent, l.now);
      JoiningGoesOn(g, l);
    } else {
      NotAppliedIsSettled(g, n, m);
      AcceptStaysSettled(g, l, n, m);
    }
  }

  // --------------------------------------------------------- acknowledgements

  lemma AckStaysKnown(g: State, l: Label, n: Name, m: Msg)
    requires Inv(g) && AllLocal(g) && Enabled(g, l) && StartsFresh(g, l) && n in g.nodes
    requires m.JoinAck? && AckOk(ViewOf(g), m.requestId, m.from) && AckKnown(g.nodes[n], m)
    ensures n in Apply(g, l).nodes && AckKnown(Apply(g, l).nodes[n], m)
  {
    StepLocal(g, l);
    ApplyNodes(g, l);
    if l.n == n && !g.nodes[n].inflight.active && LocalStep(g, l).0.inflight.active { NewJoinUnacknowledged(g, l, m); }
  }

  lemma NewJoinUnacknowledged(g: State, l: Label, m: Msg)
    requires Inv(g) && AllLocal(g) && Enabled(g, l) && StartsFresh(g, l)
    requires m.JoinAck? && AckOk(ViewOf(g), m.requestId, m.from)
    requires !g.nodes[l.n].inflight.active && LocalStep(g, l).0.inflight.active
    ensures m.requestId != LocalStep(g, l).0.inflight.requestId
  {
    LocalReacts(g, l);
    OnlyUseTokenStarts(g.nodes[l.n], EventOf(g, l));
    NewIdUnacknowledged(g, l, m);
  }

  /** Nobody has acknowledged the request of a join that is only starting. */
  lemma NewIdUnacknowledged(g: State, l: Label, m: Msg)
    requires Inv(g) && l.UseToken? && l.n in g.nodes && StartsFresh(g, l) && TokenReady(g.nodes[l.n])
    requires !g.nodes[l.n].sending
    requires Used(g.nodes[l.n].joins.joins) > 0 && Pop(g.nodes[l.n].joins).1.Some?
    requires m.JoinAck? && AckOk(ViewOf(g), m.requestId, m.from)
    ensures m.requestId != Pop(g.nodes[l.n].joins).1.value.requestId
  {
    HolderIs(g, l.n);
    PoppedTableOk(g.ids, g.ports, l.n, g.nodes[l.n].joins);
    PoppedIsNew(g, l);
  }

  // -------------------------------------------------------------- replays

  ghost predicate SameRoutes(g: State, h: State) {
    forall n | n in g.nodes :: n in h.nodes && h.nodes[n].prev == g.nodes[n].prev && h.nodes[n].next == g.nodes[n].next
  }

  /** Packet `m` can no longer move a route of node `n`. */
  ghost predicate Spent(g: State, n: Name, m: Msg)
    requires n in g.nodes
  {
    match m
    case JoinAccept(_, _, _, _) => AcceptSettled(g, n, m)
    case JoinAck(_, _) => AckKnown(g.nodes[n], m)
    case _ => true
  }

  lemma DeliveredIsSpent(g: State, l: Label)
    requires Inv(g) && AllLocal(g) && Enabled(g, l) && l.Deliver?
    ensures l.n in Apply(g, l).nodes && Spent(Apply(g, l), l.n, l.p.msg)
  {
    ApplyNodes(g, l);
    match l.p.msg
    case JoinAccept(_, _, _, _) => AppliedIsSettled(g, l);
    case JoinAck(_, _) => RepeatedAck(g.nodes[l.n], l.p.msg);
    case _ =>
  }

  lemma SpentStaysSpent(g: State, l: Label, n: Name, m: Msg)
    requires Inv(g) && AllLocal(g) && Enabled(g, l) && StartsFresh(g, l) && n in g.nodes
    requires MsgOk(ViewOf(g), m) && Spent(g, n, m)
    ensures n in Apply(g, l).nodes && Spent(Apply(g, l), n, m)
  {
    ApplyNodes(g, l);
    match m
    case JoinAccept(_, _, _, _) => AcceptStaysSettled(g, l, n, m);
    case JoinAck(_, _) => AckStaysKnown(g, l, n, m);
    case _ =>
  }

  lemma SpentKeepsRoutes(g: State, n: Name, m: Msg, sent: bool, ip: nat, now: int)
    requires RingOk(g) && n in g.nodes && LocalInv(g.nodes[n]) && !m.TokenMsg? && Spent(g, n, m)
    requires MsgOk(ViewOf(g), m)
    ensures var nd := ReactToMessage(g.nodes[n], m, sent, ip, now);
      nd.prev == g.nodes[n].prev && nd.next == g.nodes[n].next
  {
    match m
    case JoinAccept(_, _, _, _) => SpentAcceptMovesNothing(g, n, m, sent, now);
    case JoinAck(_, _) => SpentAckMovesNothing(g, n, m);
    case JoinCommit(_, _, _) => CommitMovesNothing(g, n, m);
    case JoinAckAck(_, _) =>
    case JoinRequest(r) => RequestMovesNothing(g.nodes[n], r, ip, now);
  }

  lemma RequestMovesNothing(nd: Node, r: Request, ip: nat, now: int)
    ensures HandleRequest(nd, r, ip, now) == nd.(joins := HandleRequest(nd, r, ip, now).joins)
  {
  }

  lemma SpentAcceptMovesNothing(g: State, n: Name, m: Msg, sent: bool, now: int)
    requires RingOk(g) && n in g.nodes && m.JoinAccept? && Spent(g, n, m)
    ensures var nd := HandleAccept(g.nodes[n], m, sent, now).0; nd.prev == g.nodes[n].prev && nd.next == g.nodes[n].next
  {
    SettledDoesNotApply(g, n, m);
    AcceptRoutes(g.nodes[n], m, sent, now);
  }

  lemma SpentAckMovesNothing(g: State, n: Name, m: Msg)
    requires n in g.nodes && LocalInv(g.nodes[n]) && m.JoinAck? && Spent(g, n, m)
    ensures HandleAck(g.nodes[n], m).0 == g.nodes[n]
  {
    RepeatedAck(g.nodes[n], m);
  }

  lemma CommitMovesNothing(g: State, n: Name, m: Msg)
    requires RingOk(g) && n in g.nodes && m.JoinCommit? && MsgOk(ViewOf(g), m)
    ensures HandleCommit(g.nodes[n], m).prev == g.nodes[n].prev && HandleCommit(g.nodes[n], m).next == g.nodes[n].next
  {
    CommitNotMine(g, n, m);
    CommitShape(g.nodes[n], m);
  }

  lemma SpentMovesNothing(g: State, l: Label)
    requires Inv(g) && AllLocal(g) && Enabled(g, l) && l.Deliver? && Spent(g, l.n, l.p.msg)
    ensures SameRoutes(g, Apply(g, l))
  {
    ApplyNodes(g, l);
    MessageReacts(g.nodes[l.n], l.p.msg, l.sent, l.ip, l.now);
    SpentKeepsRoutes(g, l.n, l.p.msg, l.sent, l.ip, l.now);
  }

  /** In every run, a packet delivered to a node a second time changes no route anywhere. */
  lemma ReplaySafety(states: seq<State>, labels: seq<Label>, i: nat, j: nat)
    requires IsRun(states, labels) && JoinsStartFresh(states, labels) && i < j < |labels|
    requires labels[i].Deliver? && labels[j].Deliver? && labels[i].n == labels[j].n && labels[i].p == labels[j].p
    ensures SameRoutes(states[j], states[j + 1])
  {
    SpentFrom(states, labels, i, j);
    RunInv(states, labels, j);
    RunLocal(states, labels, j);
    assert StepAt(states, labels, j);
    SpentMovesNothing(states[j], labels[j]);
  }

  lemma NetGrows(g: State, l: Label, p: Packet)
    requires l.n in g.nodes && p in g.net
    ensures p in Apply(g, l).net
  {
  }

  lemma {:induction false} SentStaysSent(states: seq<State>, labels: seq<Label>, i: nat, j: nat)
    requires IsRun(states, labels) && i < j < |states| && labels[i].Deliver?
    ensures labels[i].p in states[j].net
    decreases j
  {
    if i + 1 < j { SentStaysSent(states, labels, i, j - 1); }
    assert StepAt(states, labels, j - 1);
    if i + 1 == j { assert labels[i].p in states[i].net; }
    NetGrows(states[j - 1], labels[j - 1], labels[i].p);
  }

  lemma SpentAfterDelivery(states: seq<State>, labels: seq<Label>, i: nat)
    requires IsRun(states, labels) && JoinsStartFresh(states, labels) && i < |labels| && labels[i].Deliver?
    ensures labels[i].n in states[i + 1].nodes && Spent(states[i + 1], labels[i].n, labels[i].p.msg)
  {
    RunInv(states, labels, i);
    RunLocal(states, labels, i);
    assert StepAt(states, labels, i);
    DeliveredIsSpent(states[i], labels[i]);
  }

  lemma SpentNext(states: seq<State>, labels: seq<Label>, k: nat, n: Name, p: Packet)
    requires IsRun(states, labels) && JoinsStartFresh(states, labels) && k < |labels|
    requires n in states[k].nodes && p in states[k].net && Spent(states[k], n, p.msg)
    ensures n in states[k + 1].nodes && Spent(states[k + 1], n, p.msg)
  {
    RunInv(states, labels, k);
    RunLocal(states, labels, k);
    assert StepAt(states, labels, k);
    SpentStaysSpent(states[k], labels[k], n, p.msg);
  }

  lemma {:induction false} SpentFrom(states: seq<State>, labels: seq<Label>, i: nat, j: nat)
    requires IsRun(states, labels) && JoinsStartFresh(states, labels) && i < j < |labels|
    requires labels[i].Deliver?
    ensures labels[i].n in states[j].nodes && Spent(states[j], labels[i].n, labels[i].p.msg)
    decreases j
  {
    if i + 1 == j {
      SpentAfterDelivery(states, labels, i);
    } else {
      SpentFrom(states, labels, i, j - 1);
      SentStaysSent(states, labels, i, j - 1);
      SpentNext(states, labels, j - 1, labels[i].n, labels[i].p);
    }
  }

  /** The branch that completes a join on somebody else's commit is never taken. */
  lemma CommitNeverCompletes(states: seq<State>, labels: seq<Label>, k: nat)
    requires IsRun(states, labels) && JoinsStartFresh(states, labels) && k < |labels|
    requires labels[k].Deliver? && labels[k].p.msg.JoinCommit?
    ensures labels[k].n in states[k].nodes
    ensures var f := states[k].nodes[labels[k].n].inflight; !(f.active && f.requestId == labels[k].p.msg.requestId)
  {
    RunInv(states, labels, k);
    assert StepAt(states, labels, k);
    CommitNotMine(states[k], labels[k].n, labels[k].p.msg);
  }

  /** Once a splice has replaced a node's successor, the node never points at that successor again. */
  lemma OldSuccessorNeverReturns(states: seq<State>, labels: seq<Label>, k: nat, s: Splice)
    requires IsRun(states, labels) && JoinsStartFresh(states, labels) && k < |states| && s in states[k].history
    ensures s.prev in states[k].nodes && states[k].nodes[s.prev].joined && states[k].nodes[s.prev].next.name != s.before
  {
    RunInv(states, labels, k);
    assert SpliceOk(states[k], s);
    assert MemberOk(states[k], s.prev, states[k].nodes[s.prev]);
  }

  ghost predicate JoinDone(g: State, requestId: nat) {
    exists i :: 0 <= i < |g.history| && g.history[i].joiner in g.ids && g.ids[g.history[i].joiner] == requestId
  }

  /** The accepts, acknowledgements and commits of a completed join change no route,
      even when they arrive for the first time. */
  lemma OldPacketsMoveNothing(states: seq<State>, labels: seq<Label>, k: nat, l: Label)
    requires IsRun(states, labels) && JoinsStartFresh(states, labels) && k < |states|
    requires Enabled(states[k], l) && l.Deliver?
    requires l.p.msg.JoinAccept? || l.p.msg.JoinAck? || l.p.msg.JoinCommit?
    requires JoinDone(states[k], l.p.msg.requestId)
    ensures SameRoutes(states[k], Apply(states[k], l))
  {
    var g, n, m := states[k], l.n, l.p.msg;
    RunInv(states, labels, k);
    RunLocal(states, labels, k);
    if m.JoinAccept? { OldAcceptSettled(g, n, m); }
    if m.JoinAck? { OldAckKnown(g, n, m); }
    SpentMovesNothing(g, l);
  }

  lemma OldAcceptSettled(g: State, n: Name, m: Msg)
    requires RingOk(g) && n in g.nodes && m.JoinAccept? && AcceptOk(ViewOf(g), m) && JoinDone(g, m.requestId)
    ensures AcceptSettled(g, n, m)
  {
    var i :| 0 <= i < |g.history| && g.history[i].joiner in g.ids && g.ids[g.history[i].joiner] == m.requestId;
    assert SpliceOk(g, g.history[i]);
    assert MemberOk(g, m.newNode.name, g.nodes[m.newNode.name]);
    assert m.newNode.name == g.history[i].joiner;
  }

  lemma OldAckKnown(g: State, n: Name, m: Msg)
    requires RingOk(g) && n in g.nodes && m.JoinAck? && AckOk(ViewOf(g), m.requestId, m.from)
    requires JoinDone(g, m.requestId)
    ensures AckKnown(g.nodes[n], m)
  {
    if g.nodes[n].inflight.active {
      HeadIs(g, n);
      var i :| 0 <= i < |g.history| && g.history[i].joiner in g.ids && g.ids[g.history[i].joiner] == m.requestId;
      assert SpliceOk(g, g.history[i]);
      assert m.requestId != g.ids[Joiner(g)];
    }
  }
}
