/** Why the version number works: with timely requests, the holder of the token never has a
    member in its table, so it never starts a join for one. */
module PendingVersions {
  import opened Base
  import opened JoinTable
  import opened JoinTableLaws
  import opened NodeModel
  import opened RingProtocol
  import opened RingInvariant
  import opened RingRun
  import opened RingHandlers
  import opened RingTheorems

  /** If the join of `name` has completed, at version v, then v is later than `seen`. */
  ghost predicate NotSeenJoined(history: seq<Splice>, name: Name, seen: nat) {
    forall h | 0 <= h < |history| && history[h].joiner == name :: h + 1 > seen
  }

  /** Names are pending twice at most, the one in flight once at most, and only for joins the node has not
      seen completed. */
  ghost predicate PendingSound(history: seq<Splice>, nd: Node) {
    && AtMostTwo(nd.joins.joins)
    && (nd.inflight.active ==> !Twice(nd.joins.joins, nd.inflight.joiner.name))
    && forall i | 0 <= i < |nd.joins.joins| && nd.joins.joins[i].Some? ::
         NotSeenJoined(history, nd.joins.joins[i].value.name, nd.lastSeen)
  }

  ghost predicate AllPendingSound(g: State) {
    forall n | n in g.nodes :: PendingSound(g.history, g.nodes[n])
  }

  /** A join request that enters the table is not late, and meets no hole before two entries of its name. */
  ghost predicate Timely(g: State, l: Label) {
    l.n in g.nodes && l.Deliver? && l.p.msg.JoinRequest? && !IgnoresRequest(g.nodes[l.n], l.p.msg.request) ==>
      var nd, r := g.nodes[l.n], l.p.msg.request;
      && NotSeenJoined(g.history, r.name, nd.lastSeen)
      && !HoleBeforeTwo(nd.joins.joins, r.name)
  }

  // --------------------------------------------------------- one node's table

  /** Entries only leave, the version stays, and no join starts. */
  ghost predicate TableShrinks(nd: Node, nd': Node) {
    && OnlyCleared(nd'.joins.joins, nd.joins.joins) && nd'.lastSeen == nd.lastSeen
    && (nd'.inflight.active ==> nd.inflight.active && nd'.inflight.joiner == nd.inflight.joiner)
  }

  ghost predicate TableEmpty(nd: Node) {
    forall i | 0 <= i < |nd.joins.joins| :: nd.joins.joins[i].None?
  }

  lemma ShrinkingStaysSound(history: seq<Splice>, nd: Node, nd': Node)
    requires PendingSound(history, nd) && (TableShrinks(nd, nd') || TableEmpty(nd'))
    ensures PendingSound(history, nd')
  {
    var t := nd'.joins.joins;
    if TableShrinks(nd, nd') {
      forall name ensures !Thrice(t, name) && (Twice(t, name) ==> Twice(nd.joins.joins, name)) {
        ClearedHasFewer(t, nd.joins.joins, name);
      }
    }
  }

  lemma HistoryStaysSound(history: seq<Splice>, s: Splice, nd: Node)
    requires PendingSound(history, nd) && nd.lastSeen <= |history|
    ensures PendingSound(history + [s], nd)
  {
    var h' := history + [s];
    forall i | 0 <= i < |nd.joins.joins| && nd.joins.joins[i].Some?
      ensures NotSeenJoined(h', nd.joins.joins[i].value.name, nd.lastSeen)
    {
      assert NotSeenJoined(history, nd.joins.joins[i].value.name, nd.lastSeen);
    }
  }

  lemma TokenShrinks(nd: Node, t: Token)
    ensures TableShrinks(nd, ReceiveToken(nd, t)) || TableEmpty(ReceiveToken(nd, t))
  {
    DropAllEmpties(nd.joins);
  }

  lemma AcceptShrinks(nd: Node, m: Msg, sent: bool, now: int)
    requires m.JoinAccept?
    ensures TableShrinks(nd, HandleAccept(nd, m, sent, now).0)
  {
    OnlyClearedOps(nd.joins, m.newNode.name, m.requestId, 0, 0);
  }

  lemma CommitShrinks(nd: Node, m: Msg)
    requires m.JoinCommit? && !(nd.inflight.active && nd.inflight.requestId == m.requestId)
    ensures TableShrinks(nd, HandleCommit(nd, m)) || TableEmpty(HandleCommit(nd, m))
  {
    CommitShape(nd, m);
    OnlyClearedOps(nd.joins, m.newName, m.requestId, 0, 0);
    DropAllEmpties(MarkCompletedAndPrunePending(nd.joins, m.newName, m.requestId));
  }

  lemma RequestStaysSound(history: seq<Splice>, nd: Node, r: Request, ip: nat, now: int)
    requires WellFormed(nd.joins) && PendingSound(history, nd)
    requires !IgnoresRequest(nd, r) ==>
      NotSeenJoined(history, r.name, nd.lastSeen) && !HoleBeforeTwo(nd.joins.joins, r.name)
    ensures PendingSound(history, HandleRequest(nd, r, ip, now))
  {
    if !IgnoresRequest(nd, r) {
      AddKeepsAtMostTwo(nd.joins, r, ip, now);
      AddAccounting(nd.joins, r, ip, now);
      if nd.inflight.active && Add(nd.joins, r, ip, now).1 {
        WriteElsewhere(nd.joins.joins, FirstFit(nd.joins.joins, r.name, 0),
                       PendingJoin(r.requestId, r.name, r.port, ip, now), nd.inflight.joiner.name);
      }
    }
  }

  /** Completion: nothing pending has completed before, and the joiner is not pending. */
  lemma CompleteStaysSound(history: seq<Splice>, nd: Node, s: Splice)
    requires PendingSound(history, nd) && nd.lastSeen == |history| && NextVersion(|history|) == |history| + 1
    requires nd.inflight.active && nd.inflight.gotPrev && nd.inflight.gotJoiner && s.joiner == nd.inflight.joiner.name
    ensures PendingSound(history + [s], TryComplete(nd).0)
  {
    var nd', h' := TryComplete(nd).0, history + [s];
    OnlyClearedOps(nd.joins, nd.inflight.joiner.name, 0, 0, 0);
    RemoveTakesNameOut(nd.joins, nd.inflight.joiner.name);
    forall name ensures !Thrice(nd'.joins.joins, name) { ClearedHasFewer(nd'.joins.joins, nd.joins.joins, name); }
    forall i | 0 <= i < |nd'.joins.joins| && nd'.joins.joins[i].Some?
      ensures NotSeenJoined(h', nd'.joins.joins[i].value.name, nd'.lastSeen)
    {
      assert NotSeenJoined(history, nd.joins.joins[i].value.name, nd.lastSeen);
      assert JoinTable.Holds(nd'.joins.joins, i, nd'.joins.joins[i].value.name);
    }
  }

  lemma StartStaysSound(history: seq<Splice>, nd: Node, now: int)
    requires PendingSound(history, nd) && !nd.inflight.active && Pop(nd.joins).1.Some?
    ensures PendingSound(history,
      InflightTick(StartInflight(nd.(joins := Pop(nd.joins).0), Pop(nd.joins).1.value), now).0)
  {
    var (joins, e) := Pop(nd.joins);
    var nd1 := StartInflight(nd.(joins := joins), e.value);
    OnlyClearedOps(nd.joins, "", 0, 0, 0);
    PopTakesOne(nd.joins);
    forall name ensures !Thrice(joins.joins, name) { ClearedHasFewer(joins.joins, nd.joins.joins, name); }
    assert PendingSound(history, nd1);
    InflightTimerShape(nd1, now);
    ShrinkingStaysSound(history, nd1, InflightTick(nd1, now).0);
  }

  /** The table after an acknowledgement: completed, or untouched. */
  lemma AckStaysSound(history: seq<Splice>, nd: Node, m: Msg, s: Splice)
    requires m.JoinAck? && PendingSound(history, nd)
    requires nd.inflight.active ==> nd.lastSeen == |history| && NextVersion(|history|) == |history| + 1
    requires s.joiner == nd.inflight.joiner.name
    ensures var nd' := HandleAck(nd, m).0;
      PendingSound(if nd.inflight.active && !nd'.inflight.active then history + [s] else history, nd')
  {
    AckShape(nd, m);
    if nd.inflight.active && nd.inflight.requestId == m.requestId {
      var nd1 := Confirm(nd, m.from);
      assert PendingSound(history, nd1);
      if nd1.inflight.gotPrev && nd1.inflight.gotJoiner { CompleteStaysSound(history, nd1, s); }
    }
  }

  // ------------------------------------------------------------------- steps

  /** The history after a step of node `n` that makes it `nd`. */
  function NextHistory(g: State, n: Name, nd: Node): seq<Splice>
    requires n in g.nodes
  {
    Put(g, n, nd, []).history
  }

  lemma ActiveKnowsVersion(g: State, n: Name)
    requires RingOk(g) && n in g.nodes && g.nodes[n].inflight.active
    ensures g.nodes[n].lastSeen == |g.history| && NextVersion(|g.history|) == |g.history| + 1
  {
    HeadIs(g, n);
    NoWrap(g);
  }

  lemma CompletionSound(g: State, n: Name)
    requires RingOk(g) && n in g.nodes && PendingSound(g.history, g.nodes[n])
    ensures var nd := TryComplete(g.nodes[n]).0; PendingSound(NextHistory(g, n, nd), nd)
  {
    var nd := g.nodes[n];
    if nd.inflight.active && nd.inflight.gotPrev && nd.inflight.gotJoiner {
      ActiveKnowsVersion(g, n);
      CompleteStaysSound(g.history, nd, Splice(nd.inflight.joiner.name, nd.prev.name, n));
    }
  }

  lemma AckSound(g: State, n: Name, m: Msg)
    requires RingOk(g) && n in g.nodes && m.JoinAck? && PendingSound(g.history, g.nodes[n])
    ensures var nd := HandleAck(g.nodes[n], m).0; PendingSound(NextHistory(g, n, nd), nd)
  {
    var nd := g.nodes[n];
    if nd.inflight.active { ActiveKnowsVersion(g, n); }
    AckStaysSound(g.history, nd, m, Splice(nd.inflight.joiner.name, nd.prev.name, n));
  }

  lemma QuietSound(g: State, n: Name, nd: Node)
    requires n in g.nodes && PendingSound(g.history, g.nodes[n])
    requires nd.inflight.active == g.nodes[n].inflight.active
    requires TableShrinks(g.nodes[n], nd) || TableEmpty(nd)
    ensures PendingSound(NextHistory(g, n, nd), nd)
  {
    ShrinkingStaysSound(g.history, g.nodes[n], nd);
  }

  lemma CommitSound(g: State, n: Name, m: Msg)
    requires RingOk(g) && n in g.nodes && m.JoinCommit? && MsgOk(ViewOf(g), m) && PendingSound(g.history, g.nodes[n])
    ensures var nd := HandleCommit(g.nodes[n], m); PendingSound(NextHistory(g, n, nd), nd)
  {
    CommitNotMine(g, n, m);
    CommitShape(g.nodes[n], m);
    CommitShrinks(g.nodes[n], m);
    QuietSound(g, n, HandleCommit(g.nodes[n], m));
  }

  lemma AcceptSound(g: State, n: Name, m: Msg, sent: bool, now: int)
    requires n in g.nodes && m.JoinAccept? && PendingSound(g.history, g.nodes[n])
    ensures var nd := HandleAccept(g.nodes[n], m, sent, now).0; PendingSound(NextHistory(g, n, nd), nd)
  {
    AcceptShrinks(g.nodes[n], m, sent, now);
    AcceptKeepsInflight(g.nodes[n], m, sent, now);
    QuietSound(g, n, HandleAccept(g.nodes[n], m, sent, now).0);
  }

  lemma AcceptKeepsInflight(nd: Node, m: Msg, sent: bool, now: int)
    requires m.JoinAccept?
    ensures HandleAccept(nd, m, sent, now).0.inflight == nd.inflight
  {
  }

  lemma RequestSound(g: State, n: Name, r: Request, ip: nat, now: int)
    requires TablesOk(g) && n in g.nodes && PendingSound(g.history, g.nodes[n])
    requires !IgnoresRequest(g.nodes[n], r) ==>
               NotSeenJoined(g.history, r.name, g.nodes[n].lastSeen) && !HoleBeforeTwo(g.nodes[n].joins.joins, r.name)
    ensures var nd := HandleRequest(g.nodes[n], r, ip, now); PendingSound(NextHistory(g, n, nd), nd)
  {
    RequestStaysSound(g.history, g.nodes[n], r, ip, now);
  }

  lemma DeliverSound(g: State, l: Label)
    requires Inv(g) && Enabled(g, l) && l.Deliver? && Timely(g, l) && PendingSound(g.history, g.nodes[l.n])
    ensures var nd := LocalStep(g, l).0; PendingSound(NextHistory(g, l.n, nd), nd)
  {
    MessageSound(g, l.n, l.p.msg, l.sent, l.ip, l.now);
  }

  lemma MessageSound(g: State, n: Name, m: Msg, sent: bool, ip: nat, now: int)
    requires Inv(g) && n in g.nodes && MsgOk(ViewOf(g), m) && PendingSound(g.history, g.nodes[n])
    requires m.JoinRequest? && !IgnoresRequest(g.nodes[n], m.request) ==>
      && NotSeenJoined(g.history, m.request.name, g.nodes[n].lastSeen)
      && !HoleBeforeTwo(g.nodes[n].joins.joins, m.request.name)
    ensures var nd := Dispatch(g.nodes[n], m, sent, ip, now).0; PendingSound(NextHistory(g, n, nd), nd)
  {
    match m
    case JoinAccept(_, _, _, _) => AcceptSound(g, n, m, sent, now);
    case JoinAck(_, _) => AckSound(g, n, m);
    case JoinAckAck(_, _) => QuietSound(g, n, HandleAckAck(g.nodes[n], m));
    case JoinRequest(r) => RequestSound(g, n, r, ip, now);
    case JoinCommit(_, _, _) => CommitSound(g, n, m);
  }

  lemma TokenSound(g: State, n: Name)
    requires RingOk(g) && n in g.nodes && g.transit.Some? && PendingSound(g.history, g.nodes[n])
    requires Addressed(g.transit.value, g.nodes[n].current)
    ensures var nd := Dispatch(g.nodes[n], g.transit.value.msg, false, 0, 0).0; PendingSound(NextHistory(g, n, nd), nd)
  {
    ArrivesAtHead(g, n);
    var t := g.transit.value.msg.token;
    TokenShrinks(g.nodes[n], t);
    QuietSound(g, n, ReceiveToken(g.nodes[n], t));
  }

  lemma TickSound(g: State, n: Name, now: int)
    requires RingOk(g) && n in g.nodes && PendingSound(g.history, g.nodes[n])
    ensures var nd := InflightTick(g.nodes[n], now).0; PendingSound(NextHistory(g, n, nd), nd)
  {
    var nd := g.nodes[n];
    if nd.inflight.active && nd.inflight.gotPrev && nd.inflight.gotJoiner {
      CompletionSound(g, n);
    } else if nd.inflight.active {
      InflightTimerShape(nd, now);
      QuietSound(g, n, InflightTick(nd, now).0);
    }
  }

  lemma UseTokenSound(g: State, n: Name, now: int)
    requires RingOk(g) && n in g.nodes && PendingSound(g.history, g.nodes[n])
    ensures var nd := HandleToken(g.nodes[n], now).0; PendingSound(NextHistory(g, n, nd), nd)
  {
    var nd := g.nodes[n];
    PopAccounting(nd.joins);
    if TokenReady(nd) && Used(nd.joins.joins) > 0 {
      StartStaysSound(g.history, nd, now);
      TickKeepsActive(StartInflight(nd.(joins := Pop(nd.joins).0), Pop(nd.joins).1.value), now);
    }
  }

  lemma QuietTimersSound(g: State, n: Name, now: int, t: Token)
    requires n in g.nodes && PendingSound(g.history, g.nodes[n])
    ensures var nd := RequestTick(g.nodes[n], now).0; PendingSound(NextHistory(g, n, nd), nd)
    ensures var nd := AckSenderTick(g.nodes[n], now).0; PendingSound(NextHistory(g, n, nd), nd)
    ensures var nd := PruneTick(g.nodes[n], now); PendingSound(NextHistory(g, n, nd), nd)
    ensures var nd := EndForward(g.nodes[n]); PendingSound(NextHistory(g, n, nd), nd)
    ensures var nd := ReadCli(g.nodes[n], t); PendingSound(NextHistory(g, n, nd), nd)
  {
    var nd := g.nodes[n];
    AckTimerShape(nd, now);
    OnlyClearedOps(nd.joins, "", 0, now, JOIN_PENDING_TTL_S);
    QuietSound(g, n, RequestTick(nd, now).0);
    QuietSound(g, n, AckSenderTick(nd, now).0);
    QuietSound(g, n, PruneTick(nd, now));
    QuietSound(g, n, EndForward(nd));
    QuietSound(g, n, ReadCli(nd, t));
  }

  lemma NodeStaysSound(g: State, l: Label)
    requires Inv(g) && Enabled(g, l) && Timely(g, l) && PendingSound(g.history, g.nodes[l.n])
    ensures var nd := LocalStep(g, l).0; PendingSound(NextHistory(g, l.n, nd), nd)
  {
    match l
    case Deliver(_, _, _, _, _) => DeliverSound(g, l);
    case MaybeComplete(n) => CompletionSound(g, n);
    case InflightTimer(n, now) => TickSound(g, n, now);
    case UseToken(n, now) => UseTokenSound(g, n, now);
    case TokenArrives(n) => TokenSound(g, n);
    case _ => TimerStaysSound(g, l);
  }

  lemma TimerStaysSound(g: State, l: Label)
    requires Inv(g) && Enabled(g, l) && PendingSound(g.history, g.nodes[l.n])
    requires l.RequestTimer? || l.AckTimer? || l.PruneTimer? || l.SendReturns? || l.CliInput?
    ensures var nd := LocalStep(g, l).0; PendingSound(NextHistory(g, l.n, nd), nd)
  {
    match l
    case RequestTimer(n, now) => QuietTimersSound(g, n, now, ZERO_TOKEN);
    case AckTimer(n, now) => QuietTimersSound(g, n, now, ZERO_TOKEN);
    case PruneTimer(n, now) => QuietTimersSound(g, n, now, ZERO_TOKEN);
    case SendReturns(n) => QuietTimersSound(g, n, 0, ZERO_TOKEN);
    case CliInput(n, t) => QuietTimersSound(g, n, 0, t);
  }

  lemma OthersStaySound(g: State, h: State, n: Name)
    requires Domain(g) && Versions(g) && AllPendingSound(g) && n in g.nodes && n in h.nodes
    requires h.nodes == g.nodes[n := h.nodes[n]]
    requires h.history == g.history || exists s :: h.history == g.history + [s]
    requires PendingSound(h.history, h.nodes[n])
    ensures AllPendingSound(h)
  {
    forall m | m in h.nodes && m != n ensures PendingSound(h.history, h.nodes[m]) {
      if s :| h.history == g.history + [s] { HistoryStaysSound(g.history, s, g.nodes[m]); }
    }
  }

  lemma ApplyHistory(g: State, l: Label)
    requires l.n in g.nodes
    ensures Apply(g, l).history == NextHistory(g, l.n, LocalStep(g, l).0)
    ensures Apply(g, l).history == g.history || exists s :: Apply(g, l).history == g.history + [s]
  {
    var was := g.nodes[l.n];
    var s := Splice(was.inflight.joiner.name, was.prev.name, l.n);
    assert Apply(g, l).history == g.history || Apply(g, l).history == g.history + [s];
  }

  lemma StepStaysSound(g: State, l: Label)
    requires Inv(g) && AllPendingSound(g) && Enabled(g, l) && Timely(g, l)
    ensures AllPendingSound(Apply(g, l))
  {
    NodeStaysSound(g, l);
    ApplyNodes(g, l);
    ApplyHistory(g, l);
    OthersStaySound(g, Apply(g, l), l.n);
  }

  // --------------------------------------------------------------- freshness

  /** The holder's pending joins are all for nodes that have not joined. */
  lemma HolderStartsFresh(g: State, l: Label)
    requires Inv(g) && AllPendingSound(g) && Enabled(g, l)
    ensures StartsFresh(g, l)
  {
    if StartsJoin(g, l) {
      var n, nd := l.n, g.nodes[l.n];
      HolderIs(g, n);
      PoppedTableOk(g.ids, g.ports, n, nd.joins);
      PoppedNotMember(g, n);
    }
  }

  lemma PoppedNotMember(g: State, n: Name)
    requires Domain(g) && Membership(g) && HistoryOk(g) && n in g.nodes && !Joining(g)
    requires PendingSound(g.history, g.nodes[n]) && g.nodes[n].lastSeen == |g.history|
    requires Pop(g.nodes[n].joins).1.Some? && PendingOk(g.ids, g.ports, n, Pop(g.nodes[n].joins).1.value)
    ensures !g.nodes[Pop(g.nodes[n].joins).1.value.name].joined
  {
    var e := Pop(g.nodes[n].joins).1.value;
    assert MemberOk(g, e.name, g.nodes[e.name]);
    assert NotSeenJoined(g.history, e.name, g.nodes[n].lastSeen);
    assert !HasJoined(g.history, e.name);
    MemberHasJoined(g, e.name);
  }

  lemma MemberHasJoined(g: State, name: Name)
    requires Domain(g) && HistoryOk(g) && name in g.nodes && g.ids[name] != 0
    ensures name in g.ring ==> HasJoined(g.history, name)
  {
    forall i | 0 <= i < |g.ring| && g.ring[i] == name ensures HasJoined(g.history, name) {}
  }

  ghost predicate RequestsTimely(states: seq<State>, labels: seq<Label>)
    requires |states| == |labels| + 1
  {
    forall i {:trigger Timely(states[i], labels[i])} | 0 <= i < |labels| :: Timely(states[i], labels[i])
  }

  lemma InitSound(g: State)
    requires Init(g)
    ensures AllPendingSound(g)
  {
    forall n | n in g.nodes ensures PendingSound(g.history, g.nodes[n]) {
      assert InitNode(g, n, g.nodes[n]);
    }
  }

  /** With timely requests every state satisfies both invariants. */
  lemma RunSound(states: seq<State>, labels: seq<Label>, k: nat)
    requires IsRun(states, labels) && RequestsTimely(states, labels) && k < |states|
    ensures Inv(states[k]) && AllPendingSound(states[k])
  {
    FirstSound(states, labels);
    for i := 0 to k
      invariant Inv(states[i]) && AllPendingSound(states[i])
    {
      NextSound(states, labels, i);
    }
  }

  lemma FirstSound(states: seq<State>, labels: seq<Label>)
    requires IsRun(states, labels)
    ensures Inv(states[0]) && AllPendingSound(states[0])
  {
    InitInv(states[0]);
    InitSound(states[0]);
  }

  lemma SoundStartsFresh(states: seq<State>, labels: seq<Label>, k: nat)
    requires IsRun(states, labels) && k < |labels| && Inv(states[k]) && AllPendingSound(states[k])
    ensures StartsFresh(states[k], labels[k])
  {
    assert StepAt(states, labels, k);
    HolderStartsFresh(states[k], labels[k]);
  }

  lemma NextSound(states: seq<State>, labels: seq<Label>, k: nat)
    requires IsRun(states, labels) && RequestsTimely(states, labels) && k < |labels|
    requires Inv(states[k]) && AllPendingSound(states[k])
    ensures Inv(states[k + 1]) && AllPendingSound(states[k + 1])
  {
    SoundStartsFresh(states, labels, k);
    assert StepAt(states, labels, k);
    StepKeepsInv(states[k], labels[k]);
    StepStaysSound(states[k], labels[k]);
  }

  /** With timely requests every join starts fresh: the assumption of ring safety is discharged. */
  lemma TimelyRunsStartFresh(states: seq<State>, labels: seq<Label>)
    requires IsRun(states, labels) && RequestsTimely(states, labels)
    ensures JoinsStartFresh(states, labels)
  {
    forall i | 0 <= i < |labels| ensures StartsFresh(states[i], labels[i]) {
      RunSound(states, labels, i);
      SoundStartsFresh(states, labels, i);
    }
  }

  /** End to end: with timely requests, whenever no join is in flight the joined nodes form one ring. */
  lemma TimelyRingSafety(states: seq<State>, labels: seq<Label>, k: nat)
    requires IsRun(states, labels) && RequestsTimely(states, labels) && k < |states|
    ensures NoJoinInFlight(states[k]) ==> exists c :: IsRing(states[k], c)
  {
    TimelyRunsStartFresh(states, labels);
    RingSafety(states, labels, k);
  }

  // -------------------------------------------- the assumption is the exact one

  /** In an empty table the added entry is the one popped. */
  lemma AddThenPop(joins: JoinState, r: Request, ip: nat, now: int)
    requires WellFormed(joins) && Used(joins.joins) == 0
    ensures var joins' := Add(joins, r, ip, now).0;
      Used(joins'.joins) > 0 && Pop(joins').1.Some? && Pop(joins').1.value.name == r.name
  {
    UsedBounds(joins.joins);
    AddAccounting(joins, r, ip, now);
    PopAccounting(Add(joins, r, ip, now).0);
  }

  lemma JoinedMeansSeen(g: State, name: Name)
    requires Domain(g) && Membership(g) && HistoryOk(g) && !Joining(g) && name in g.nodes && g.ids[name] != 0
    ensures g.nodes[name].joined <==> !NotSeenJoined(g.history, name, |g.history|)
  {
    assert MemberOk(g, name, g.nodes[name]);
    MemberHasJoined(g, name);
    forall h | 0 <= h < |g.history| && g.history[h].joiner == name ensures name in g.ring {
      assert SpliceOk(g, g.history[h]);
    }
  }

  lemma RequestTaken(g: State, l: Label)
    requires Enabled(g, l) && l.Deliver? && l.p.msg.JoinRequest? && !IgnoresRequest(g.nodes[l.n], l.p.msg.request)
    ensures l.n in Apply(g, l).nodes
    ensures Apply(g, l).nodes ==
      g.nodes[l.n := g.nodes[l.n].(joins := Add(g.nodes[l.n].joins, l.p.msg.request, l.ip, l.now).0)]
  {
    ApplyNodes(g, l);
  }

  /** A request the holder takes into an empty table starts a fresh join exactly when it is not late:
      if its join has already completed, the holder starts a join for a member. */
  lemma LateRequestStartsMember(g: State, l: Label, now: int)
    requires Inv(g) && Enabled(g, l) && l.Deliver? && l.p.msg.JoinRequest?
    requires !IgnoresRequest(g.nodes[l.n], l.p.msg.request)
    requires TokenReady(g.nodes[l.n]) && Used(g.nodes[l.n].joins.joins) == 0
    ensures StartsFresh(Apply(g, l), UseToken(l.n, now)) <==>
              NotSeenJoined(g.history, l.p.msg.request.name, g.nodes[l.n].lastSeen)
  {
    var nd, r := g.nodes[l.n], l.p.msg.request;
    HolderIs(g, l.n);
    JoinedMeansSeen(g, r.name);
    AddThenPop(nd.joins, r, l.ip, l.now);
    RequestTaken(g, l);
    FreshMeansUnjoined(Apply(g, l), l.n, now);
  }

  lemma FreshMeansUnjoined(h: State, n: Name, now: int)
    requires n in h.nodes && TokenReady(h.nodes[n]) && Used(h.nodes[n].joins.joins) > 0
    requires Pop(h.nodes[n].joins).1.Some? && Pop(h.nodes[n].joins).1.value.name in h.nodes
    ensures StartsFresh(h, UseToken(n, now)) <==> !h.nodes[Pop(h.nodes[n].joins).1.value.name].joined
  {
  }
}
