/** The remaining labelled steps, and the invariant over whole runs. */
module RingHandlers {
  import opened Base
  import opened JoinTable
  import opened NodeModel
  import opened RingProtocol
  import opened RingInvariant
  import opened RingSteps
  import opened RingComplete
  import opened RingToken
  import opened RingRun

  // --------------------------------------------------------- acknowledgement

  lemma ConfirmationsTrue(g: State, id: nat, from: Name)
    requires Domain(g) && Pointers(g) && JoinPhase(g) && Names(g) && Joining(g) && AckOk(ViewOf(g), id, from)
    requires g.nodes[g.ring[0]].inflight.requestId == id
    ensures var f := Confirm(g.nodes[g.ring[0]], from).inflight; FlagsTrue(g, f.gotPrev, f.gotJoiner)
  {
    assert PrevIn(g.ring, 0) == Last(g.ring);
    assert NextIn(g.ring, |g.ring| - 1) == g.ring[0];
    assert Joiner(g) in g.ids && g.ids[Joiner(g)] == id;
  }

  lemma PutConfirms(g: State, from: Name)
    requires Domain(g) && Joining(g)
    ensures var nd := Confirm(g.nodes[g.ring[0]], from);
      var h := Put(g, g.ring[0], nd, []);
      && HeadBecomes(g, h, WithInflight(g,
          g.nodes[g.ring[0]].inflight.(gotPrev := nd.inflight.gotPrev, gotJoiner := nd.inflight.gotJoiner)))
      && SameRecord(g, h)
  {
  }

  lemma NothingSent(v: View)
    ensures OutOk(v, [])
  {
  }

  lemma ConfirmStep(g: State, n: Name, id: nat, from: Name)
    requires Inv(g) && n in g.nodes && AckOk(ViewOf(g), id, from)
    requires g.nodes[n].inflight.active && g.nodes[n].inflight.requestId == id
    ensures Inv(Put(g, n, Confirm(g.nodes[n], from), []))
  {
    HeadIs(g, n);
    var nd := Confirm(g.nodes[n], from);
    var h := Put(g, n, nd, []);
    ConfirmationsTrue(g, id, from);
    PutConfirms(g, from);
    ConfirmRing(g, h, nd.inflight.gotPrev, nd.inflight.gotJoiner);
    ConfirmView(g, h, nd.inflight.gotPrev, nd.inflight.gotJoiner);
    SameViewIsLater(ViewOf(g));
    PutParts(g, n, nd, []);
    NothingSent(ViewOf(h));
    OthersStayOk(g, h, n, []);
  }

  lemma RepliesStep(g: State, n: Name, out: seq<Packet>)
    requires Inv(g) && n in g.nodes && forall p | p in out :: p.msg.JoinAckAck?
    ensures Inv(Put(g, n, g.nodes[n], out))
  {
    QuietStep(g, n, g.nodes[n], out);
  }

  /** What `HandleAck` does, cut into its parts. */
  lemma AckShape(was: Node, m: Msg)
    requires m.JoinAck?
    ensures var (nd, out) := HandleAck(was, m);
      var mine := was.inflight.active && was.inflight.requestId == m.requestId;
      var (nd1, sent) := if mine then TryComplete(Confirm(was, m.from)) else (was, []);
      && nd == nd1 && |sent| <= |out| && out[..|sent|] == sent
      && forall p | p in out[|sent|..] :: p.msg.JoinAckAck?
  {
  }

  lemma ReplyAfter(g: State, n: Name, nd: Node, sent: seq<Packet>, replies: seq<Packet>)
    requires n in g.nodes && Inv(Put(g, n, nd, sent))
    requires forall p | p in replies :: p.msg.JoinAckAck?
    ensures Inv(Put(g, n, nd, sent + replies))
  {
    RepliesStep(Put(g, n, nd, sent), n, replies);
    PutAgain(g, n, nd, sent, replies);
  }

  /** An acknowledgement of the join under way: confirm, and complete if both are in. */
  lemma ConfirmAndComplete(g: State, n: Name, id: nat, from: Name)
    requires Inv(g) && n in g.nodes && AckOk(ViewOf(g), id, from)
    requires g.nodes[n].inflight.active && g.nodes[n].inflight.requestId == id
    ensures var (nd, sent) := TryComplete(Confirm(g.nodes[n], from)); Inv(Put(g, n, nd, sent))
  {
    var nd0 := Confirm(g.nodes[n], from);
    var (nd, sent) := TryComplete(nd0);
    ConfirmStep(g, n, id, from);
    CompleteStep(Put(g, n, nd0, []), n);
    Merge(g, n, nd0, nd, sent);
  }

  lemma Merge(g: State, n: Name, a: Node, b: Node, out: seq<Packet>)
    requires n in g.nodes && Inv(Put(Put(g, n, a, []), n, b, out))
    requires a.prev == g.nodes[n].prev && a.inflight.joiner == g.nodes[n].inflight.joiner
    requires a.inflight.active == g.nodes[n].inflight.active
    ensures Inv(Put(g, n, b, out))
  {
    PutPut(g, n, a, b, [], out);
    assert [] + out == out;
  }

  lemma MyAckStep(g: State, n: Name, m: Msg)
    requires Inv(g) && n in g.nodes && m.JoinAck? && AckOk(ViewOf(g), m.requestId, m.from)
    requires g.nodes[n].inflight.active && g.nodes[n].inflight.requestId == m.requestId
    ensures var (nd, out) := HandleAck(g.nodes[n], m); Inv(Put(g, n, nd, out))
  {
    AckShape(g.nodes[n], m);
    ConfirmAndComplete(g, n, m.requestId, m.from);
    var (nd, sent) := TryComplete(Confirm(g.nodes[n], m.from));
    SplitReplies(g, n, nd, sent, HandleAck(g.nodes[n], m).1);
  }

  lemma SplitReplies(g: State, n: Name, nd: Node, sent: seq<Packet>, out: seq<Packet>)
    requires n in g.nodes && Inv(Put(g, n, nd, sent))
    requires |sent| <= |out| && out[..|sent|] == sent && forall p | p in out[|sent|..] :: p.msg.JoinAckAck?
    ensures Inv(Put(g, n, nd, out))
  {
    ReplyAfter(g, n, nd, sent, out[|sent|..]);
    assert out == sent + out[|sent|..];
  }

  lemma AckStep(g: State, n: Name, m: Msg)
    requires Inv(g) && n in g.nodes && m.JoinAck? && AckOk(ViewOf(g), m.requestId, m.from)
    ensures var (nd, out) := HandleAck(g.nodes[n], m); Inv(Put(g, n, nd, out))
  {
    if g.nodes[n].inflight.active && g.nodes[n].inflight.requestId == m.requestId {
      MyAckStep(g, n, m);
    } else {
      AckShape(g.nodes[n], m);
      RepliesStep(g, n, HandleAck(g.nodes[n], m).1);
    }
  }

  // -------------------------------------------------------------- accept sends

  lemma AcceptSent(g: State)
    requires Domain(g) && Names(g) && Pointers(g) && JoinPhase(g) && Joining(g)
    ensures AcceptOk(ViewOf(g), AcceptMsg(g.nodes[g.ring[0]]))
  {
    assert PrevIn(g.ring, 0) == Last(g.ring);
  }

  lemma InflightTimerShape(was: Node, now: int)
    requires was.inflight.active && !(was.inflight.gotPrev && was.inflight.gotJoiner)
    ensures var (nd, out) := InflightTick(was, now);
      && SameCore(was, nd) && nd.joins == was.joins && nd.ackSender == was.ackSender
      && forall p | p in out :: p.msg == AcceptMsg(was)
  {
  }

  lemma InflightTimerStep(g: State, n: Name, now: int)
    requires Inv(g) && n in g.nodes
    ensures var (nd, out) := InflightTick(g.nodes[n], now); Inv(Put(g, n, nd, out))
  {
    var was := g.nodes[n];
    var (nd, out) := InflightTick(was, now);
    if !was.inflight.active {
      TableStep(g, n, nd);
    } else if was.inflight.gotPrev && was.inflight.gotJoiner {
      CompleteStep(g, n);
    } else {
      HeadIs(g, n);
      AcceptSent(g);
      InflightTimerShape(was, now);
      QuietStep(g, n, nd, out);
    }
  }

  // ------------------------------------------------------------------ commit

  /** The branch that completes a join on somebody else's commit is never taken. */
  lemma CommitNotMine(g: State, n: Name, m: Msg)
    requires RingOk(g) && n in g.nodes && m.JoinCommit? && MsgOk(ViewOf(g), m)
    ensures !(g.nodes[n].inflight.active && g.nodes[n].inflight.requestId == m.requestId)
  {
    if g.nodes[n].inflight.active {
      HeadIs(g, n);
      assert SpliceOk(g, g.history[m.version - 1]);
    }
  }

  function CommitJoins(was: Node, m: Msg): JoinState
    requires m.JoinCommit?
  {
    var joins := MarkCompletedAndPrunePending(was.joins, m.newName, m.requestId);
    if m.version > was.lastSeen then ClearPending(joins) else joins
  }

  lemma CommitShape(was: Node, m: Msg)
    requires m.JoinCommit? && !(was.inflight.active && was.inflight.requestId == m.requestId)
    ensures var nd := HandleCommit(was, m);
      && SameCore(was.(lastSeen := if m.version > was.lastSeen then m.version else was.lastSeen), nd)
      && nd.joins == CommitJoins(was, m)
      && (nd.ackSender.active ==> nd.ackSender == was.ackSender)
  {
  }

  lemma CommitTable(g: State, n: Name, m: Msg)
    requires TablesOk(g) && n in g.nodes && m.JoinCommit?
    ensures TableOk(g.ids, g.ports, n, CommitJoins(g.nodes[n], m))
  {
    TableStaysOk(g.ids, g.ports, n, g.nodes[n].joins, m.newName, m.requestId, 0, 0);
    ClearedTableOk(g.ids, g.ports, n, MarkCompletedAndPrunePending(g.nodes[n].joins, m.newName, m.requestId));
  }

  lemma PutBecomes(g: State, n: Name, core: Node, nd: Node, out: seq<Packet>)
    requires n in g.nodes && SameCore(core, nd)
    requires core.inflight == g.nodes[n].inflight
    ensures Becomes(g, Put(g, n, nd, out), n, core)
    ensures Put(g, n, nd, out).ring == g.ring && Put(g, n, nd, out).transit == g.transit
  {
  }

  lemma CommitRing(g: State, n: Name, v: nat, nd: Node)
    requires RingOk(g) && n in g.nodes && g.nodes[n].lastSeen <= v <= |g.history|
    requires SameCore(g.nodes[n].(lastSeen := v), nd)
    ensures RingOk(Put(g, n, nd, [])) && ViewOf(Put(g, n, nd, [])) == ViewOf(g)
  {
    PutBecomes(g, n, g.nodes[n].(lastSeen := v), nd, []);
    SeeVersion(g, Put(g, n, nd, []), n, v);
  }

  lemma CommitAny(g: State, n: Name, m: Msg, nd: Node)
    requires Inv(g) && n in g.nodes && m.JoinCommit? && m.version <= |g.history|
    requires SameCore(
      g.nodes[n].(lastSeen := if m.version > g.nodes[n].lastSeen then m.version else g.nodes[n].lastSeen), nd)
    requires nd.joins == CommitJoins(g.nodes[n], m)
    requires nd.ackSender.active ==> nd.ackSender == g.nodes[n].ackSender
    ensures Inv(Put(g, n, nd, []))
  {
    CommitTable(g, n, m);
    SeenBound(g, n);
    SeenKeepsInv(g, n, nd, if m.version > g.nodes[n].lastSeen then m.version else g.nodes[n].lastSeen);
  }

  lemma SeenKeepsInv(g: State, n: Name, nd: Node, v: nat)
    requires Inv(g) && n in g.nodes && g.nodes[n].lastSeen <= v <= |g.history|
    requires SameCore(g.nodes[n].(lastSeen := v), nd) && TableOk(g.ids, g.ports, n, nd.joins)
    requires nd.ackSender.active ==> nd.ackSender == g.nodes[n].ackSender
    ensures Inv(Put(g, n, nd, []))
  {
    CommitRing(g, n, v, nd);
    PutParts(g, n, nd, []);
    KeepOthers(g, Put(g, n, nd, []), n, nd);
  }

  lemma CommitStep(g: State, n: Name, m: Msg)
    requires Inv(g) && n in g.nodes && m.JoinCommit? && MsgOk(ViewOf(g), m)
    ensures Inv(Put(g, n, HandleCommit(g.nodes[n], m), []))
  {
    CommitNotMine(g, n, m);
    CommitShape(g.nodes[n], m);
    CommitAny(g, n, m, HandleCommit(g.nodes[n], m));
  }

  lemma SeenBound(g: State, n: Name)
    requires RingOk(g) && n in g.nodes
    ensures g.nodes[n].lastSeen <= |g.history|
  {
  }

  /** A node that sends nothing, and starts acknowledging nothing, leaves packets and timers true. */
  lemma KeepOthers(g: State, h: State, n: Name, nd: Node)
    requires NetOk(g) && AckSendersOk(g) && TablesOk(g) && n in g.nodes
    requires ViewOf(h) == ViewOf(g) && h.ports == g.ports && h.ids == g.ids
    requires h.nodes == g.nodes[n := nd] && h.net == g.net
    requires TableOk(g.ids, g.ports, n, nd.joins)
    requires nd.ackSender.active ==> nd.ackSender == g.nodes[n].ackSender
    ensures NetOk(h) && AckSendersOk(h) && TablesOk(h)
  {
    SameViewIsLater(ViewOf(g));
    NothingSent(ViewOf(h));
    OthersStayOk(g, h, n, []);
  }

  // ------------------------------------------------------------------- token

  lemma CliStep(g: State, n: Name, t: Token)
    requires Inv(g) && n in g.nodes
    ensures Inv(Put(g, n, ReadCli(g.nodes[n], t), []))
  {
    TableStep(g, n, ReadCli(g.nodes[n], t));
  }

  lemma SendReturnsStep(g: State, n: Name)
    requires Inv(g) && n in g.nodes && g.nodes[n].sending
    ensures Inv(Put(g, n, EndForward(g.nodes[n]), []))
  {
    var nd := EndForward(g.nodes[n]);
    var h := Put(g, n, nd, []);
    PutBecomes(g, n, nd, nd, []);
    SendDone(g, h, n);
    KeepOthers(g, h, n, nd);
  }

  lemma ArriveShape(was: Node, t: Token)
    requires was.joined
    ensures var nd := ReceiveToken(was, t);
      && SameCore(Arrived(was, t), nd) && nd.ackSender == was.ackSender
      && nd.joins == (if t.version > was.lastSeen then ClearPending(was.joins) else was.joins)
  {
  }

  lemma ArrivesAtHead(g: State, n: Name)
    requires RingOk(g) && n in g.nodes && g.transit.Some? && Addressed(g.transit.value, g.nodes[n].current)
    ensures n == g.ring[0] && g.nodes[n].joined && g.transit.value.msg.TokenMsg?
  {
    CurrentIs(g, n);
    assert MemberOk(g, n, g.nodes[n]);
  }

  lemma ArriveStep(g: State, n: Name)
    requires Inv(g) && n in g.nodes && g.transit.Some? && Addressed(g.transit.value, g.nodes[n].current)
    requires !g.nodes[n].sending
    ensures g.transit.value.msg.TokenMsg?
    ensures Inv(Put(g, n, ReceiveToken(g.nodes[n], g.transit.value.msg.token), []).(transit := None))
  {
    ArrivesAtHead(g, n);
    var t := g.transit.value.msg.token;
    ArriveShape(g.nodes[n], t);
    ClearedTableOk(g.ids, g.ports, n, g.nodes[n].joins);
    ArriveAny(g, n, t, ReceiveToken(g.nodes[n], t));
  }

  lemma ArriveAny(g: State, n: Name, t: Token, nd: Node)
    requires Inv(g) && n in g.nodes && g.transit.Some? && Addressed(g.transit.value, g.nodes[n].current)
    requires g.transit.value.msg == TokenMsg(t) && n == g.ring[0] && !g.nodes[n].sending
    requires SameCore(Arrived(g.nodes[n], t), nd) && nd.ackSender == g.nodes[n].ackSender
    requires TableOk(g.ids, g.ports, n, nd.joins)
    ensures Inv(Put(g, n, nd, []).(transit := None))
  {
    var h := Put(g, n, nd, []).(transit := None);
    PutBecomes(g, n, Arrived(g.nodes[n], t), nd, []);
    Arrive(g, h, t);
    KeepOthers(g, h, n, nd);
  }

  lemma HolderIs(g: State, n: Name)
    requires RingOk(g) && n in g.nodes && TokenReady(g.nodes[n]) && !g.nodes[n].sending
    ensures n == g.ring[0] && g.transit.None? && !Joining(g)
    ensures g.nodes[n].lastSeen == |g.history| && g.nodes[n].tokenIn.version == |g.history|
  {
    assert TokenOk(g, n, g.nodes[n]);
  }

  lemma PutStarts(g: State, joins: JoinState, e: PendingJoin)
    requires Domain(g) && !Joining(g)
    ensures var nd := StartInflight(g.nodes[g.ring[0]].(joins := joins), e);
      var h := Put(g, g.ring[0], nd, []);
      HeadBecomes(g, h, WithInflight(g, StartRecord(g, e))) && SameRecord(g, h)
  {
  }

  lemma StartStep(g: State, n: Name, joins: JoinState, e: PendingJoin)
    requires Inv(g) && n in g.nodes && n == g.ring[0] && g.transit.None? && !Joining(g)
    requires TableOk(g.ids, g.ports, n, joins) && PendingOk(g.ids, g.ports, n, e) && e.name !in g.ring
    ensures Inv(Put(g, n, StartInflight(g.nodes[n].(joins := joins), e), []))
  {
    var nd := StartInflight(g.nodes[n].(joins := joins), e);
    var h := Put(g, n, nd, []);
    PutStarts(g, joins, e);
    Start(g, h, e);
    PutParts(g, n, nd, []);
    if nd.ackSender.active { AckStaysOk(ViewOf(g), ViewOf(h), nd.ackSender.requestId, n); }
    NothingSent(ViewOf(h));
    OthersStayOk(g, h, n, []);
  }

  lemma TickKeepsActive(was: Node, now: int)
    requires was.inflight.active && !was.inflight.gotJoiner
    ensures InflightTick(was, now).0.inflight.active
  {
  }

  lemma StartAndTickStep(g: State, n: Name, joins: JoinState, e: PendingJoin, now: int)
    requires Inv(g) && n in g.nodes && n == g.ring[0] && g.transit.None? && !Joining(g)
    requires TableOk(g.ids, g.ports, n, joins) && PendingOk(g.ids, g.ports, n, e) && e.name !in g.ring
    ensures var (nd, out) := InflightTick(StartInflight(g.nodes[n].(joins := joins), e), now);
      Inv(Put(g, n, nd, out))
  {
    var nd1 := StartInflight(g.nodes[n].(joins := joins), e);
    var (nd, out) := InflightTick(nd1, now);
    StartStep(g, n, joins, e);
    TickKeepsActive(nd1, now);
    InflightTimerStep(Put(g, n, nd1, []), n, now);
    PutStarted(g, n, nd1, nd, out);
  }

  lemma ForwardShape(was: Node)
    ensures var (nd, out) := BeginForward(was);
      && SameCore(Sending(was), nd) && nd.joins == was.joins && nd.ackSender == was.ackSender
      && out == [Unicast(was.next, TokenMsg(OutgoingToken(was)))]
      && OutgoingToken(was).version == (if Attaches(was) then was.lastSeen else was.tokenIn.version)
  {
  }

  lemma PutMoves(g: State, nd: Node, out: seq<Packet>, t: Token)
    requires Domain(g) && SameCore(Sending(g.nodes[g.ring[0]]), nd) && !Joining(g)
    requires out == [Unicast(g.nodes[g.ring[0]].next, TokenMsg(t))]
    ensures var h := Put(g, g.ring[0], nd, out).(transit := Some(out[0]), ring := Rotate(g.ring));
      Moves(g, h, t) && h.net == g.net
  {
    assert Datagrams(out) == {};
  }

  function Forwarded(g: State, n: Name, nd: Node, out: seq<Packet>): State
    requires n in g.nodes && out != []
  {
    Put(g, n, nd, out).(transit := Some(out[0]), ring := Rotate(g.ring))
  }

  lemma ForwardRing(g: State, nd: Node, out: seq<Packet>, t: Token)
    requires RingOk(g) && SameCore(Sending(g.nodes[g.ring[0]]), nd) && !Joining(g) && g.transit.None?
    requires t.version == |g.history| && out == [Unicast(g.nodes[g.ring[0]].next, TokenMsg(t))]
    ensures var h := Forwarded(g, g.ring[0], nd, out);
      && RingOk(h) && Later(ViewOf(g), ViewOf(h))
      && h.net == g.net && h.nodes == g.nodes[g.ring[0] := nd] && h.ports == g.ports && h.ids == g.ids
  {
    PutMoves(g, nd, out, t);
    Move(g, Forwarded(g, g.ring[0], nd, out), t);
  }

  lemma ForwardOthers(g: State, h: State, n: Name)
    requires NetOk(g) && AckSendersOk(g) && TablesOk(g) && n in g.nodes && n in h.nodes
    requires Later(ViewOf(g), ViewOf(h)) && h.ports == g.ports && h.ids == g.ids
    requires h.nodes == g.nodes[n := h.nodes[n]] && h.net == g.net
    requires h.nodes[n].joins == g.nodes[n].joins && h.nodes[n].ackSender == g.nodes[n].ackSender
    ensures NetOk(h) && AckSendersOk(h) && TablesOk(h)
  {
    if g.nodes[n].ackSender.active { AckStaysOk(ViewOf(g), ViewOf(h), g.nodes[n].ackSender.requestId, n); }
    NothingSent(ViewOf(h));
    OthersStayOk(g, h, n, []);
  }

  lemma ForwardStep(g: State, n: Name)
    requires Inv(g) && n in g.nodes && TokenReady(g.nodes[n]) && !g.nodes[n].sending
    ensures var (nd, out) := BeginForward(g.nodes[n]); out != [] && Inv(Forwarded(g, n, nd, out))
  {
    HolderIs(g, n);
    var (nd, out) := BeginForward(g.nodes[n]);
    ForwardShape(g.nodes[n]);
    ForwardRing(g, nd, out, OutgoingToken(g.nodes[n]));
    ForwardOthers(g, Forwarded(g, n, nd, out), n);
  }

  lemma PoppedIsNew(g: State, l: Label)
    requires RingOk(g) && l.UseToken? && l.n in g.nodes && StartsFresh(g, l) && TokenReady(g.nodes[l.n])
    requires Used(g.nodes[l.n].joins.joins) > 0 && Pop(g.nodes[l.n].joins).1.Some?
    ensures Pop(g.nodes[l.n].joins).1.value.name !in g.ring
  {
    var name := Pop(g.nodes[l.n].joins).1.value.name;
    assert MemberOk(g, name, g.nodes[name]);
  }

  lemma UseTokenIdle(g: State, l: Label)
    requires Inv(g) && l.n in g.nodes && l.UseToken? && !TokenReady(g.nodes[l.n])
    ensures Inv(Apply(g, l))
  {
    IdleApply(g, l);
    TableStep(g, l.n, g.nodes[l.n]);
  }

  lemma IdleApply(g: State, l: Label)
    requires l.n in g.nodes && l.UseToken? && !TokenReady(g.nodes[l.n])
    ensures Apply(g, l) == Put(g, l.n, g.nodes[l.n], [])
  {
  }

  lemma UseTokenStarts(g: State, l: Label)
    requires Inv(g) && l.n in g.nodes && l.UseToken? && StartsFresh(g, l)
    requires TokenReady(g.nodes[l.n]) && !g.nodes[l.n].sending && Used(g.nodes[l.n].joins.joins) > 0
    ensures Inv(Put(g, l.n, HandleToken(g.nodes[l.n], l.now).0, HandleToken(g.nodes[l.n], l.now).1))
  {
    var n, was := l.n, g.nodes[l.n];
    HolderIs(g, n);
    PoppedTableOk(g.ids, g.ports, n, was.joins);
    PoppedIsNew(g, l);
    var (joins, e) := Pop(was.joins);
    StartAndTickStep(g, n, joins, e.value, l.now);
  }

  lemma StartDoesNotForward(was: Node, now: int)
    requires TokenReady(was) && !was.sending && Used(was.joins.joins) > 0
    ensures !HandleToken(was, now).0.sending
  {
  }

  lemma UseTokenForwards(g: State, l: Label)
    requires l.n in g.nodes && l.UseToken?
    requires TokenReady(g.nodes[l.n]) && !g.nodes[l.n].sending && Used(g.nodes[l.n].joins.joins) == 0
    ensures Forwards(g, l)
    ensures var (nd, out) := BeginForward(g.nodes[l.n]); Apply(g, l) == Forwarded(g, l.n, nd, out)
  {
  }

  lemma UseTokenStep(g: State, l: Label)
    requires Inv(g) && Enabled(g, l) && l.UseToken? && StartsFresh(g, l)
    ensures Inv(Apply(g, l))
  {
    if !TokenReady(g.nodes[l.n]) {
      UseTokenIdle(g, l);
    } else if Used(g.nodes[l.n].joins.joins) > 0 {
      StartKeepsInv(g, l);
    } else {
      ForwardKeepsInv(g, l);
    }
  }

  lemma StartApply(g: State, l: Label)
    requires l.n in g.nodes && l.UseToken?
    requires TokenReady(g.nodes[l.n]) && !g.nodes[l.n].sending && Used(g.nodes[l.n].joins.joins) > 0
    ensures Apply(g, l) == Put(g, l.n, HandleToken(g.nodes[l.n], l.now).0, HandleToken(g.nodes[l.n], l.now).1)
  {
    StartDoesNotForward(g.nodes[l.n], l.now);
  }

  lemma StartKeepsInv(g: State, l: Label)
    requires Inv(g) && l.n in g.nodes && l.UseToken? && StartsFresh(g, l)
    requires TokenReady(g.nodes[l.n]) && !g.nodes[l.n].sending && Used(g.nodes[l.n].joins.joins) > 0
    ensures Inv(Apply(g, l))
  {
    UseTokenStarts(g, l);
    StartApply(g, l);
  }

  lemma ForwardKeepsInv(g: State, l: Label)
    requires Inv(g) && l.n in g.nodes && l.UseToken?
    requires TokenReady(g.nodes[l.n]) && !g.nodes[l.n].sending && Used(g.nodes[l.n].joins.joins) == 0
    ensures Inv(Apply(g, l))
  {
    UseTokenForwards(g, l);
    ForwardStep(g, l.n);
  }
}
