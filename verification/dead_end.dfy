/** A join that can no longer be completed: a neighbour of the coordinator has done its part, nobody knows, and
    it will not say so again. */
module DeadEnd {
  import opened Base
  import opened NodeModel
  import opened RingProtocol
  import opened RingInvariant
  import opened RingRun
  import opened RingHandlers
  import opened RingTheorems
  import opened RingRuns
  import opened LossyRuns
  import opened Replay
  import opened JoinWait
  import opened JoinProgress
  import LateRequest

  ghost predicate Silenced(g: State, part: Part) {
    Joining(g) && Done(g, part) && !Confirmed(g, part) && !CanAnswer(g, part)
  }

  // ------------------------------------------------------------ nothing leads out of it

  /** The coordinator waits for the neighbour, and everyone else has neither token nor join. */
  lemma CoordinatorWaits(g: State, part: Part)
    requires Sane(g) && Silenced(g, part)
    ensures g.ring[0] in g.nodes && Waits(g.nodes[g.ring[0]], RequestOf(g), part, Neighbour(g, part))
    ensures g.nodes[g.ring[0]].current == RouteTo(g, g.ring[0]) && g.transit == None
    ensures forall n | n in g.nodes && n != g.ring[0] :: Idle(g.nodes[n])
  {
    HeadIs(g, g.ring[0]);
    assert PrevIn(g.ring, 0) == Last(g.ring);
    assert TokenOk(g, g.ring[0], g.nodes[g.ring[0]]) && MemberOk(g, g.ring[0], g.nodes[g.ring[0]]);
    forall n | n in g.nodes && n != g.ring[0] ensures Idle(g.nodes[n]) { assert TokenOk(g, n, g.nodes[n]); }
  }

  lemma NothingToHear(g: State, part: Part)
    requires Sane(g) && Silenced(g, part)
    ensures forall p | p in g.net ::
      !p.msg.TokenMsg? && !IsAnswer(p, RouteTo(g, g.ring[0]), RequestOf(g), Neighbour(g, part))
  {
    forall p | p in g.net
      ensures !p.msg.TokenMsg? && !IsAnswer(p, RouteTo(g, g.ring[0]), RequestOf(g), Neighbour(g, part))
    {
      assert MsgOk(ViewOf(g), p.msg);
    }
  }

  /** No step ends the join or moves the token. */
  lemma StepWaits(g: State, l: Label, part: Part)
    requires Sane(g) && Silenced(g, part) && Enabled(g, l)
    ensures !Forwards(g, l) && StartsFresh(g, l) && !l.TokenArrives?
    ensures l.n == g.ring[0] ==> StillWaits(g, l, part)
  {
    CoordinatorWaits(g, part);
    NothingToHear(g, part);
    if l.n == g.ring[0] {
      if l.Deliver? && l.p.msg.JoinCommit? { CommitNotMine(g, l.n, l.p.msg); }
      WaiterSteps(g, l, RequestOf(g), part, Neighbour(g, part));
    } else {
      IdleSteps(g, l);
    }
  }

  ghost predicate StillWaits(g: State, l: Label, part: Part)
    requires l.n in g.nodes && Joining(g)
  {
    var nd := LocalStep(g, l).0;
    Waits(nd, RequestOf(g), part, Neighbour(g, part)) && SameJoin(g.nodes[l.n], nd)
  }

  /** The neighbour has done its part, so no accept changes it any more. */
  lemma NeighbourIgnores(g: State, l: Label, part: Part)
    requires Inv(g) && Silenced(g, part) && Enabled(g, l) && l.n == Neighbour(g, part)
    ensures !Applies(g.nodes[l.n], l) && l.n != g.ring[0]
  {
    if Applies(g.nodes[l.n], l) {
      CurrentIs(g, l.n);
      AcceptIsCurrent(g, l.n, l.p.msg);
    }
  }

  lemma NotSent(g: State, was: Node, l: Label, out: seq<Packet>, m: Name)
    requires Joining(g) && forall p | p in out :: IsOwnAck(was, l, p)
    requires was.current.name == m ==> !Applies(was, l) && !Resends(was, RouteTo(g, g.ring[0]), RequestOf(g))
    ensures AckOf(g, m) !in out
  {
    var p := AckOf(g, m);
    assert p in out ==> IsOwnAck(was, l, p);
  }

  /** It says nothing of this join. */
  lemma NeighbourSilent(g: State, l: Label, part: Part)
    requires Sane(g) && Silenced(g, part) && Enabled(g, l)
    ensures AckOf(g, Neighbour(g, part)) !in LocalStep(g, l).1
    ensures var nd := LocalStep(g, l).0;
      l.n == Neighbour(g, part) ==> !(Sending(nd) && nd.ackSender.requestId == RequestOf(g))
  {
    var m, was := Neighbour(g, part), g.nodes[l.n];
    var (nd, out) := LocalStep(g, l);
    StepAcks(g, l);
    CurrentIs(g, l.n);
    if l.n == m { NeighbourIgnores(g, l, part); }
    NotSent(g, was, l, out, m);
  }

  lemma NeighbourStaysDone(g: State, l: Label, part: Part)
    requires Inv(g) && AllLocal(g) && Silenced(g, part) && Enabled(g, l) && l.n == Neighbour(g, part)
    ensures if part.TheJoiner? then LocalStep(g, l).0.joined else LocalStep(g, l).0.next == g.nodes[l.n].next
  {
    NeighbourIgnores(g, l, part);
    StepAcks(g, l);
    if part.ThePredecessor? && LocalStep(g, l).0.next != g.nodes[l.n].next {
      PrevMoves(g, l);
      ApplyIsDelivery(g, l, g.nodes[l.n]);
    }
  }

  /** A neighbour that cannot answer never will. */
  lemma StepSilenced(g: State, l: Label, part: Part)
    requires Sane(g) && Silenced(g, part) && Enabled(g, l)
    ensures Sane(Apply(g, l)) && Silenced(Apply(g, l), part) && StartsFresh(g, l)
    ensures GoesOn(g, Apply(g, l)) && Apply(g, l).history == g.history
  {
    StepWaits(g, l, part);
    StepSane(g, l);
    NeighbourSilent(g, l, part);
    if l.n == Neighbour(g, part) { NeighbourStaysDone(g, l, part); }
    CoordinatorWaits(g, part);
    PutSilenced(g, l.n, LocalStep(g, l).0, LocalStep(g, l).1, part);
    PlainPut(g, l);
  }

  lemma PlainPut(g: State, l: Label)
    requires l.n in g.nodes && !Forwards(g, l) && !l.TokenArrives?
    ensures Apply(g, l) == Put(g, l.n, LocalStep(g, l).0, LocalStep(g, l).1)
  {
  }

  lemma PutSilenced(g: State, n: Name, nd: Node, out: seq<Packet>, part: Part)
    requires Silenced(g, part) && n in g.nodes && AckOf(g, Neighbour(g, part)) !in out
    requires n == g.ring[0] ==> Waits(nd, RequestOf(g), part, Neighbour(g, part)) && SameJoin(g.nodes[n], nd)
    requires n != g.ring[0] ==> !g.nodes[n].inflight.active
    requires n == Neighbour(g, part) ==>
      && n != g.ring[0] && !(Sending(nd) && nd.ackSender.requestId == RequestOf(g))
      && if part.TheJoiner? then nd.joined else nd.next == g.nodes[n].next
    ensures var h := Put(g, n, nd, out); Silenced(h, part) && GoesOn(g, h) && h.history == g.history
  {
  }

  lemma LossSilenced(g: State, lost: set<Packet>, part: Part)
    requires Silenced(g, part)
    ensures Silenced(g.(net := g.net - lost), part) && GoesOn(g, g.(net := g.net - lost))
  {
  }

  /** From such a state there is no way out, whatever is sent again and whatever is lost: the same join is in
      flight with the same ring for ever, so the token stays parked with its coordinator. */
  lemma {:induction false} SilencedForEver(g: State, ms: seq<Move>, h: State, part: Part)
    requires Sane(g) && Silenced(g, part) && Goes(g, ms, h)
    ensures Sane(h) && Silenced(h, part) && GoesOn(g, h) && h.history == g.history
    ensures h.ring[0] in h.nodes && h.nodes[h.ring[0]].haveToken && !h.nodes[h.ring[0]].sending && h.transit == None
    decreases |ms|
  {
    if ms == [] {
      CoordinatorWaits(g, part);
    } else {
      match ms[0] {
        case Step(l) => StepSilenced(g, l, part);
        case Loss(lost) =>
          LossSane(g, lost);
          LossSilenced(g, lost, part);
      }
      SilencedForEver(Next(g, ms[0]), ms[1..], h, part);
    }
  }

  // ------------------------------------------------------------------ the exact condition

  lemma InFlight(g: State)
    requires Inv(g) && !NoJoinInFlight(g)
    ensures Joining(g)
  {
    var n :| n in g.nodes && g.nodes[n].inflight.active;
    HeadIs(g, n);
  }

  /** In every run, whatever has been lost: a join in flight can be completed if and only if every neighbour that
      has done its part, and of which the coordinator does not know, has its acknowledgement on the way or will
      send it again. Then nothing more need be lost, and the joiner ends up in the ring. */
  lemma JoinCanComplete(g: State)
    requires LossyReached(g) && !NoJoinInFlight(g)
    ensures Joining(g)
    ensures EveryoneCanAnswer(g) <==> exists h :: CanGo(g, h) && Completed(g, h)
    ensures EveryoneCanAnswer(g) ==> exists h :: Leads(g, h) && Completed(g, h) && IsRing(h, h.ring)
  {
    ReachedSane(g);
    InFlight(g);
    if EveryoneCanAnswer(g) {
      var h := Finishes(g);
      QuietRing(h);
      LeadsIsGo(g, h);
    } else {
      var part: Part :| Done(g, part) && !Confirmed(g, part) && !CanAnswer(g, part);
      forall h | CanGo(g, h) ensures !Completed(g, h) {
        var ms :| Goes(g, ms, h) && AllFresh(g, ms);
        SilencedForEver(g, ms, h, part);
      }
    }
  }

  // -------------------------------------------------------------------- how one gets there

  /** The neighbour has done its part unnoticed, and can send. */
  ghost predicate Unnoticed(g: State, part: Part) {
    Joining(g) && Done(g, part) && !Confirmed(g, part) &&
      var m := Neighbour(g, part);
      m in g.nodes && m != g.ring[0] && !g.nodes[m].sending && !g.nodes[m].inflight.active
  }

  predicate HasTries(g: State, part: Part)
    requires Joining(g) && Neighbour(g, part) in g.nodes
  {
    var nd := g.nodes[Neighbour(g, part)];
    Sending(nd) && nd.ackSender.requestId == RequestOf(g)
  }

  function TriesLeft(nd: Node): nat {
    if nd.ackSender.retries < JOIN_ACK_MAX_RETRIES then JOIN_ACK_MAX_RETRIES - nd.ackSender.retries else 0
  }

  /** One more try, which may be lost like the others. */
  lemma OneTry(g: State, part: Part) returns (h: State)
    requires Sane(g) && Unnoticed(g, part) && HasTries(g, part)
    ensures CanGo(g, h) && Sane(h) && Unnoticed(h, part) && GoesOn(g, h) && Neighbour(h, part) == Neighbour(g, part)
    ensures TriesLeft(h.nodes[Neighbour(g, part)]) < TriesLeft(g.nodes[Neighbour(g, part)])
  {
    h := SendsAgain(g, part);
    LeadsIsGo(g, h);
    OneTryLess(g.nodes[Neighbour(g, part)]);
  }

  lemma OneTryLess(nd: Node)
    requires Sending(nd)
    ensures var nd' := AckSenderTick(nd, nd.ackSender.lastSent + 1).0;
      TriesLeft(nd') < TriesLeft(nd) && nd'.sending == nd.sending && nd'.inflight == nd.inflight
  {
  }

  lemma AllLost(g: State, part: Part) returns (h: State)
    requires Sane(g) && Unnoticed(g, part) && !HasTries(g, part)
    ensures CanGo(g, h) && Sane(h) && Silenced(h, part) && GoesOn(g, h)
  {
    var lost := {AckOf(g, Neighbour(g, part))};
    OneMove(g, Loss(lost));
    LossSane(g, lost);
    h := g.(net := g.net - lost);
    LossSilences(g, h, part);
  }

  lemma LossSilences(g: State, h: State, part: Part)
    requires Unnoticed(g, part) && !HasTries(g, part) && h == g.(net := g.net - {AckOf(g, Neighbour(g, part))})
    ensures Silenced(h, part) && GoesOn(g, h)
  {
  }

  /** Any acknowledgement can be lost, and its sender gives up after so many tries. */
  lemma {:induction false} RunsDry(g: State, part: Part) returns (h: State)
    requires Sane(g) && Unnoticed(g, part)
    ensures CanGo(g, h) && Silenced(h, part) && GoesOn(g, h)
    decreases TriesLeft(g.nodes[Neighbour(g, part)])
  {
    if HasTries(g, part) {
      var g1 := OneTry(g, part);
      h := RunsDry(g1, part);
      GoOn(g, g1, h);
    } else {
      h := AllLost(g, part);
    }
  }

  /** So whenever a neighbour has done its part and the coordinator has not heard of it, the same join can
      still come to a dead end. */
  lemma DeadEndAhead(g: State, part: Part)
    requires LossyReached(g) && Joining(g) && Done(g, part) && !Confirmed(g, part)
    ensures exists h :: CanGo(g, h) && GoesOn(g, h) && Silenced(h, part)
  {
    ReachedSane(g);
    var g1 := Unblocked(g, part);
    var h := RunsDry(g1, part);
    GoOn(g, g1, h);
  }

  lemma Unblocked(g: State, part: Part) returns (h: State)
    requires Sane(g) && Joining(g) && Done(g, part) && !Confirmed(g, part)
    ensures CanGo(g, h) && Sane(h) && Unnoticed(h, part) && GoesOn(g, h)
  {
    JoinerNode(g);
    if part.TheJoiner? {
      h := g;
      GoesNowhere(g);
    } else {
      h := PrevReturns(g);
      LeadsIsGo(g, h);
      NoneElseActive(h);
    }
  }

  lemma NoneElseActive(g: State)
    requires RingOk(g)
    ensures forall n | n in g.nodes && n != g.ring[0] :: !g.nodes[n].inflight.active
  {
    forall n | n in g.nodes && n != g.ring[0] ensures !g.nodes[n].inflight.active { assert TokenOk(g, n, g.nodes[n]); }
  }

  /** A run of the program that ends there: of four processes the last joins, and its acknowledgements are lost. */
  lemma DeadEndReached(c: Name, x: Name, p: Name, j: Name)
    requires LateRequest.Four(c, x, p, j)
    ensures exists h :: LossyReached(h) && Silenced(h, TheJoiner) && h.ring[0] == c && Joiner(h) == j
  {
    var g, jn := LateRequest.JoinerIn(c, x, p, j);
    ReachedIsLossy(g);
    ReachedSane(g);
    HeadIs(g, c);
    DeadEndAhead(g, TheJoiner);
    var h :| CanGo(g, h) && GoesOn(g, h) && Silenced(h, TheJoiner);
    LossyReachedOn(g, h);
  }
}
