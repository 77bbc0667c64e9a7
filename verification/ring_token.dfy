/** The token leaves, arrives, and brings versions along; the invariant is kept. */
module RingToken {
  import opened Base
  import opened NodeModel
  import opened RingProtocol
  import opened RingInvariant
  import opened RingSteps

  /** Node `n` becomes `nd` in all the ring depends on; the others stay. */
  ghost predicate Becomes(g: State, h: State, n: Name, nd: Node) {
    && n in g.nodes && h.nodes.Keys == g.nodes.Keys
    && h.ports == g.ports && h.ids == g.ids && h.history == g.history
    && (forall m | m in g.nodes && m != n :: SameCore(g.nodes[m], h.nodes[m]))
    && SameCore(nd, h.nodes[n])
  }

  /** The send of the token returns. */
  lemma SendDoneToken(g: State, h: State, n: Name)
    requires Domain(g) && Domain(h) && OneToken(g) && Versions(g) && n in g.nodes && g.nodes[n].sending
    requires Becomes(g, h, n, EndForward(g.nodes[n])) && h.ring == g.ring && h.transit == g.transit
    ensures OneToken(h) && Versions(h)
  {
    assert TokenOk(g, n, g.nodes[n]);
    forall m | m in h.nodes ensures TokenOk(h, m, h.nodes[m]) { assert TokenOk(g, m, g.nodes[m]); }
  }

  lemma SendDone(g: State, h: State, n: Name)
    requires RingOk(g) && n in g.nodes && g.nodes[n].sending
    requires Becomes(g, h, n, EndForward(g.nodes[n])) && h.ring == g.ring && h.transit == g.transit
    ensures RingOk(h) && ViewOf(h) == ViewOf(g)
  {
    SameNames(g, h);
    SendDoneToken(g, h, n);
    SameRoutingRing(g, h);
  }

  function Arrived(nd: Node, t: Token): Node {
    nd.(tokenIn := t, haveToken := true, lastSeen := if t.version > nd.lastSeen then t.version else nd.lastSeen)
  }

  /** The token arrives at the first node of the ring. */
  lemma ArriveToken(g: State, h: State, t: Token)
    requires Domain(g) && Domain(h) && OneToken(g) && Versions(g)
    requires g.transit.Some? && g.transit.value.msg == TokenMsg(t) && !g.nodes[g.ring[0]].sending
    requires Becomes(g, h, g.ring[0], Arrived(g.nodes[g.ring[0]], t)) && h.ring == g.ring && h.transit.None?
    ensures OneToken(h) && Versions(h)
  {
    forall m | m in h.nodes ensures TokenOk(h, m, h.nodes[m]) { assert TokenOk(g, m, g.nodes[m]); }
  }

  lemma Arrive(g: State, h: State, t: Token)
    requires RingOk(g) && g.transit.Some? && g.transit.value.msg == TokenMsg(t)
    requires !g.nodes[g.ring[0]].sending
    requires Becomes(g, h, g.ring[0], Arrived(g.nodes[g.ring[0]], t)) && h.ring == g.ring && h.transit.None?
    ensures RingOk(h) && ViewOf(h) == ViewOf(g)
  {
    SameNames(g, h);
    ArriveToken(g, h, t);
    SameRoutingRing(g, h);
  }

  /** A node learns of a version no later than the current one. */
  lemma SeeVersionToken(g: State, h: State, n: Name, v: nat)
    requires Domain(g) && Domain(h) && OneToken(g) && Versions(g)
    requires n in g.nodes && g.nodes[n].lastSeen <= v <= |g.history|
    requires Becomes(g, h, n, g.nodes[n].(lastSeen := v)) && h.ring == g.ring && h.transit == g.transit
    ensures OneToken(h) && Versions(h)
  {
    forall m | m in h.nodes ensures TokenOk(h, m, h.nodes[m]) { assert TokenOk(g, m, g.nodes[m]); }
  }

  lemma SeeVersion(g: State, h: State, n: Name, v: nat)
    requires RingOk(g) && n in g.nodes && g.nodes[n].lastSeen <= v <= |g.history|
    requires Becomes(g, h, n, g.nodes[n].(lastSeen := v)) && h.ring == g.ring && h.transit == g.transit
    ensures RingOk(h) && ViewOf(h) == ViewOf(g)
  {
    SameNames(g, h);
    SeeVersionToken(g, h, n, v);
    SameRoutingRing(g, h);
  }

  // ------------------------------------------------- the token moves one place on

  lemma RotateIndex(ring: seq<Name>, i: nat)
    requires ring != [] && i < |ring|
    ensures |Rotate(ring)| == |ring|
    ensures Rotate(ring)[i] == NextIn(ring, i)
    ensures PrevIn(Rotate(ring), i) == ring[i]
    ensures NextIn(Rotate(ring), i) == NextIn(ring, if i + 1 < |ring| then i + 1 else 0)
  {
  }

  lemma RotateMembers(ring: seq<Name>)
    requires ring != []
    ensures forall n :: n in Rotate(ring) <==> n in ring
    ensures Distinct(ring) ==> Distinct(Rotate(ring))
    ensures Last(Rotate(ring)) == ring[0]
  {
    assert ring == [ring[0]] + ring[1..];
  }

  function Sending(nd: Node): Node { nd.(sending := true) }

  ghost predicate Moves(g: State, h: State, t: Token)
    requires Domain(g)
  {
    && Becomes(g, h, g.ring[0], Sending(g.nodes[g.ring[0]]))
    && h.ring == Rotate(g.ring)
    && h.transit == Some(Unicast(g.nodes[g.ring[0]].next, TokenMsg(t)))
  }

  lemma MoveNames(g: State, h: State, t: Token)
    requires Domain(g) && Names(g) && OneToken(g) && !Joining(g) && Moves(g, h, t)
    ensures Domain(h) && Names(h) && !Joining(h) && JoinPhase(h)
  {
    RotateMembers(g.ring);
    forall i: nat | i < |h.ring| ensures h.ring[i] in h.nodes { assert h.ring[i] in g.ring; }
    assert TokenOk(g, h.ring[0], g.nodes[h.ring[0]]) && TokenOk(g, g.ring[0], g.nodes[g.ring[0]]);
  }

  lemma MoveView(g: State, h: State, t: Token)
    requires Domain(g) && !Joining(g) && !Joining(h) && Moves(g, h, t)
    ensures Later(ViewOf(g), ViewOf(h))
  {
    RotateMembers(g.ring);
  }

  lemma MovePointers(g: State, h: State, t: Token)
    requires Domain(g) && Domain(h) && Pointers(g) && !Joining(g) && Moves(g, h, t)
    ensures Pointers(h)
  {
    forall i: nat {:trigger PrevIn(h.ring, i)} | i < |h.ring|
      ensures h.nodes[h.ring[i]].prev == RouteTo(h, PrevIn(h.ring, i))
      ensures h.nodes[h.ring[i]].next == RouteTo(h, NextIn(h.ring, i))
    {
      RotateIndex(g.ring, i);
      var j: nat := if i + 1 < |g.ring| then i + 1 else 0;
      assert h.ring[i] == g.ring[j];
      assert PrevIn(g.ring, j) == g.ring[i];
      assert NextIn(g.ring, j) == NextIn(h.ring, i);
    }
    assert forall i: nat {:trigger NextIn(h.ring, i)} | i < |h.ring| ::
        PrevIn(h.ring, i) == PrevIn(h.ring, i) && h.nodes[h.ring[i]].next == RouteTo(h, NextIn(h.ring, i));
  }

  lemma MoveMembers(g: State, h: State, t: Token)
    requires Domain(g) && Domain(h) && Membership(g) && HistoryOk(g) && !Joining(g) && Moves(g, h, t)
    ensures Membership(h) && HistoryOk(h)
  {
    RotateMembers(g.ring);
    forall m | m in h.nodes ensures MemberOk(h, m, h.nodes[m]) { assert MemberOk(g, m, g.nodes[m]); }
    forall i | 0 <= i < |h.history| ensures SpliceOk(h, h.history[i]) { assert SpliceOk(g, g.history[i]); }
    forall i | 0 <= i < |h.ring| && h.ids[h.ring[i]] != 0 ensures HasJoined(h.history, h.ring[i]) {
      assert h.ring[i] in g.ring;
    }
  }

  lemma MoveToken(g: State, h: State, t: Token)
    requires Domain(g) && Domain(h) && OneToken(g) && Versions(g) && Pointers(g) && !Joining(g) && Moves(g, h, t)
    requires g.transit.None? && t.version == |g.history|
    ensures OneToken(h) && Versions(h)
  {
    RotateMembers(g.ring);
    RotateIndex(g.ring, 0);
    assert NextIn(g.ring, 0) == h.ring[0];
    assert TokenOk(g, g.ring[0], g.nodes[g.ring[0]]);
    forall m | m in h.nodes ensures TokenOk(h, m, h.nodes[m]) { assert TokenOk(g, m, g.nodes[m]); }
  }

  lemma Move(g: State, h: State, t: Token)
    requires RingOk(g) && !Joining(g) && g.transit.None? && t.version == |g.history| && Moves(g, h, t)
    ensures RingOk(h) && !Joining(h) && Later(ViewOf(g), ViewOf(h))
  {
    MoveNames(g, h, t);
    MoveView(g, h, t);
    MovePointers(g, h, t);
    MoveMembers(g, h, t);
    MoveToken(g, h, t);
  }
}
