/** Start, confirmation and completion of a join keep the invariant. */
module RingComplete {
  import opened JoinTable
  import opened NodeModel
  import opened RingProtocol
  import opened RingInvariant
  import opened RingSteps

  /** Only the node at the token's place changes, and it becomes `nd` in all the ring depends on. */
  ghost predicate HeadBecomes(g: State, h: State, nd: Node) {
    && g.ring != [] && g.ring[0] in g.nodes && h.nodes.Keys == g.nodes.Keys
    && h.ports == g.ports && h.ids == g.ids && h.transit == g.transit
    && (forall m | m in g.nodes && m != g.ring[0] :: SameCore(g.nodes[m], h.nodes[m]))
    && SameCore(nd, h.nodes[g.ring[0]])
  }

  ghost predicate SameRecord(g: State, h: State) { h.ring == g.ring && h.history == g.history }

  // -------------------------------------------------------------- inflight

  function WithInflight(g: State, f: Inflight): Node
    requires g.ring != [] && g.ring[0] in g.nodes
  {
    g.nodes[g.ring[0]].(inflight := f)
  }

  /** A change of the in-flight record leaves pointers, versions and history as they are. */
  lemma InflightFrame(g: State, h: State, f: Inflight)
    requires Domain(g) && HeadBecomes(g, h, WithInflight(g, f)) && SameRecord(g, h)
    ensures Domain(h) && (Names(g) ==> Names(h)) && (Versions(g) ==> Versions(h))
  {
  }

  lemma InflightHistory(g: State, h: State, f: Inflight)
    requires Domain(g) && Domain(h) && HeadBecomes(g, h, WithInflight(g, f)) && SameRecord(g, h)
    ensures HistoryOk(g) ==> HistoryOk(h)
  {
    forall s | SpliceOk(g, s) ensures SpliceOk(h, s) {}
  }

  lemma InflightToken(g: State, h: State, f: Inflight)
    requires Domain(g) && Domain(h) && OneToken(g)
    requires HeadBecomes(g, h, WithInflight(g, f)) && SameRecord(g, h)
    requires g.transit.None?
    ensures OneToken(h)
  {
    forall m | m in h.nodes ensures TokenOk(h, m, h.nodes[m]) { assert TokenOk(g, m, g.nodes[m]); }
  }

  lemma InflightPointers(g: State, h: State, f: Inflight)
    requires Domain(g) && Domain(h) && Pointers(g)
    requires HeadBecomes(g, h, WithInflight(g, f)) && SameRecord(g, h)
    requires Joining(g) ==> Joining(h) && Joiner(h) == Joiner(g)
    ensures Pointers(h)
  {
  }

  lemma InflightMembers(g: State, h: State, f: Inflight)
    requires Domain(g) && Domain(h) && Membership(g)
    requires HeadBecomes(g, h, WithInflight(g, f)) && SameRecord(g, h)
    requires Joining(g) ==> Joining(h) && Joiner(h) == Joiner(g)
    ensures Membership(h)
  {
    forall m | m in h.nodes ensures MemberOk(h, m, h.nodes[m]) { assert MemberOk(g, m, g.nodes[m]); }
  }

  lemma InflightRing(g: State, h: State, f: Inflight)
    requires RingOk(g) && g.transit.None?
    requires HeadBecomes(g, h, WithInflight(g, f)) && SameRecord(g, h)
    requires Joining(g) ==> Joining(h) && Joiner(h) == Joiner(g)
    requires Domain(h) && JoinPhase(h)
    ensures RingOk(h)
  {
    InflightFrame(g, h, f);
    InflightHistory(g, h, f);
    InflightToken(g, h, f);
    InflightPointers(g, h, f);
    InflightMembers(g, h, f);
  }

  // --------------------------------------------------------------- confirm

  /** The part of the splice a confirmation stands for is done. */
  ghost predicate FlagsTrue(g: State, gotPrev: bool, gotJoiner: bool)
    requires Domain(g) && Joining(g)
  {
    && (gotPrev ==> Last(g.ring) == g.ring[0] || ViewOf(g).prevDone)
    && (gotJoiner ==> ViewOf(g).joinerDone)
    && (g.nodes[g.ring[0]].inflight.gotPrev ==> gotPrev)
  }

  lemma ConfirmPhase(g: State, h: State, gotPrev: bool, gotJoiner: bool)
    requires Domain(g) && Names(g) && Pointers(g) && JoinPhase(g) && Joining(g) && FlagsTrue(g, gotPrev, gotJoiner)
    requires HeadBecomes(g, h,
      WithInflight(g, g.nodes[g.ring[0]].inflight.(gotPrev := gotPrev, gotJoiner := gotJoiner)))
    requires SameRecord(g, h)
    ensures Domain(h) && JoinPhase(h) && Joining(h) && Joiner(h) == Joiner(g)
  {
    assert NextIn(g.ring, |g.ring| - 1) == g.ring[0];
  }

  lemma ConfirmRing(g: State, h: State, gotPrev: bool, gotJoiner: bool)
    requires RingOk(g) && Joining(g) && FlagsTrue(g, gotPrev, gotJoiner)
    requires HeadBecomes(g, h,
      WithInflight(g, g.nodes[g.ring[0]].inflight.(gotPrev := gotPrev, gotJoiner := gotJoiner)))
    requires SameRecord(g, h)
    ensures RingOk(h) && Joining(h) && Joiner(h) == Joiner(g)
  {
    assert TokenOk(g, g.ring[0], g.nodes[g.ring[0]]);
    ConfirmPhase(g, h, gotPrev, gotJoiner);
    InflightRing(g, h, g.nodes[g.ring[0]].inflight.(gotPrev := gotPrev, gotJoiner := gotJoiner));
  }

  lemma ConfirmView(g: State, h: State, gotPrev: bool, gotJoiner: bool)
    requires Domain(g) && Joining(g)
    requires HeadBecomes(g, h,
      WithInflight(g, g.nodes[g.ring[0]].inflight.(gotPrev := gotPrev, gotJoiner := gotJoiner)))
    requires SameRecord(g, h)
    ensures ViewOf(h) == ViewOf(g)
  {
  }

  // ----------------------------------------------------------------- start

  function StartRecord(g: State, e: PendingJoin): Inflight
    requires Domain(g)
  {
    StartInflight(g.nodes[g.ring[0]], e).inflight
  }

  lemma StartPhase(g: State, h: State, e: PendingJoin)
    requires Domain(g) && Names(g) && Pointers(g)
    requires PendingOk(g.ids, g.ports, g.ring[0], e) && e.name !in g.ring
    requires HeadBecomes(g, h, WithInflight(g, StartRecord(g, e))) && SameRecord(g, h)
    ensures Domain(h) && JoinPhase(h) && Joining(h) && Joiner(h) == e.name
  {
    assert PrevIn(g.ring, 0) == Last(g.ring);
  }

  lemma Start(g: State, h: State, e: PendingJoin)
    requires RingOk(g) && !Joining(g) && g.transit.None?
    requires PendingOk(g.ids, g.ports, g.ring[0], e) && e.name !in g.ring
    requires HeadBecomes(g, h, WithInflight(g, StartRecord(g, e))) && SameRecord(g, h)
    ensures RingOk(h) && Joining(h) && Joiner(h) == e.name && Later(ViewOf(g), ViewOf(h))
  {
    StartPhase(g, h, e);
    InflightRing(g, h, StartRecord(g, e));
  }

  // -------------------------------------------------------------- complete

  function CompletedHead(g: State): Node
    requires Joining(g)
  {
    var nd := g.nodes[g.ring[0]];
    var v := |g.history| + 1;
    nd.(prev := RouteTo(g, Joiner(g)),
        next := if Last(g.ring) == g.ring[0] then RouteTo(g, Joiner(g)) else nd.next,
        lastSeen := v, tokenIn := nd.tokenIn.(version := v),
        inflight := nd.inflight.(active := false, gotPrev := false, gotJoiner := false))
  }

  ghost predicate Completes(g: State, h: State)
    requires Domain(g) && Joining(g)
  {
    && HeadBecomes(g, h, CompletedHead(g))
    && h.ring == g.ring + [Joiner(g)]
    && h.history == g.history + [Splice(Joiner(g), Last(g.ring), g.ring[0])]
  }

  /** Both confirmations are in. */
  ghost predicate Confirmed(g: State) {
    Joining(g) && g.nodes[g.ring[0]].inflight.gotPrev && g.nodes[g.ring[0]].inflight.gotJoiner
  }

  lemma CompleteNames(g: State, h: State)
    requires Domain(g) && Names(g) && JoinPhase(g) && Confirmed(g) && Completes(g, h)
    ensures Domain(h) && Names(h) && !Joining(h) && JoinPhase(h)
  {
    CompleteDomain(g, h);
    CompleteDistinct(g, h);
  }

  lemma CompleteDomain(g: State, h: State)
    requires Domain(g) && JoinPhase(g) && Confirmed(g) && Completes(g, h)
    ensures Domain(h) && !Joining(h)
  {
    assert h.ring[|g.ring|] == Joiner(g);
  }

  lemma CompleteDistinct(g: State, h: State)
    requires Domain(g) && Names(g) && JoinPhase(g) && Confirmed(g) && Completes(g, h)
    ensures Distinct(h.ring) && |h.history| < |h.ring|
  {
    assert forall i | 0 <= i < |g.ring| :: h.ring[i] == g.ring[i];
    assert h.ring[|g.ring|] == Joiner(g);
  }

  lemma CompleteIsLater(g: State, h: State)
    requires Domain(g) && Joining(g) && Completes(g, h)
    ensures Later(ViewOf(g), ViewOf(h))
  {
    assert h.ring[|g.ring|] == Joiner(g);
    assert h.history[|g.history|] == Splice(Joiner(g), Last(g.ring), g.ring[0]);
    forall n | n in g.ring ensures n in h.ring {}
  }

  lemma CompletePrev(g: State, h: State, i: nat)
    requires Domain(g) && Distinct(g.ring) && Pointers(g) && Membership(g) && JoinPhase(g) && Confirmed(g)
    requires Completes(g, h) && Domain(h) && i < |h.ring|
    ensures h.nodes[h.ring[i]].prev == RouteTo(h, PrevIn(h.ring, i))
  {
    if i < |g.ring| {
      assert i > 0 ==> PrevIn(g.ring, i) == PrevIn(h.ring, i);
    } else {
      assert MemberOk(g, Joiner(g), g.nodes[Joiner(g)]);
    }
  }

  lemma CompleteNext(g: State, h: State, i: nat)
    requires Domain(g) && Distinct(g.ring) && Pointers(g) && Membership(g) && JoinPhase(g) && Confirmed(g)
    requires Completes(g, h) && Domain(h) && i < |h.ring|
    ensures h.nodes[h.ring[i]].next == RouteTo(h, NextIn(h.ring, i))
  {
    if i < |g.ring| {
      assert i + 1 < |g.ring| ==> NextIn(g.ring, i) == NextIn(h.ring, i);
    } else {
      assert MemberOk(g, Joiner(g), g.nodes[Joiner(g)]);
    }
  }

  lemma CompleteMembers(g: State, h: State)
    requires Domain(g) && Membership(g) && JoinPhase(g) && Confirmed(g) && Completes(g, h) && Domain(h)
    ensures Membership(h)
  {
    assert h.ring[|g.ring|] == Joiner(g);
    forall m | m in h.nodes ensures MemberOk(h, m, h.nodes[m]) { assert MemberOk(g, m, g.nodes[m]); }
  }

  lemma CompleteToken(g: State, h: State)
    requires Domain(g) && OneToken(g) && Versions(g) && Joining(g) && Completes(g, h) && Domain(h)
    ensures OneToken(h) && Versions(h)
  {
    assert TokenOk(g, g.ring[0], g.nodes[g.ring[0]]);
    forall m | m in h.nodes ensures TokenOk(h, m, h.nodes[m]) { assert TokenOk(g, m, g.nodes[m]); }
  }

  lemma CompleteHistory(g: State, h: State)
    requires Domain(g) && HistoryOk(g) && Pointers(g) && JoinPhase(g) && Confirmed(g) && Completes(g, h) && Domain(h)
    ensures HistoryOk(h)
  {
    CompleteSplices(g, h);
    CompleteJoined(g, h);
  }

  lemma CompleteSplices(g: State, h: State)
    requires Domain(g) && HistoryOk(g) && Pointers(g) && JoinPhase(g) && Confirmed(g) && Completes(g, h) && Domain(h)
    ensures forall i | 0 <= i < |h.history| :: SpliceOk(h, h.history[i])
    ensures forall i, j | 0 <= i < j < |h.history| :: h.history[i].joiner != h.history[j].joiner
  {
    var k := |g.history|;
    assert h.ring[|g.ring|] == Joiner(g);
    assert h.history[k].joiner == Joiner(g);
    forall i | 0 <= i < |h.history| ensures SpliceOk(h, h.history[i]) {
      if i < k { assert SpliceOk(g, g.history[i]); }
    }
    forall i, j | 0 <= i < j < |h.history| ensures h.history[i].joiner != h.history[j].joiner {
      assert SpliceOk(g, g.history[i]);
    }
  }

  lemma CompleteJoined(g: State, h: State)
    requires Domain(g) && HistoryOk(g) && Confirmed(g) && Completes(g, h) && Domain(h)
    ensures forall i | 0 <= i < |h.ring| && h.ids[h.ring[i]] != 0 :: HasJoined(h.history, h.ring[i])
  {
    var k := |g.history|;
    assert h.history[k].joiner == Joiner(g);
    forall i | 0 <= i < |h.ring| && h.ids[h.ring[i]] != 0 ensures HasJoined(h.history, h.ring[i]) {
      if i < |g.ring| {
        assert HasJoined(g.history, g.ring[i]);
        var a :| 0 <= a < k && g.history[a].joiner == g.ring[i];
        assert h.history[a].joiner == h.ring[i];
      }
    }
  }

  lemma Complete(g: State, h: State)
    requires RingOk(g) && Confirmed(g) && Completes(g, h)
    ensures RingOk(h) && !Joining(h) && Later(ViewOf(g), ViewOf(h))
  {
    CompleteNames(g, h);
    CompleteIsLater(g, h);
    forall i: nat {:trigger PrevIn(h.ring, i)} | i < |h.ring|
      ensures h.nodes[h.ring[i]].prev == RouteTo(h, PrevIn(h.ring, i)) { CompletePrev(g, h, i); }
    forall i: nat {:trigger NextIn(h.ring, i)} | i < |h.ring|
      ensures h.nodes[h.ring[i]].next == RouteTo(h, NextIn(h.ring, i)) { CompleteNext(g, h, i); }
    CompleteMembers(g, h);
    CompleteToken(g, h);
    CompleteHistory(g, h);
  }
}
