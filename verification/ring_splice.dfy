/** The steps of one splice: start, the two routing changes, confirmation, completion. */
module RingSplice {
  import opened Base
  import opened NodeModel
  import opened RingProtocol
  import opened RingInvariant
  import opened RingSteps

  // ---------------------------------------------------------- routing changes

  /** Node `n` gets new routes; nothing else the ring depends on changes. */
  ghost predicate Reroutes(g: State, h: State, n: Name, prev: Route, next: Route, joined: bool) {
    && n in g.nodes && h.nodes.Keys == g.nodes.Keys
    && h.ports == g.ports && h.ids == g.ids && h.ring == g.ring && h.history == g.history && h.transit == g.transit
    && (forall m | m in g.nodes && m != n :: SameCore(g.nodes[m], h.nodes[m]))
    && SameCore(g.nodes[n].(prev := prev, next := next, joined := joined), h.nodes[n])
  }

  lemma PutReroutes(g: State, n: Name, prev: Route, next: Route, joined: bool, nd: Node, out: seq<Packet>)
    requires n in g.nodes && SameCore(g.nodes[n].(prev := prev, next := next, joined := joined), nd)
    ensures Reroutes(g, Put(g, n, nd, out), n, prev, next, joined)
  {
  }

  lemma ReroutesNames(g: State, h: State, n: Name, prev: Route, next: Route, joined: bool)
    requires Domain(g) && Reroutes(g, h, n, prev, next, joined)
    ensures Domain(h) && (Names(g) ==> Names(h))
    ensures Joining(h) == Joining(g) && (Joining(g) ==> Joiner(h) == Joiner(g))
  {
  }

  lemma ReroutesToken(g: State, h: State, n: Name, prev: Route, next: Route, joined: bool)
    requires Domain(g) && Domain(h) && Reroutes(g, h, n, prev, next, joined)
    ensures OneToken(g) ==> OneToken(h)
    ensures Versions(g) ==> Versions(h)
  {
    forall m | m in g.nodes ensures TokenOk(g, m, g.nodes[m]) ==> TokenOk(h, m, h.nodes[m]) {
      ReroutesTokenAt(g, h, n, prev, next, joined, m);
    }
  }

  lemma ReroutesTokenAt(g: State, h: State, n: Name, prev: Route, next: Route, joined: bool, m: Name)
    requires Domain(g) && Domain(h) && Reroutes(g, h, n, prev, next, joined) && m in g.nodes
    ensures TokenOk(g, m, g.nodes[m]) ==> TokenOk(h, m, h.nodes[m])
  {
  }

  lemma ReroutesMember(g: State, h: State, n: Name, m: Name, prev: Route, next: Route, joined: bool)
    requires Domain(g) && Domain(h) && Reroutes(g, h, n, prev, next, joined) && m in g.nodes && m != n
    requires Joining(h) == Joining(g) && (Joining(g) ==> Joiner(h) == Joiner(g))
    ensures MemberOk(g, m, g.nodes[m]) ==> MemberOk(h, m, h.nodes[m])
  {
  }

  /** The joiner applies the accept. */
  lemma JoinerPointers(g: State, h: State, n: Name)
    requires Domain(g) && Pointers(g) && Joining(g) && n == Joiner(g) && Domain(h) && n !in g.ring
    requires Reroutes(g, h, n, RouteTo(g, Last(g.ring)), RouteTo(g, g.ring[0]), true)
    ensures Pointers(h)
  {
  }

  lemma JoinerRest(g: State, h: State, n: Name)
    requires Domain(g) && Membership(g) && HistoryOk(g) && n !in g.ring
    requires Joining(g) && n == Joiner(g) && Domain(h) && Joining(h) && Joiner(h) == n
    requires Reroutes(g, h, n, RouteTo(g, Last(g.ring)), RouteTo(g, g.ring[0]), true)
    ensures Membership(h) && HistoryOk(h)
  {
    forall m | m in h.nodes ensures MemberOk(h, m, h.nodes[m]) {
      if m != n {
        assert MemberOk(g, m, g.nodes[m]);
        ReroutesMember(g, h, n, m, RouteTo(g, Last(g.ring)), RouteTo(g, g.ring[0]), true);
      }
    }
    forall i | 0 <= i < |h.history| ensures SpliceOk(h, h.history[i]) { assert SpliceOk(g, g.history[i]); }
  }

  lemma JoinerPhase(g: State, h: State, n: Name)
    requires Domain(g) && JoinPhase(g) && Joining(g) && n == Joiner(g) && Domain(h) && Joining(h) && Joiner(h) == n
    requires Reroutes(g, h, n, RouteTo(g, Last(g.ring)), RouteTo(g, g.ring[0]), true)
    ensures JoinPhase(h) && Later(ViewOf(g), ViewOf(h)) && ViewOf(h).joinerDone
  {
    assert n !in g.ring;
  }

  lemma JoinerApplies(g: State, h: State)
    requires RingOk(g) && Joining(g) && Joiner(g) in g.nodes
    requires Reroutes(g, h, Joiner(g), RouteTo(g, Last(g.ring)), RouteTo(g, g.ring[0]), true)
    ensures RingOk(h) && Later(ViewOf(g), ViewOf(h)) && ViewOf(h).joinerDone
  {
    var n, prev, next := Joiner(g), RouteTo(g, Last(g.ring)), RouteTo(g, g.ring[0]);
    ReroutesNames(g, h, n, prev, next, true);
    ReroutesToken(g, h, n, prev, next, true);
    JoinerPointers(g, h, n);
    JoinerRest(g, h, n);
    JoinerPhase(g, h, n);
  }

  /** The predecessor applies the accept. */
  lemma PrevPointers(g: State, h: State, n: Name)
    requires Domain(g) && Pointers(g) && Distinct(g.ring)
    requires Joining(g) && n == Last(g.ring) && Domain(h) && Joining(h) && Joiner(h) == Joiner(g)
    requires Reroutes(g, h, n, g.nodes[n].prev, RouteTo(g, Joiner(g)), true)
    ensures Pointers(h)
  {
    assert g.ring[|g.ring| - 1] == n;
  }

  lemma PrevMembers(g: State, h: State, n: Name)
    requires Domain(g) && Membership(g)
    requires Joining(g) && n == Last(g.ring) && Domain(h) && Joining(h) && Joiner(h) == Joiner(g)
    requires Reroutes(g, h, n, g.nodes[n].prev, RouteTo(g, Joiner(g)), true)
    ensures Membership(h)
  {
    assert g.ring[|g.ring| - 1] == n;
    forall m | m in h.nodes ensures MemberOk(h, m, h.nodes[m]) {
      if m != n {
        assert MemberOk(g, m, g.nodes[m]);
        ReroutesMember(g, h, n, m, g.nodes[n].prev, RouteTo(g, Joiner(g)), true);
      }
    }
  }

  lemma PrevHistory(g: State, h: State, n: Name)
    requires Domain(g) && HistoryOk(g) && Joining(g) && n == Last(g.ring) && Domain(h) && Joiner(g) !in g.ring
    requires Reroutes(g, h, n, g.nodes[n].prev, RouteTo(g, Joiner(g)), true)
    ensures HistoryOk(h)
  {
    forall i | 0 <= i < |h.history| ensures SpliceOk(h, h.history[i]) { assert SpliceOk(g, g.history[i]); }
  }

  lemma PrevPhase(g: State, h: State, n: Name)
    requires Domain(g) && JoinPhase(g) && Joining(g) && n == Last(g.ring) && Domain(h) && Joining(h)
    requires Joiner(h) == Joiner(g)
    requires Reroutes(g, h, n, g.nodes[n].prev, RouteTo(g, Joiner(g)), true)
    ensures JoinPhase(h) && Later(ViewOf(g), ViewOf(h)) && ViewOf(h).prevDone
  {
    assert g.ring[|g.ring| - 1] == n;
  }

  lemma PrevApplies(g: State, h: State)
    requires RingOk(g) && Joining(g)
    requires Reroutes(g, h, Last(g.ring), g.nodes[Last(g.ring)].prev, RouteTo(g, Joiner(g)), true)
    ensures RingOk(h) && Later(ViewOf(g), ViewOf(h)) && ViewOf(h).prevDone
  {
    var n := Last(g.ring);
    ReroutesNames(g, h, n, g.nodes[n].prev, RouteTo(g, Joiner(g)), true);
    ReroutesToken(g, h, n, g.nodes[n].prev, RouteTo(g, Joiner(g)), true);
    PrevPointers(g, h, n);
    PrevMembers(g, h, n);
    PrevHistory(g, h, n);
    PrevPhase(g, h, n);
  }
}
