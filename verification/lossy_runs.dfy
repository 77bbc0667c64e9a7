/** Runs in which the network loses packets for good. */
module LossyRuns {
  import opened NodeModel
  import opened RingProtocol
  import opened RingInvariant
  import opened RingSteps
  import opened RingRuns

  /** A step of a node, or the loss of some packets. */
  datatype Move = Step(l: Label) | Loss(lost: set<Packet>)

  predicate CanMove(g: State, m: Move) { m.Step? ==> Enabled(g, m.l) }

  function Next(g: State, m: Move): State
    requires CanMove(g, m)
  {
    match m
    case Step(l) => Apply(g, l)
    case Loss(lost) => g.(net := g.net - lost)
  }

  /** The moves `ms` lead from `g` to `h`. */
  ghost predicate Goes(g: State, ms: seq<Move>, h: State)
    decreases |ms|
  {
    if ms == [] then h == g else CanMove(g, ms[0]) && Goes(Next(g, ms[0]), ms[1..], h)
  }

  /** A join started on the way is for a node that has not joined yet. */
  ghost predicate AllFresh(g: State, ms: seq<Move>)
    decreases |ms|
  {
    ms != [] && CanMove(g, ms[0]) ==> (ms[0].Step? ==> StartsFresh(g, ms[0].l)) && AllFresh(Next(g, ms[0]), ms[1..])
  }

  ghost predicate CanGo(g: State, h: State) { exists ms :: Goes(g, ms, h) && AllFresh(g, ms) }

  lemma GoesNowhere(g: State)
    ensures CanGo(g, g)
  {
    assert Goes(g, [], g) && AllFresh(g, []);
  }

  lemma MoveThen(g: State, m: Move, h: State)
    requires CanMove(g, m) && (m.Step? ==> StartsFresh(g, m.l)) && CanGo(Next(g, m), h)
    ensures CanGo(g, h)
  {
    var ms :| Goes(Next(g, m), ms, h) && AllFresh(Next(g, m), ms);
    assert ([m] + ms)[1..] == ms;
    assert Goes(g, [m] + ms, h) && AllFresh(g, [m] + ms);
  }

  lemma OneMove(g: State, m: Move)
    requires CanMove(g, m) && (m.Step? ==> StartsFresh(g, m.l))
    ensures CanGo(g, Next(g, m))
  {
    GoesNowhere(Next(g, m));
    MoveThen(g, m, Next(g, m));
  }

  lemma {:induction false} MovesThen(g: State, ms: seq<Move>, h: State, k: State)
    requires Goes(g, ms, h) && AllFresh(g, ms) && CanGo(h, k)
    ensures CanGo(g, k)
    decreases |ms|
  {
    if ms != [] {
      MovesThen(Next(g, ms[0]), ms[1..], h, k);
      MoveThen(g, ms[0], k);
    }
  }

  lemma GoOn(g: State, h: State, k: State)
    requires CanGo(g, h) && CanGo(h, k)
    ensures CanGo(g, k)
  {
    var ms :| Goes(g, ms, h) && AllFresh(g, ms);
    MovesThen(g, ms, h, k);
  }

  /** Nothing need be lost. */
  lemma LeadsIsGo(g: State, h: State)
    requires Leads(g, h)
    ensures CanGo(g, h)
  {
    var states, labels :|
      Steps(states, labels) && JoinsStartFresh(states, labels) && states[0] == g && states[|labels|] == h;
    GoesNowhere(g);
    for i := 0 to |labels|
      invariant CanGo(g, states[i])
    {
      assert StepAt(states, labels, i);
      assert StartsFresh(states[i], labels[i]);
      OneMove(states[i], Step(labels[i]));
      GoOn(g, states[i], states[i + 1]);
    }
  }

  /** Some run from a proper start, with any losses on the way, ends in `g`. */
  ghost predicate LossyReached(g: State) { exists g0 :: Init(g0) && CanGo(g0, g) }

  lemma ReachedIsLossy(g: State)
    requires Reached(g)
    ensures LossyReached(g)
  {
    var g0 :| Init(g0) && Leads(g0, g);
    LeadsIsGo(g0, g);
  }

  lemma LossyReachedOn(g: State, h: State)
    requires LossyReached(g) && CanGo(g, h)
    ensures LossyReached(h)
  {
    var g0 :| Init(g0) && CanGo(g0, g);
    GoOn(g0, g, h);
  }

  /** A loss makes nothing untrue. */
  lemma LossKeepsInv(g: State, lost: set<Packet>)
    requires Inv(g)
    ensures Inv(g.(net := g.net - lost)) && ViewOf(g.(net := g.net - lost)) == ViewOf(g)
  {
    var h := g.(net := g.net - lost);
    SameCoresRing(g, h);
  }
}
