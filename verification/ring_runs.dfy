/** Going on from one state of the ring to another, with every join started for a node not joined yet. */
module RingRuns {
  import opened Base
  import opened NodeModel
  import opened RingProtocol
  import opened RingInvariant
  import opened RingTheorems

  /** The nodes can go on from `g` to `h`. */
  ghost predicate Leads(g: State, h: State) {
    exists states, labels ::
      Steps(states, labels) && JoinsStartFresh(states, labels) && states[0] == g && states[|labels|] == h
  }

  lemma LeadsSelf(g: State)
    ensures Leads(g, g)
  {
    var labels: seq<Label> := [];
    assert Steps([g], labels) && JoinsStartFresh([g], labels) && [g][0] == g && [g][|labels|] == g;
  }

  lemma LongerSteps(states: seq<State>, labels: seq<Label>, l: Label)
    requires Steps(states, labels) && JoinsStartFresh(states, labels)
    requires Enabled(states[|labels|], l) && StartsFresh(states[|labels|], l)
    ensures Steps(states + [Apply(states[|labels|], l)], labels + [l])
    ensures JoinsStartFresh(states + [Apply(states[|labels|], l)], labels + [l])
  {
    var states', labels' := states + [Apply(states[|labels|], l)], labels + [l];
    forall i: nat | i < |labels'| ensures StepAt(states', labels', i) && StartsFresh(states'[i], labels'[i]) {
      if i < |labels| {
        assert StepAt(states, labels, i);
        assert StartsFresh(states[i], labels[i]);
      }
    }
  }

  lemma LeadsNext(g: State, h: State, l: Label)
    requires Leads(g, h) && Enabled(h, l) && StartsFresh(h, l)
    ensures Leads(g, Apply(h, l))
  {
    var states, labels :|
      Steps(states, labels) && JoinsStartFresh(states, labels) && states[0] == g && states[|labels|] == h;
    LongerSteps(states, labels, l);
    var states', labels' := states + [Apply(h, l)], labels + [l];
    assert states'[0] == g && states'[|labels'|] == Apply(h, l);
  }

  lemma LeadsOn(g: State, h: State, k: State)
    requires Leads(g, h) && Leads(h, k)
    ensures Leads(g, k)
  {
    var states, labels :|
      Steps(states, labels) && JoinsStartFresh(states, labels) && states[0] == h && states[|labels|] == k;
    for i := 0 to |labels|
      invariant Leads(g, states[i])
    {
      LeadsOneOn(g, states, labels, i);
    }
  }

  lemma LeadsOneOn(g: State, states: seq<State>, labels: seq<Label>, i: nat)
    requires Steps(states, labels) && JoinsStartFresh(states, labels) && i < |labels| && Leads(g, states[i])
    ensures Leads(g, states[i + 1])
  {
    assert StepAt(states, labels, i);
    assert StartsFresh(states[i], labels[i]);
    LeadsNext(g, states[i], labels[i]);
  }

  /** Some run from a proper start ends in `g`. */
  ghost predicate Reached(g: State) { exists g0 :: Init(g0) && Leads(g0, g) }

  lemma ReachedStart(g: State)
    requires Init(g)
    ensures Reached(g)
  {
    LeadsSelf(g);
  }

  lemma ReachedNext(g: State, l: Label)
    requires Reached(g) && Enabled(g, l) && StartsFresh(g, l)
    ensures Reached(Apply(g, l))
  {
    var g0 :| Init(g0) && Leads(g0, g);
    LeadsNext(g0, g, l);
  }

  lemma ReachedInv(g: State)
    requires Reached(g)
    ensures Inv(g)
  {
    var g0 :| Init(g0) && Leads(g0, g);
    var states, labels :|
      Steps(states, labels) && JoinsStartFresh(states, labels) && states[0] == g0 && states[|labels|] == g;
    RunInv(states, labels, |labels|);
  }
}
