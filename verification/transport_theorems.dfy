/** What the transport promises over whole runs, and what happens outside its hypothesis. */
module TransportTheorems {
  import opened Base
  import opened ParkedFrames
  import opened Rudp
  import opened Transport
  import opened TransportSteps
  import opened TransportRuns

  lemma InitialInv(a: Addr, b: Addr)
    ensures Inv(Initial(a, b))
  {
    NothingParkedIn(EmptyTable());
  }

  lemma NothingParkedIn(t: Table)
    requires forall i | 0 <= i < |t| :: t[i].None?
    ensures !HasPending(t) && forall a, k, b :: TakeFrame(t, a, k, b) == (t, None)
  {
  }

  /** A payload of that epoch is in the receiver's hand or in its table. */
  ghost predicate Holds(r: Receiver, payloads: seq<string>) {
    || (r.mode.Replying? && r.mode.expected && r.mode.message.data in payloads)
    || (exists i :: 0 <= i < |r.table| && IsMessage(r.table[i]) && r.table[i].value.data in payloads)
  }

  /** The delivery guarantee. Deliveries follow the epochs in order, one payload of each and never two;
      every closed epoch is delivered, or its payload is held by the receiver; at rest all are delivered. */
  ghost predicate Guarantee(s: State) {
    && |s.delivered| <= |s.epochs|
    && (forall i | 0 <= i < |s.delivered| :: s.delivered[i] in s.epochs[i])
    && |s.epochs| - 2 <= |s.delivered|
    && (|s.delivered| < |s.epochs| - 1 ==> Holds(s.rcv, s.epochs[|s.delivered|]))
    && (AtRest(s.rcv) ==> |s.epochs| - 1 <= |s.delivered|)
  }

  /** Whatever has been acknowledged is delivered or held. */
  lemma AcceptedIsHeld(s: State)
    requires Inv(s) && |s.delivered| < s.accepted
    ensures |s.delivered| + 1 == s.accepted && Holds(s.rcv, s.epochs[s.accepted - 1])
  {
    if s.rcv.mode.Idle? {
      PendingMeans(s.rcv.table);
      var i :| 0 <= i < |s.rcv.table| && IsMessage(s.rcv.table[i]);
      assert IsCopy(s.rcv.table[i].value, s.snd.me, s.accepted, s.epochs);
    }
  }

  lemma InvGuarantees(s: State)
    requires Inv(s)
    ensures Guarantee(s)
  {
    if |s.delivered| < s.accepted { AcceptedIsHeld(s); }
  }

  lemma TransportSafety(a: Addr, b: Addr, ls: seq<Label>, t: State)
    requires IsRun(Initial(a, b), ls, t) && OrderlyRun(Initial(a, b), ls)
    ensures Inv(t) && Guarantee(t)
  {
    InitialInv(a, b);
    RunKeepsInv(Initial(a, b), ls, t);
    InvGuarantees(t);
  }

  /** The sender's bit flips only when the receiver has delivered, or holds, a payload of this epoch,
      and only by reading an ACK off the socket: no parked one is ever mistaken for it. */
  lemma AckSoundness(s: State, l: Label)
    requires Inv(s) && Enabled(s, l) && Apply(s, l).snd.bit != s.snd.bit
    ensures l.SendRead? && Apply(s, l).epochs == s.epochs + [[]]
    ensures |s.delivered| == |s.epochs| || Holds(s.rcv, s.epochs[|s.epochs| - 1])
  {
    match l
    case Begin(payload, limit) =>
      PurgeShape(s.snd);
      TransmitShape(s.snd.(job := Some(Sending(payload, 0, limit, |s.epochs| - 1)),
                           table := DropPeer(DropPeer(s.snd.table, s.snd.peer, ACK), s.snd.peer, ACK_ACK)));
    case SendTick =>
      var j := s.snd.job.value;
      TransmitShape(s.snd.(job := Some(j.(attempts := j.attempts + 1))));
    case SendRead =>
      AckIsSound(s);
      if |s.delivered| < s.accepted { AcceptedIsHeld(s); }
    case _ =>
  }

  // --------------------------------------------- outside the hypothesis

  /** The hypothesis is exact for the invariant: every step keeps it if and only if it is orderly. */
  lemma OrderlyIsExact(s: State, l: Label)
    requires Inv(s) && Enabled(s, l)
    ensures Inv(Apply(s, l)) <==> Orderly(s, l)
  {
    if Orderly(s, l) {
      StepKeepsInv(s, l);
    } else {
      DisorderlyBreaks(s);
    }
  }

  lemma DisorderlyBreaks(s: State)
    requires Inv(s) && Enabled(s, Wait) && !Orderly(s, Wait)
    ensures !Inv(Apply(s, Wait))
  {
    var f := s.data[0].frame;
    var t := Apply(s, Wait);
    assert t.accepted == f.epoch + 1 > s.accepted;
    if s.rcv.mode.Idle? {
      PendingMeans(s.rcv.table);
      var i :| 0 <= i < |s.rcv.table| && IsMessage(s.rcv.table[i]);
      assert IsCopy(s.rcv.table[i].value, s.snd.me, s.accepted, s.epochs);
      assert t.rcv.table[i] == s.rcv.table[i];
    }
  }
}
