/** Messages acknowledged early, while the receiver waits for something else: when it can tell that one is
    fresh, and when the extra read throws it away. */
module TransportEarly {
  import opened Base
  import opened ParkedFrames
  import opened Rudp
  import opened Transport
  import opened TransportSteps
  import opened TransportRuns
  import opened TransportTheorems

  // ------------------------------------------------------- freshness by bits

  /** While replying, a message read is fresh exactly when its bit differs from the one in hand. */
  lemma FreshWhileReplying(s: State)
    requires Inv(s) && s.rcv.mode.Replying? && s.data != [] && s.data[0].frame.kind.MESSAGE?
    ensures IsFresh(s, s.data[0].frame) <==> s.data[0].frame.bit != s.rcv.mode.message.bit
  {
    if s.data[0].frame.bit == s.rcv.mode.message.bit { BitTells(s.data[0].frame.epoch, s.rcv.mode.message.epoch); }
  }

  /** With a message parked, exactly when its bit differs from the parked one's. */
  lemma FreshWhileParked(s: State, i: nat)
    requires Inv(s) && i < |s.rcv.table| && IsMessage(s.rcv.table[i])
    requires s.data != [] && s.data[0].frame.kind.MESSAGE?
    ensures IsFresh(s, s.data[0].frame) <==> s.data[0].frame.bit != s.rcv.table[i].value.bit
  {
    assert IsCopy(s.rcv.table[i].value, s.snd.me, s.accepted, s.epochs);
    if s.data[0].frame.bit == s.rcv.table[i].value.bit { BitTells(s.data[0].frame.epoch, s.rcv.table[i].value.epoch); }
  }

  /** What the receiver can check for itself when it hears `f`: nothing but its own mode, table and bits. */
  predicate CanHear(r: Receiver, f: Frame) {
    (f.kind.MESSAGE? && Store(r.table, f).1) ==>
      match r.mode
      case Replying(m, _, _) => f.bit == m.bit
      case Idle => HasPending(r.table) ==> f.bit == r.table[FirstMessage(r.table, 0)].value.bit
      case Discarding => false
  }

  /** The hypothesis of the transport is that check. */
  lemma OrderlyByBits(s: State)
    requires Inv(s) && Enabled(s, Wait)
    ensures Orderly(s, Wait) <==> CanHear(s.rcv, s.data[0].frame)
  {
    if s.data[0].frame.kind.MESSAGE? {
      if s.rcv.mode.Replying? { FreshWhileReplying(s); }
      if HasPending(s.rcv.table) { FreshWhileParked(s, FirstMessage(s.rcv.table, 0)); }
    }
  }

  // ------------------------------------------- early while replying to a duplicate

  /** A parked message has the bit the receiver expects. */
  ghost predicate HoldsExpected(r: Receiver) {
    exists i :: 0 <= i < |r.table| && IsMessage(r.table[i]) && r.table[i].value.bit == r.bit
  }

  /** The frame taken next carries the expected bit and is the last parked copy that does. */
  ghost predicate TakesLastExpected(r: Receiver) {
    var k := FirstMessage(r.table, 0);
    && k < |r.table| && r.table[k].value.bit == r.bit
    && forall j | 0 <= j < |r.table| && j != k && IsMessage(r.table[j]) :: r.table[j].value.bit != r.bit
  }

  /** The discarded read throws the last expected message away exactly when it is the one it takes. */
  lemma ExtraReadExact(s: State)
    requires s.rcv.mode.Discarding? && HoldsExpected(s.rcv)
    ensures var u := Apply(s, TryReceive);
      && u.rcv.mode.Idle? && u.delivered == s.delivered && u.rcv.bit == s.rcv.bit
      && u.rcv.table == s.rcv.table[FirstMessage(s.rcv.table, 0) := None]
      && (!HoldsExpected(u.rcv) <==> TakesLastExpected(s.rcv))
  {
    var u, k := Apply(s, TryReceive), FirstMessage(s.rcv.table, 0);
    var i :| 0 <= i < |s.rcv.table| && IsMessage(s.rcv.table[i]) && s.rcv.table[i].value.bit == s.rcv.bit;
    if j :| 0 <= j < |s.rcv.table| && j != k && IsMessage(s.rcv.table[j]) && s.rcv.table[j].value.bit == s.rcv.bit {
      assert u.rcv.table[j] == s.rcv.table[j];
    }
    if j :| 0 <= j < |u.rcv.table| && IsMessage(u.rcv.table[j]) && u.rcv.table[j].value.bit == u.rcv.bit {
      assert u.rcv.table[j] == s.rcv.table[j];
    }
  }

  /** The receiver is past an early acknowledgement, in the same reply to a duplicate. */
  ghost predicate Owes(s: State, bit: Bit, delivered: seq<string>) {
    && s.rcv.bit == bit && s.delivered == delivered && |delivered| < s.accepted
    && (s.rcv.mode.Discarding? || (s.rcv.mode.Replying? && !s.rcv.mode.expected))
    && HoldsExpected(s.rcv)
  }

  lemma ReceiverKeepsMessages(r: Receiver, f: Frame)
    requires r.mode.Replying? && !r.mode.expected
    ensures KeepsMessages(r.table, ReceiverHears(r, f).rcv.table) && KeepsMessages(r.table, ReplyTimeout(r).rcv.table)
    ensures forall q | q == ReceiverHears(r, f) || q == ReplyTimeout(r) ::
      && q.rcv.bit == r.bit && q.delivered.None?
      && (q.rcv.mode.Discarding? || (q.rcv.mode.Replying? && !q.rcv.mode.expected))
  {
    StoreLaw(r.table, f);
  }

  lemma OwesStays(s: State, l: Label, bit: Bit, delivered: seq<string>)
    requires Owes(s, bit, delivered) && Enabled(s, l) && !l.TryReceive?
    ensures Owes(Apply(s, l), bit, delivered)
  {
    var t := Apply(s, l);
    if s.rcv.mode.Replying? {
      ReceiverKeepsMessages(s.rcv, if l.Wait? then s.data[0].frame else s.rcv.mode.message);
    }
    assert KeepsMessages(s.rcv.table, t.rcv.table);
    var i :| 0 <= i < |s.rcv.table| && IsMessage(s.rcv.table[i]) && s.rcv.table[i].value.bit == s.rcv.bit;
    assert t.rcv.table[i] == s.rcv.table[i];
  }

  ghost predicate NoTake(ls: seq<Label>) { forall l | l in ls :: !l.TryReceive? }

  lemma {:induction false} OwesAlways(s: State, ls: seq<Label>, t: State, bit: Bit, delivered: seq<string>)
    requires Owes(s, bit, delivered) && IsRun(s, ls, t) && NoTake(ls)
    ensures Owes(t, bit, delivered)
    decreases |ls|
  {
    if ls != [] {
      assert ls[0] in ls;
      OwesStays(s, ls[0], bit, delivered);
      OwesAlways(Apply(s, ls[0]), ls[1..], t, bit, delivered);
    }
  }

  /** A fresh message is read and parked while the receiver replies to a duplicate. */
  ghost predicate EarlyWhileReplying(s: State) {
    && Inv(s) && Enabled(s, Wait) && s.rcv.mode.Replying? && !s.rcv.mode.expected
    && IsFresh(s, s.data[0].frame) && Store(s.rcv.table, s.data[0].frame).1
  }

  lemma EarlyShape(s: State)
    requires EarlyWhileReplying(s)
    ensures var f, t := s.data[0].frame, Apply(s, Wait);
      && t.acks == s.acks + [AckFor(f, s.rcv.me)] && t.rcv == s.rcv.(table := Store(s.rcv.table, f).0)
      && t.rcv.table == s.rcv.table[FirstFree(s.rcv.table, 0) := Some(f)]
      && t.accepted == s.accepted + 1 && t.delivered == s.delivered && |s.delivered| == s.accepted
      && f.bit == s.rcv.bit && f.epoch == s.accepted
  {
    TailData(s);
    FreshOpens(s.(data := s.data[1..]), s.data[0].frame);
  }

  /** Then, however the run goes on until the extra read, its sender is told that it arrived, and after that
      read it is neither delivered nor parked if and only if the read takes the last copy that has the
      expected bit. */
  lemma EarlyAckExact(s: State, ls: seq<Label>, t: State)
    requires EarlyWhileReplying(s) && IsRun(Apply(s, Wait), ls, t) && NoTake(ls) && t.rcv.mode.Discarding?
    ensures var u := Apply(t, TryReceive);
      && Apply(s, Wait).acks == s.acks + [AckFor(s.data[0].frame, s.rcv.me)]
      && u.delivered == s.delivered && |u.delivered| < u.accepted && u.rcv.mode.Idle?
      && (!HoldsExpected(u.rcv) <==> TakesLastExpected(t.rcv))
  {
    EarlyShape(s);
    var s1, free := Apply(s, Wait), FirstFree(s.rcv.table, 0);
    assert IsMessage(s1.rcv.table[free]) && s1.rcv.table[free].value.bit == s1.rcv.bit;
    OwesAlways(s1, ls, t, s.rcv.bit, s.delivered);
    ExtraReadExact(t);
  }

  // -------------------------------------------------- nothing else is heard

  /** Along the run no message is taken, and none is read from the socket. */
  ghost predicate HearsNothing(s: State, ls: seq<Label>)
    decreases |ls|
  {
    ls == [] ||
      (Enabled(s, ls[0]) && !ls[0].TryReceive? && (ls[0].Wait? ==> !s.data[0].frame.kind.MESSAGE?)
       && HearsNothing(Apply(s, ls[0]), ls[1..]))
  }

  /** One message is parked, in slot `i`. */
  ghost predicate OneParked(t: Table, i: nat, f: Frame) {
    i < |t| && t[i] == Some(f) && f.kind.MESSAGE? && forall j | 0 <= j < |t| && j != i :: !IsMessage(t[j])
  }

  lemma OneParkedStays(s: State, l: Label, i: nat, f: Frame)
    requires Enabled(s, l) && !l.TryReceive? && OneParked(s.rcv.table, i, f)
    requires l.Wait? ==> !s.data[0].frame.kind.MESSAGE?
    ensures OneParked(Apply(s, l).rcv.table, i, f)
  {
  }

  lemma {:induction false} OneParkedAlways(s: State, ls: seq<Label>, t: State, i: nat, f: Frame)
    requires IsRun(s, ls, t) && HearsNothing(s, ls) && OneParked(s.rcv.table, i, f)
    ensures OneParked(t.rcv.table, i, f) && NoTake(ls)
    decreases |ls|
  {
    if ls != [] {
      OneParkedStays(s, ls[0], i, f);
      OneParkedAlways(Apply(s, ls[0]), ls[1..], t, i, f);
      assert forall l | l in ls :: l == ls[0] || l in ls[1..];
    }
  }

  /** With nothing parked before and nothing heard after, the fresh message is always lost: the extra read
      leaves the receiver at rest with an acknowledged message neither delivered nor held, and the guarantee
      fails once the sender has read that acknowledgement. */
  lemma EarlyAckIsLost(s: State, ls: seq<Label>, t: State)
    requires EarlyWhileReplying(s) && !HasPending(s.rcv.table)
    requires IsRun(Apply(s, Wait), ls, t) && HearsNothing(Apply(s, Wait), ls) && t.rcv.mode.Discarding?
    ensures var u := Apply(t, TryReceive);
      && AtRest(u.rcv) && u.delivered == s.delivered && |u.delivered| < u.accepted
      && (forall payloads :: !Holds(u.rcv, payloads))
      && (u.accepted < |u.epochs| ==> !Guarantee(u))
  {
    EarlyShape(s);
    var s1, free, f := Apply(s, Wait), FirstFree(s.rcv.table, 0), s.data[0].frame;
    PendingMeans(s.rcv.table);
    assert OneParked(s1.rcv.table, free, f);
    OneParkedAlways(s1, ls, t, free, f);
    EarlyAckExact(s, ls, t);
    var u := Apply(t, TryReceive);
    OwesAlways(s1, ls, t, s.rcv.bit, s.delivered);
    ExtraReadExact(t);
    assert FirstMessage(t.rcv.table, 0) == free;
    PendingMeans(u.rcv.table);
  }
}
