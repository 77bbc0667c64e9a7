/** Orderly runs of the transport, composed from single steps. */
module TransportRuns {
  import opened Base
  import opened ParkedFrames
  import opened Rudp
  import opened Transport
  import opened TransportSteps
  import PeerBits

  /** `t` is reached from `s` by an orderly run. */
  ghost predicate CanReach(s: State, t: State) { exists ls :: IsRun(s, ls, t) && OrderlyRun(s, ls) }

  lemma ReachesSelf(s: State)
    ensures CanReach(s, s)
  {
    assert IsRun(s, [], s) && OrderlyRun(s, []);
  }

  lemma StepThen(s: State, l: Label, t: State)
    requires Enabled(s, l) && Orderly(s, l) && CanReach(Apply(s, l), t)
    ensures CanReach(s, t)
  {
    var ls :| IsRun(Apply(s, l), ls, t) && OrderlyRun(Apply(s, l), ls);
    assert ([l] + ls)[1..] == ls;
    assert IsRun(s, [l] + ls, t) && OrderlyRun(s, [l] + ls);
  }

  lemma OneStep(s: State, l: Label)
    requires Enabled(s, l) && Orderly(s, l)
    ensures CanReach(s, Apply(s, l))
  {
    ReachesSelf(Apply(s, l));
    StepThen(s, l, Apply(s, l));
  }

  lemma {:induction false} RunThen(s: State, ls: seq<Label>, t: State, u: State)
    requires IsRun(s, ls, t) && OrderlyRun(s, ls) && CanReach(t, u)
    ensures CanReach(s, u)
    decreases |ls|
  {
    if ls != [] {
      RunThen(Apply(s, ls[0]), ls[1..], t, u);
      StepThen(s, ls[0], u);
    }
  }

  lemma ReachesOn(s: State, t: State, u: State)
    requires CanReach(s, t) && CanReach(t, u)
    ensures CanReach(s, u)
  {
    var ls :| IsRun(s, ls, t) && OrderlyRun(s, ls);
    RunThen(s, ls, t, u);
  }

  lemma {:induction false} RunKeepsInv(s: State, ls: seq<Label>, t: State)
    requires Inv(s) && IsRun(s, ls, t) && OrderlyRun(s, ls)
    ensures Inv(t)
    decreases |ls|
  {
    if ls != [] {
      StepKeepsInv(s, ls[0]);
      RunKeepsInv(Apply(s, ls[0]), ls[1..], t);
    }
  }

  lemma ReachedInv(s: State, t: State)
    requires Inv(s) && CanReach(s, t)
    ensures Inv(t)
  {
    var ls :| IsRun(s, ls, t) && OrderlyRun(s, ls);
    RunKeepsInv(s, ls, t);
  }

  // ------------------------------------------- what can always be brought about

  /** `t` is `s` but for the receiver, which has the same messages parked, or fewer, and the acknowledgements
      sent to it. */
  ghost predicate OnlyReplied(s: State, t: State) {
    && t.snd == s.snd && t.data == s.data && t.epochs == s.epochs && t.accepted == s.accepted
    && t.rcv.me == s.rcv.me && |t.rcv.table| == |s.rcv.table|
    && forall i | 0 <= i < |t.rcv.table| && IsMessage(t.rcv.table[i]) :: s.rcv.table[i] == t.rcv.table[i]
  }

  /** Parked messages stay where they are. */
  ghost predicate KeepsMessages(t: Table, u: Table) {
    |u| == |t| && forall i | 0 <= i < |t| && IsMessage(t[i]) :: u[i] == t[i]
  }

  /** A reply can always be brought to its end without a frame being read. */
  lemma {:induction false} ReplyCanEnd(s: State) returns (t: State)
    requires s.rcv.mode.Replying? && s.rcv.mode.message.epoch < s.accepted
    ensures CanReach(s, t) && OnlyReplied(s, t) && KeepsMessages(s.rcv.table, t.rcv.table)
    ensures t.rcv.bit == (if s.rcv.mode.expected then PeerBits.Other(s.rcv.bit) else s.rcv.bit)
    ensures t.rcv.mode == (if s.rcv.mode.expected then Idle else Discarding)
    ensures t.delivered == (if s.rcv.mode.expected then s.delivered + [s.rcv.mode.message.data] else s.delivered)
    decreases if s.rcv.mode.attempts < MAX_TRANSMISSION_ATTEMPTS
      then MAX_TRANSMISSION_ATTEMPTS - s.rcv.mode.attempts else 0
  {
    var u := Apply(s, ReplyTick);
    OneStep(s, ReplyTick);
    ReplyTickShape(s);
    if u.rcv.mode.Replying? {
      t := ReplyCanEnd(u);
      ReachesOn(s, u, t);
    } else {
      t := u;
    }
  }

  lemma ReplyTickShape(s: State)
    requires s.rcv.mode.Replying? && s.rcv.mode.message.epoch < s.accepted
    ensures var u := Apply(s, ReplyTick);
      && OnlyReplied(s, u) && KeepsMessages(s.rcv.table, u.rcv.table)
      && (if u.rcv.mode.Replying? then
            && u.rcv.mode == s.rcv.mode.(attempts := s.rcv.mode.attempts + 1) && u.rcv.bit == s.rcv.bit
            && u.rcv.mode.attempts < MAX_TRANSMISSION_ATTEMPTS && u.delivered == s.delivered
          else
            && u.rcv.mode == (if s.rcv.mode.expected then Idle else Discarding)
            && u.rcv.bit == (if s.rcv.mode.expected then PeerBits.Other(s.rcv.bit) else s.rcv.bit)
            && u.delivered == (if s.rcv.mode.expected then s.delivered + [s.rcv.mode.message.data] else s.delivered))
  {
    var m := s.rcv.mode.message;
    QuietTake(s.rcv.table, m.addr, m.bit);
  }

  /** How many messages the first `n` slots hold. */
  function MessagesUpTo(t: Table, n: nat): nat
    requires n <= |t|
  {
    if n == 0 then 0 else MessagesUpTo(t, n - 1) + if IsMessage(t[n - 1]) then 1 else 0
  }

  lemma {:induction false} FewerMessages(t: Table, u: Table, n: nat)
    requires n <= |t| == |u|
    requires forall i | 0 <= i < n && IsMessage(u[i]) :: IsMessage(t[i])
    ensures MessagesUpTo(u, n) <= MessagesUpTo(t, n)
    ensures (exists i :: 0 <= i < n && IsMessage(t[i]) && !IsMessage(u[i])) ==> MessagesUpTo(u, n) < MessagesUpTo(t, n)
  {
    if n > 0 { FewerMessages(t, u, n - 1); }
  }

  /** What a message in hand makes of the receiver: a reply under way, or already over. */
  ghost predicate InHandOf(s: State, t: State, m: Frame) {
    var expected := m.bit == s.rcv.bit;
    if t.rcv.mode.Replying? then
      t.rcv.mode.message == m && t.rcv.mode.expected == expected && t.delivered == s.delivered
    else
      && t.rcv.mode == (if expected then Idle else Discarding)
      && t.delivered == (if expected then s.delivered + [m.data] else s.delivered)
  }

  lemma GotShape(s: State, r: Receiver, m: Frame)
    requires r.mode.Idle? && r.me == s.rcv.me && r.bit == s.rcv.bit
    ensures var t := AfterReceive(s, Got(r, m));
      && InHandOf(s, t, m)
      && t.snd == s.snd && t.data == s.data && t.epochs == s.epochs && t.rcv.me == s.rcv.me
      && t.accepted == (if m.epoch >= s.accepted then m.epoch + 1 else s.accepted)
      && SameMessages(r.table, t.rcv.table)
  {
    QuietTake(r.table, m.addr, m.bit);
  }

  /** Taking the first parked message: it comes into hand, or is thrown away by the discarded read. */
  lemma TakeParked(s: State)
    requires Inv(s) && !s.rcv.mode.Replying? && HasPending(s.rcv.table)
    ensures var t := Apply(s, TryReceive);
      && OnlyReplied(s, t)
      && MessagesUpTo(t.rcv.table, |t.rcv.table|) < MessagesUpTo(s.rcv.table, |s.rcv.table|)
      && (if s.rcv.mode.Idle? then InHandOf(s, t, s.rcv.table[FirstMessage(s.rcv.table, 0)].value)
          else t.rcv.mode.Idle? && t.delivered == s.delivered)
  {
    var k := FirstMessage(s.rcv.table, 0);
    var m, u := s.rcv.table[k].value, s.rcv.table[k := None];
    assert IsCopy(m, s.snd.me, s.accepted, s.epochs);
    var t := Apply(s, TryReceive);
    if s.rcv.mode.Idle? {
      GotShape(s, s.rcv.(table := u), m);
      assert t == AfterReceive(s, Got(s.rcv.(table := u), m));
    } else {
      assert t == AfterReceive(s, Receipt(s.rcv.(table := u, mode := Idle), [], None));
    }
    assert !IsMessage(t.rcv.table[k]);
    FewerMessages(s.rcv.table, t.rcv.table, |s.rcv.table|);
  }

  function Stage(r: Receiver): nat {
    match r.mode case Idle => 0 case Discarding => 1 case Replying(_, _, _) => 2
  }

  /** The receiver is in no call and nothing is left for the next one. */
  predicate AtRest(r: Receiver) { r.mode.Idle? && !HasPending(r.table) }

  ghost predicate SameButReceiver(s: State, t: State) {
    && t.snd == s.snd && t.data == s.data && t.epochs == s.epochs && t.accepted == s.accepted && t.rcv.me == s.rcv.me
    && s.delivered <= t.delivered
  }

  /** The receiver can always be brought to rest without losing a message at the head of the channel. */
  lemma {:induction false} CanComeToRest(s: State) returns (t: State)
    requires Inv(s) && s.data != [] && s.data[0].frame.kind.MESSAGE?
    ensures CanReach(s, t) && Inv(t) && AtRest(t.rcv) && SameButReceiver(s, t)
    decreases MessagesUpTo(s.rcv.table, |s.rcv.table|), Stage(s.rcv)
  {
    if AtRest(s.rcv) {
      ReachesSelf(s);
      return s;
    }
    var u;
    if s.rcv.mode.Replying? {
      u := ReplyCanEnd(s);
      ReachedInv(s, u);
      FewerMessages(s.rcv.table, u.rcv.table, |s.rcv.table|);
    } else if HasPending(s.rcv.table) {
      u := Apply(s, TryReceive);
      TryReceiveKeepsInv(s);
      OneStep(s, TryReceive);
      TakeParked(s);
    } else {
      u := ThrowsCopy(s);
    }
    t := CanComeToRest(u);
    ReachesOn(s, u, t);
  }

  /** The discarded read takes a repeated copy of the head, so the head itself stays. */
  lemma ThrowsCopy(s: State) returns (t: State)
    requires Inv(s) && s.data != [] && s.data[0].frame.kind.MESSAGE?
    requires s.rcv.mode.Discarding? && !HasPending(s.rcv.table)
    ensures CanReach(s, t) && Inv(t) && AtRest(t.rcv) && SameButReceiver(s, t) && t.rcv.table == s.rcv.table
  {
    var u := Apply(s, RepeatData(0));
    StepKeepsInv(s, RepeatData(0));
    OneStep(s, RepeatData(0));
    assert u.data[1..] == s.data;
    t := Apply(u, TryReceive);
    StepKeepsInv(u, TryReceive);
    OneStep(u, TryReceive);
    ReachesOn(s, u, t);
    assert u.acks + [] == u.acks;
    assert t == s.(rcv := s.rcv.(mode := Idle));
  }

  /** Everything in front of a datagram can be lost. */
  lemma {:induction false} CanLoseFront(s: State, i: nat) returns (t: State)
    requires Inv(s) && i < |s.data|
    ensures CanReach(s, t) && Inv(t) && t == s.(data := s.data[i..])
    decreases i
  {
    if i == 0 {
      t := s;
      ReachesSelf(s);
    } else {
      var u := Apply(s, LoseData(0));
      StepKeepsInv(s, LoseData(0));
      OneStep(s, LoseData(0));
      assert u.data == s.data[1..];
      t := CanLoseFront(u, i - 1);
      assert u.data[i - 1..] == s.data[i..];
      ReachesOn(s, u, t);
    }
  }

  /** Everything in front of an acknowledgement can be lost. */
  lemma {:induction false} CanLoseAcks(s: State, i: nat) returns (t: State)
    requires i <= |s.acks|
    ensures CanReach(s, t) && t == s.(acks := s.acks[i..])
    decreases i
  {
    if i == 0 {
      t := s;
      ReachesSelf(s);
    } else {
      var u := Apply(s, LoseAck(0));
      OneStep(s, LoseAck(0));
      assert u.acks == s.acks[1..];
      t := CanLoseAcks(u, i - 1);
      assert u.acks[i - 1..] == s.acks[i..];
      ReachesOn(s, u, t);
    }
  }
}
