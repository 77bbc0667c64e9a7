/** The exact condition for the delivery guarantee: which early acknowledgements can break it. */
module TransportExact {
  import opened Base
  import opened ParkedFrames
  import opened Rudp
  import opened Transport
  import opened TransportSteps
  import opened TransportRuns
  import opened TransportTheorems
  import opened TransportSends
  import PeerBits

  /** The one harmless exception: the last wait of a reply to a duplicate, with a single message parked, in
      front of the slot the fresh one gets. The extra read then throws that old copy away. */
  ghost predicate Spared(s: State, l: Label) {
    && l.Wait? && s.rcv.mode.Replying? && !s.rcv.mode.expected
    && s.rcv.mode.attempts + 1 >= MAX_TRANSMISSION_ATTEMPTS
    && OneBefore(s.rcv.table, FirstMessage(s.rcv.table, 0))
  }

  ghost predicate OneBefore(t: Table, i: nat) {
    && i < |t| && IsMessage(t[i]) && i < FirstFree(t, 0)
    && forall j | 0 <= j < |t| && j != i :: !IsMessage(t[j])
  }

  // ------------------------------------------- breaking the guarantee: closing epochs

  /** The sender's side moves on; the receiver has not taken a step. */
  ghost predicate OnlySent(s: State, t: State) {
    && t.rcv == s.rcv && t.delivered == s.delivered && t.accepted == s.accepted
    && t.snd.me == s.snd.me && t.snd.peer == s.snd.peer
  }

  ghost predicate AckTo(s: Sender, d: Datagram, bit: Bit) { Matches(Some(d.frame), s.peer, ACK, bit) }

  /** With a send waiting, an ACK with its bit at the head of the channel closes the epoch. */
  lemma CloseWaiting(s: State) returns (t: State)
    requires s.snd.job.Some? && s.acks != [] && AckTo(s.snd, s.acks[0], s.snd.bit)
    ensures CanReach(s, t) && OnlySent(s, t) && |t.epochs| == |s.epochs| + 1
    ensures t.acks == s.acks[1..] && t.snd.bit == PeerBits.Other(s.snd.bit)
  {
    OneStep(s, SendRead);
    t := Apply(s, SendRead);
  }

  /** With none waiting, one is begun first. */
  lemma BeginAny(s: State) returns (t: State)
    requires s.epochs != [] && s.snd.job.None?
    ensures CanReach(s, t) && OnlySent(s, t) && |t.epochs| == |s.epochs|
    ensures t.acks == s.acks && t.snd.bit == s.snd.bit && t.snd.job.Some?
  {
    PurgeShape(s.snd);
    TransmitShape(s.snd.(job := Some(Sending("", 0, 0, |s.epochs| - 1)),
                         table := DropPeer(DropPeer(s.snd.table, s.snd.peer, ACK), s.snd.peer, ACK_ACK)));
    OneStep(s, Begin("", 0));
    t := Apply(s, Begin("", 0));
  }

  lemma CloseAt(s: State, i: nat) returns (t: State)
    requires s.epochs != [] && i < |s.acks| && AckTo(s.snd, s.acks[i], s.snd.bit)
    ensures CanReach(s, t) && OnlySent(s, t) && |t.epochs| == |s.epochs| + 1
    ensures t.acks == s.acks[i + 1..] && t.snd.bit == PeerBits.Other(s.snd.bit)
  {
    var u := CanLoseAcks(s, i);
    var v := u;
    ReachesSelf(u);
    if u.snd.job.None? { v := BeginAny(u); }
    ReachesOn(s, u, v);
    t := CloseWaiting(v);
    ReachesOn(s, v, t);
    assert s.acks[i..][1..] == s.acks[i + 1..];
  }

  /** A stale ACK behind the one that closes the open epoch closes the next epoch too, with nothing of it
      accepted. */
  lemma FalseClose(s: State, i: nat, j: nat) returns (t: State)
    requires s.epochs != [] && i < j < |s.acks| && AckTo(s.snd, s.acks[i], s.snd.bit)
    requires AckTo(s.snd, s.acks[j], PeerBits.Other(s.snd.bit))
    ensures CanReach(s, t) && OnlySent(s, t) && |t.epochs| == |s.epochs| + 2
  {
    var u := CloseAt(s, i);
    assert u.acks[j - i - 1] == s.acks[j];
    t := CloseAt(u, j - i - 1);
    ReachesOn(s, u, t);
  }

  // --------------------------------------------- breaking the guarantee: parked mixtures

  /** Taking the first parked message while idle. */
  lemma TakesFirst(s: State)
    requires s.rcv.mode.Idle? && HasPending(s.rcv.table)
    requires s.rcv.table[FirstMessage(s.rcv.table, 0)].value.epoch < s.accepted
    ensures var t, k := Apply(s, TryReceive), FirstMessage(s.rcv.table, 0);
      var m := s.rcv.table[k].value;
      && InHandOf(s, t, m) && t.acks == s.acks + [AckFor(m, s.rcv.me)]
      && t.snd == s.snd && t.epochs == s.epochs && t.accepted == s.accepted && t.rcv.me == s.rcv.me
      && KeepsMessages(s.rcv.table[k := None], t.rcv.table) && SameMessages(s.rcv.table[k := None], t.rcv.table)
      && (t.rcv.mode.Replying? || m.bit != s.rcv.bit ==> t.rcv.bit == s.rcv.bit)
      && (!t.rcv.mode.Replying? && m.bit == s.rcv.bit ==> t.rcv.bit == PeerBits.Other(s.rcv.bit))
  {
    var k := FirstMessage(s.rcv.table, 0);
    var m, r := s.rcv.table[k].value, s.rcv.(table := s.rcv.table[k := None]);
    assert Apply(s, TryReceive) == AfterReceive(s, Got(r, m));
    GotShape(s, r, m);
    ReplyShape(r.(mode := Replying(m, m.bit == r.bit, 0)));
  }

  /** An expected message is taken and the reply brought to its end: it is delivered. */
  lemma TakesAndDelivers(s: State) returns (t: State)
    requires s.rcv.mode.Idle? && HasPending(s.rcv.table)
    requires s.rcv.table[FirstMessage(s.rcv.table, 0)].value.epoch < s.accepted
    requires s.rcv.table[FirstMessage(s.rcv.table, 0)].value.bit == s.rcv.bit
    ensures var k := FirstMessage(s.rcv.table, 0);
      && CanReach(s, t) && t.rcv.mode.Idle? && t.rcv.bit == PeerBits.Other(s.rcv.bit)
      && t.delivered == s.delivered + [s.rcv.table[k].value.data] && t.accepted == s.accepted && t.epochs == s.epochs
      && KeepsMessages(s.rcv.table[k := None], t.rcv.table)
      && forall i | 0 <= i < |t.rcv.table| && IsMessage(t.rcv.table[i]) :: i != k && t.rcv.table[i] == s.rcv.table[i]
  {
    var k, u := FirstMessage(s.rcv.table, 0), Apply(s, TryReceive);
    TakesFirst(s);
    OneStep(s, TryReceive);
    if u.rcv.mode.Replying? {
      t := ReplyCanEnd(u);
      ReachesOn(s, u, t);
    } else {
      t := u;
    }
  }

  /** A parked message of the epoch delivered last, or of the one before. */
  ghost predicate StaleOrFresh(f: Frame, d: nat) {
    f.bit == Parity(f.epoch) && (f.epoch == d || f.epoch + 1 == d)
  }

  /** Idle with old copies parked and at most one fresh message among them, acknowledged at index `x`. */
  ghost predicate Mixed(s: State, x: nat) {
    var d := |s.delivered|;
    && s.rcv.mode.Idle? && s.accepted == d + 1 && |s.epochs| == d + 1
    && s.rcv.bit == Parity(d) && s.snd.bit == Parity(d) && s.snd.peer == s.rcv.me
    && x < |s.acks| && AckTo(s.snd, s.acks[x], Parity(d))
    && (forall i | 0 <= i < |s.rcv.table| && IsMessage(s.rcv.table[i]) :: StaleOrFresh(s.rcv.table[i].value, d))
    && (exists i :: 0 <= i < |s.rcv.table| && IsMessage(s.rcv.table[i]) && s.rcv.table[i].value.epoch + 1 == d)
    && (forall i, j | 0 <= i < j < |s.rcv.table| && IsMessage(s.rcv.table[i]) && IsMessage(s.rcv.table[j]) ::
          s.rcv.table[i].value.epoch + 1 == d || s.rcv.table[j].value.epoch + 1 == d)
  }

  /** An old copy taken first is acknowledged again, behind the early acknowledgement. */
  lemma StaleFirst(s: State, x: nat) returns (u: State)
    requires Mixed(s, x) && HasPending(s.rcv.table)
    requires s.rcv.table[FirstMessage(s.rcv.table, 0)].value.epoch + 1 == |s.delivered|
    ensures CanReach(s, u) && !Guarantee(u)
  {
    var d, t, m := |s.delivered|, Apply(s, TryReceive), s.rcv.table[FirstMessage(s.rcv.table, 0)].value;
    assert Parity(d) == PeerBits.Other(Parity(d - 1));
    TakesFirst(s);
    OneStep(s, TryReceive);
    assert t.acks[|s.acks|] == AckFor(m, s.rcv.me) && t.acks[x] == s.acks[x];
    u := FalseClose(t, x, |s.acks|);
    ReachesOn(s, t, u);
  }

  /** Once the fresh message is delivered, whatever is parked is old and has the expected bit. */
  lemma FreshDelivered(s: State, x: nat) returns (t: State)
    requires Mixed(s, x) && HasPending(s.rcv.table)
    requires s.rcv.table[FirstMessage(s.rcv.table, 0)].value.epoch == |s.delivered|
    ensures CanReach(s, t) && t.rcv.mode.Idle? && HasPending(t.rcv.table) && t.accepted == s.accepted
    ensures t.epochs == s.epochs && |t.delivered| == |s.delivered| + 1
    ensures var m := t.rcv.table[FirstMessage(t.rcv.table, 0)].value; m.epoch + 1 == |s.delivered| && m.bit == t.rcv.bit
  {
    var d, k := |s.delivered|, FirstMessage(s.rcv.table, 0);
    t := TakesAndDelivers(s);
    OldIsLeft(s, x, t.rcv.table);
    var n := FirstMessage(t.rcv.table, 0);
    OldUnlessFirst(s, x, n);
    assert Parity(d) == PeerBits.Other(Parity(d - 1));
  }

  lemma OldIsLeft(s: State, x: nat, u: Table)
    requires Mixed(s, x) && HasPending(s.rcv.table)
    requires s.rcv.table[FirstMessage(s.rcv.table, 0)].value.epoch == |s.delivered|
    requires KeepsMessages(s.rcv.table[FirstMessage(s.rcv.table, 0) := None], u)
    ensures HasPending(u)
  {
    var i :| 0 <= i < |s.rcv.table| && IsMessage(s.rcv.table[i]) && s.rcv.table[i].value.epoch + 1 == |s.delivered|;
    assert s.rcv.table[FirstMessage(s.rcv.table, 0) := None][i] == s.rcv.table[i];
    assert IsMessage(u[i]);
    PendingMeans(u);
  }

  lemma OldUnlessFirst(s: State, x: nat, n: nat)
    requires Mixed(s, x) && n < |s.rcv.table| && IsMessage(s.rcv.table[n]) && n != FirstMessage(s.rcv.table, 0)
    requires HasPending(s.rcv.table) && s.rcv.table[FirstMessage(s.rcv.table, 0)].value.epoch == |s.delivered|
    ensures s.rcv.table[n].value.epoch + 1 == |s.delivered| && s.rcv.table[n].value.bit == Parity(|s.delivered| - 1)
  {
    assert StaleOrFresh(s.rcv.table[n].value, |s.delivered|);
  }

  /** The fresh message taken first flips the bit, and the old copy is then delivered again. */
  lemma FreshFirst(s: State, x: nat) returns (u: State)
    requires Mixed(s, x) && HasPending(s.rcv.table)
    requires s.rcv.table[FirstMessage(s.rcv.table, 0)].value.epoch == |s.delivered|
    ensures CanReach(s, u) && !Guarantee(u)
  {
    var t := FreshDelivered(s, x);
    u := TakesAndDelivers(t);
    ReachesOn(s, t, u);
  }

  lemma MixedBreaks(s: State, x: nat) returns (u: State)
    requires Mixed(s, x)
    ensures CanReach(s, u) && !Guarantee(u)
  {
    PendingMeans(s.rcv.table);
    var k := FirstMessage(s.rcv.table, 0);
    assert StaleOrFresh(s.rcv.table[k].value, |s.delivered|);
    if s.rcv.table[k].value.epoch == |s.delivered| { u := FreshFirst(s, x); } else { u := StaleFirst(s, x); }
  }

  // ------------------------------------------------ breaking the guarantee: every case

  ghost predicate Disorderly(s: State) { Inv(s) && Enabled(s, Wait) && !Orderly(s, Wait) }

  /** What a disorderly step does. */
  lemma DisorderShape(s: State)
    requires Disorderly(s)
    ensures var f, t, free := s.data[0].frame, Apply(s, Wait), FirstFree(s.rcv.table, 0);
      && f.epoch == s.accepted && |s.epochs| == s.accepted + 1 && f.bit == Parity(s.accepted) == s.snd.bit
      && f.kind.MESSAGE? && free < |s.rcv.table|
      && t.rcv == s.rcv.(table := s.rcv.table[free := Some(f)]) && t.acks == s.acks + [AckFor(f, s.rcv.me)]
      && t.snd == s.snd && t.epochs == s.epochs && t.accepted == s.accepted + 1 && t.delivered == s.delivered
      && AckTo(t.snd, t.acks[|s.acks|], t.snd.bit)
  {
    TailData(s);
    FreshOpens(s.(data := s.data[1..]), s.data[0].frame);
  }

  /** With a message still undelivered, closing the epoch leaves two closed epochs undelivered. */
  lemma UndeliveredBreaks(s: State) returns (u: State)
    requires Disorderly(s) && |s.delivered| < s.accepted
    ensures CanReach(Apply(s, Wait), u) && !Guarantee(u)
  {
    DisorderShape(s);
    u := CloseAt(Apply(s, Wait), |s.acks|);
  }

  /** A reply with attempts left acknowledges its message again, behind the early acknowledgement. */
  lemma EarlyReplyBreaks(s: State) returns (u: State)
    requires Disorderly(s) && s.rcv.mode.Replying? && s.rcv.mode.attempts + 1 < MAX_TRANSMISSION_ATTEMPTS
    requires |s.delivered| == s.accepted
    ensures CanReach(Apply(s, Wait), u) && !Guarantee(u)
  {
    DisorderShape(s);
    var s1, m := Apply(s, Wait), s.rcv.mode.message;
    var t := Apply(s1, ReplyTick);
    OneStep(s1, ReplyTick);
    ReplyTickShape(s1);
    ReplyShape(s1.rcv.(mode := s1.rcv.mode.(attempts := s1.rcv.mode.attempts + 1)));
    assert t.acks == s1.acks + [AckFor(m, s.rcv.me)];
    assert Parity(m.epoch + 1) == PeerBits.Other(Parity(m.epoch));
    u := FalseClose(t, |s.acks|, |s1.acks|);
    ReachesOn(s1, t, u);
  }

  /** The parked messages after a disorderly step: copies of the last accepted one, and the fresh one. */
  lemma ParkedAfter(s: State)
    requires Disorderly(s)
    ensures var t, free := Apply(s, Wait).rcv.table, FirstFree(s.rcv.table, 0);
      && (forall i | 0 <= i < |t| && i != free && IsMessage(t[i]) ::
            t[i] == s.rcv.table[i] && t[i].value.epoch + 1 == s.accepted && StaleOrFresh(t[i].value, s.accepted))
      && IsMessage(t[free]) && t[free].value.epoch == s.accepted && StaleOrFresh(t[free].value, s.accepted)
  {
    DisorderShape(s);
    var t, free := Apply(s, Wait).rcv.table, FirstFree(s.rcv.table, 0);
    forall i | 0 <= i < |t| && i != free && IsMessage(t[i])
      ensures t[i] == s.rcv.table[i] && t[i].value.epoch + 1 == s.accepted && StaleOrFresh(t[i].value, s.accepted)
    {
      assert IsCopy(s.rcv.table[i].value, s.snd.me, s.accepted, s.epochs);
    }
  }

  lemma IdleBreaks(s: State) returns (u: State)
    requires Disorderly(s) && s.rcv.mode.Idle? && |s.delivered| == s.accepted
    ensures CanReach(Apply(s, Wait), u) && !Guarantee(u)
  {
    DisorderShape(s);
    ParkedAfter(s);
    PendingMeans(s.rcv.table);
    var t := Apply(s, Wait);
    var k := FirstMessage(s.rcv.table, 0);
    assert t.rcv.table[k] == s.rcv.table[k];
    u := MixedBreaks(t, |s.acks|);
  }

  /** The last wait of a reply to a duplicate: the extra read takes the first parked message away. */
  lemma LateReplyShape(s: State) returns (t: State)
    requires Disorderly(s) && s.rcv.mode.Replying? && !s.rcv.mode.expected
    requires s.rcv.mode.attempts + 1 >= MAX_TRANSMISSION_ATTEMPTS
    ensures var s1 := Apply(s, Wait);
      && CanReach(s1, t) && t.rcv.mode.Idle? && t.rcv.bit == s.rcv.bit && t.delivered == s.delivered
      && t.snd == s1.snd && t.epochs == s1.epochs && t.accepted == s1.accepted && t.acks == s1.acks
      && t.rcv.me == s.rcv.me
      && HasPending(s1.rcv.table) && t.rcv.table == s1.rcv.table[FirstMessage(s1.rcv.table, 0) := None]
  {
    DisorderShape(s);
    ParkedAfter(s);
    var s1 := Apply(s, Wait);
    PendingMeans(s1.rcv.table);
    var s2 := Apply(s1, ReplyTick);
    OneStep(s1, ReplyTick);
    assert s2 == s1.(rcv := s1.rcv.(mode := Discarding), acks := s1.acks + []);
    t := Apply(s2, TryReceive);
    OneStep(s2, TryReceive);
    ReachesOn(s1, s2, t);
    assert s1.acks + [] == s1.acks;
  }

  lemma LateReplyBreaks(s: State) returns (u: State)
    requires Disorderly(s) && s.rcv.mode.Replying? && !s.rcv.mode.expected
    requires s.rcv.mode.attempts + 1 >= MAX_TRANSMISSION_ATTEMPTS && !Spared(s, Wait)
    ensures CanReach(Apply(s, Wait), u) && !Guarantee(u)
  {
    DisorderShape(s);
    var t := LateReplyShape(s);
    if HasPending(s.rcv.table) {
      LateMixed(s, t);
      u := MixedBreaks(t, |s.acks|);
    } else {
      LateEmpty(s, t.rcv.table);
      u := CloseAt(t, |s.acks|);
    }
    ReachesOn(Apply(s, Wait), t, u);
  }

  /** With nothing else parked the fresh message is the one thrown away. */
  lemma LateEmpty(s: State, t: Table)
    requires Disorderly(s) && !HasPending(s.rcv.table)
    requires var s1 := Apply(s, Wait);
      HasPending(s1.rcv.table) && t == s1.rcv.table[FirstMessage(s1.rcv.table, 0) := None]
    ensures !HasPending(t)
  {
    DisorderShape(s);
    PendingMeans(s.rcv.table);
    PendingMeans(t);
    MessageStoreFirsts(s.rcv.table, s.data[0].frame);
  }

  lemma LateMixed(s: State, t: State)
    requires Disorderly(s) && s.rcv.mode.Replying? && !s.rcv.mode.expected && HasPending(s.rcv.table)
    requires s.rcv.mode.attempts + 1 >= MAX_TRANSMISSION_ATTEMPTS && !Spared(s, Wait)
    requires var s1 := Apply(s, Wait);
      && t.rcv.mode.Idle? && t.rcv.bit == s.rcv.bit && t.delivered == s.delivered
      && t.snd == s1.snd && t.epochs == s1.epochs && t.accepted == s1.accepted && t.acks == s1.acks
      && t.rcv.me == s.rcv.me
      && HasPending(s1.rcv.table) && t.rcv.table == s1.rcv.table[FirstMessage(s1.rcv.table, 0) := None]
    ensures Mixed(t, |s.acks|)
  {
    DisorderShape(s);
    ParkedAfter(s);
    OldRemains(s, t);
  }

  lemma OldRemains(s: State, t: State)
    requires Disorderly(s) && s.rcv.mode.Replying? && !s.rcv.mode.expected && HasPending(s.rcv.table)
    requires s.rcv.mode.attempts + 1 >= MAX_TRANSMISSION_ATTEMPTS && !Spared(s, Wait)
    requires var s1 := Apply(s, Wait);
      HasPending(s1.rcv.table) && t.rcv.table == s1.rcv.table[FirstMessage(s1.rcv.table, 0) := None]
    ensures exists i ::
      0 <= i < |t.rcv.table| && IsMessage(t.rcv.table[i]) && t.rcv.table[i].value.epoch + 1 == s.accepted
  {
    DisorderShape(s);
    ParkedAfter(s);
    MessageStoreFirsts(s.rcv.table, s.data[0].frame);
    var k, free := FirstMessage(s.rcv.table, 0), FirstFree(s.rcv.table, 0);
    if free < k {
      assert IsMessage(t.rcv.table[k]);
    } else {
      assert !OneBefore(s.rcv.table, k);
      var j :| 0 <= j < |s.rcv.table| && j != k && IsMessage(s.rcv.table[j]);
      assert IsMessage(t.rcv.table[j]);
    }
  }

  /** Every disorderly step but the spared one can break the guarantee. */
  lemma DisorderBreaks(s: State) returns (u: State)
    requires Disorderly(s) && !Spared(s, Wait)
    ensures CanReach(Apply(s, Wait), u) && !Guarantee(u)
  {
    if |s.delivered| < s.accepted { u := UndeliveredBreaks(s); }
    else if s.rcv.mode.Idle? { u := IdleBreaks(s); }
    else if s.rcv.mode.attempts + 1 < MAX_TRANSMISSION_ATTEMPTS { u := EarlyReplyBreaks(s); }
    else { u := LateReplyBreaks(s); }
  }

  /** Several fresh messages parked while idle are no use even with the slots in order: taking the first
      acknowledges it again, and that ACK has the bit of the epoch after the second, which can close with
      nothing of it accepted. */
  lemma TwoParkedFoolSender(s: State) returns (u: State)
    requires Disorderly(s) && s.rcv.mode.Idle? && |s.delivered| < s.accepted
    requires FirstMessage(s.rcv.table, 0) < FirstFree(s.rcv.table, 0)
    ensures CanReach(Apply(s, Wait), u) && u.accepted < |u.epochs| - 1
  {
    DisorderShape(s);
    MessageStoreFirsts(s.rcv.table, s.data[0].frame);
    ParkedAfter(s);
    var s1, m := Apply(s, Wait), s.rcv.table[FirstMessage(s.rcv.table, 0)].value;
    TakesFirst(s1);
    OneStep(s1, TryReceive);
    var t := Apply(s1, TryReceive);
    assert t.acks == s1.acks + [AckFor(m, s.rcv.me)];
    assert Parity(m.epoch + 1) == PeerBits.Other(Parity(m.epoch));
    u := FalseClose(t, |s.acks|, |s1.acks|);
    ReachesOn(s1, t, u);
  }

  // ------------------------------------------------------------ the spared case

  /** The receiver as it will be after the extra read has thrown away the message in slot `i`. */
  function Without(s: State, i: nat): State
    requires i < |s.rcv.table|
  {
    s.(rcv := s.rcv.(mode := Idle, table := s.rcv.table[i := None]))
  }

  /** The reply to a duplicate is in its last wait, or over; slot `i` holds what the extra read will take, and
      without it all is well. */
  ghost predicate LateAt(s: State, i: nat) {
    && (s.rcv.mode.Discarding? ||
        (s.rcv.mode.Replying? && !s.rcv.mode.expected && s.rcv.mode.attempts + 1 >= MAX_TRANSMISSION_ATTEMPTS))
    && i < |s.rcv.table| && FirstMessage(s.rcv.table, 0) == i && i < FirstFree(s.rcv.table, 0)
    && |s.delivered| < s.accepted && Inv(Without(s, i))
  }

  lemma LateGuarantees(s: State, i: nat)
    requires LateAt(s, i)
    ensures Guarantee(s)
  {
    var w := Without(s, i);
    InvGuarantees(w);
    AcceptedIsHeld(w);
    var j :| 0 <= j < |w.rcv.table| && IsMessage(w.rcv.table[j]) &&
      w.rcv.table[j].value.data in w.epochs[w.accepted - 1];
    assert s.rcv.table[j] == w.rcv.table[j];
  }

  /** The sender and the channels do not see the difference. */
  lemma LateElsewhere(s: State, l: Label, i: nat)
    requires LateAt(s, i) && Enabled(s, l) && !l.TryReceive? && !l.Wait? && !l.ReplyTick?
    ensures LateAt(Apply(s, l), i)
  {
    StepKeepsInv(Without(s, i), l);
    assert Without(Apply(s, l), i) == Apply(Without(s, i), l);
  }

  lemma LateReply(s: State, i: nat)
    requires LateAt(s, i) && s.rcv.mode.Replying?
    ensures LateAt(Apply(s, ReplyTick), i)
  {
    assert s.acks + [] == s.acks;
    assert Without(Apply(s, ReplyTick), i) == Without(s, i);
  }

  /** The extra read throws the old copy away, and the invariant holds again. */
  lemma LateTake(s: State, i: nat)
    requires LateAt(s, i) && s.rcv.mode.Discarding?
    ensures Inv(Apply(s, TryReceive))
  {
    assert s.acks + [] == s.acks;
    assert Apply(s, TryReceive) == Without(s, i);
  }

  /** Parking a copy in any free slot. */
  lemma CopyInSlot(w: State, f: Frame, k: nat)
    requires Inv(w) && w.rcv.mode.Idle? && |w.delivered| < w.accepted && IsCopy(f, w.snd.me, w.accepted, w.epochs)
    requires k < |w.rcv.table| && w.rcv.table[k].None?
    ensures Inv(w.(rcv := w.rcv.(table := w.rcv.table[k := Some(f)]), acks := w.acks + [AckFor(f, w.rcv.me)]))
  {
    var u := w.rcv.table[k := Some(f)];
    PendingMeans(u);
    assert IsMessage(u[k]);
    AppendAck(w.acks, AckFor(f, w.rcv.me), w.snd.me, w.rcv.me, w.accepted, w.accepted, |w.epochs| - 1);
  }

  lemma LateHearsCopy(s: State, i: nat)
    requires LateAt(s, i) && Enabled(s, Wait) && Orderly(s, Wait)
    requires s.data[0].frame.kind.MESSAGE? && Store(s.rcv.table, s.data[0].frame).1
    ensures LateAt(Apply(s, Wait), i)
  {
    var f, s1, free := s.data[0].frame, s.(data := s.data[1..]), FirstFree(s.rcv.table, 0);
    TailData(Without(s, i));
    var w := Without(s1, i);
    assert w == Without(s, i).(data := s.data[1..]);
    assert IsCopy(f, w.snd.me, w.accepted, w.epochs);
    CopyInSlot(w, f, free);
    MessageStoreFirsts(s.rcv.table, f);
    var t := Apply(s, Wait);
    assert t.rcv.table[i := None] == s.rcv.table[i := None][free := Some(f)];
    assert Without(t, i) == w.(rcv := w.rcv.(table := w.rcv.table[free := Some(f)]),
                               acks := w.acks + [AckFor(f, w.rcv.me)]);
  }

  lemma LateHearsOther(s: State, i: nat)
    requires LateAt(s, i) && Enabled(s, Wait) && !s.data[0].frame.kind.MESSAGE?
    ensures LateAt(Apply(s, Wait), i)
  {
    var f, s1, m := s.data[0].frame, s.(data := s.data[1..]), s.rcv.mode.message;
    TailData(Without(s, i));
    var w, t := Without(s1, i), Apply(s, Wait);
    assert w == Without(s, i).(data := s.data[1..]);
    assert s.acks + [] == s.acks;
    if Matches(Some(f), m.addr, ACK_ACK, m.bit) {
      assert Without(t, i) == w;
    } else {
      QuietStoreFirsts(s.rcv.table, f);
      QuietWithout(s.rcv.table, i, f);
      QuietKeepsInv(w, Store(s.rcv.table, f).0[i := None]);
      assert Without(t, i) == w.(rcv := w.rcv.(table := Store(s.rcv.table, f).0[i := None]));
    }
  }

  lemma QuietWithout(t: Table, i: nat, f: Frame)
    requires !f.kind.MESSAGE? && i < |t| && IsMessage(t[i])
    ensures SameMessages(t[i := None], Store(t, f).0[i := None])
  {
    var u, twin, free := Store(t, f).0, FirstMatch(t, f.addr, f.kind, f.bit, 0), FirstFree(t, 0);
    if twin < |t| {
      assert u[i := None] == t[i := None][twin := Some(f)];
      QuietUpdate(t[i := None], twin, Some(f));
    } else if free < |t| {
      assert u[i := None] == t[i := None][free := Some(f)];
      QuietUpdate(t[i := None], free, Some(f));
    }
  }

  lemma LateWait(s: State, i: nat)
    requires LateAt(s, i) && Enabled(s, Wait) && Orderly(s, Wait)
    ensures LateAt(Apply(s, Wait), i)
  {
    var f, s1 := s.data[0].frame, s.(data := s.data[1..]);
    if !f.kind.MESSAGE? { LateHearsOther(s, i); }
    else if Store(s.rcv.table, f).1 { LateHearsCopy(s, i); }
    else {
      NoRoom(s1, f);
      TailData(Without(s, i));
      assert Without(s1, i) == Without(s, i).(data := s.data[1..]);
    }
  }

  /** The invariant, or the spared case on its way back to it. */
  ghost predicate Sound(s: State) { Inv(s) || exists i :: LateAt(s, i) }

  lemma StepSound(s: State, l: Label)
    requires Sound(s) && Enabled(s, l) && Orderly(s, l)
    ensures Sound(Apply(s, l))
  {
    if Inv(s) {
      StepKeepsInv(s, l);
    } else {
      var i :| LateAt(s, i);
      match l
      case TryReceive => LateTake(s, i);
      case Wait => LateWait(s, i); assert LateAt(Apply(s, l), i);
      case ReplyTick => LateReply(s, i); assert LateAt(Apply(s, l), i);
      case _ => LateElsewhere(s, l, i); assert LateAt(Apply(s, l), i);
    }
  }

  lemma {:induction false} SoundRuns(s: State, ls: seq<Label>, t: State)
    requires Sound(s) && IsRun(s, ls, t) && OrderlyRun(s, ls)
    ensures Guarantee(t)
    decreases |ls|
  {
    if ls == [] {
      if Inv(s) { InvGuarantees(s); }
      else {
        var i :| LateAt(s, i);
        LateGuarantees(s, i);
      }
    } else {
      StepSound(s, ls[0]);
      SoundRuns(Apply(s, ls[0]), ls[1..], t);
    }
  }

  /** Parking the fresh message in any free slot of an idle receiver that holds nothing. */
  lemma FreshInSlot(w: State, f: Frame, k: nat)
    requires Inv(w) && w.rcv.mode.Idle? && !HasPending(w.rcv.table) && IsFresh(w, f) && Carried(f, w.snd.me, w.epochs)
    requires forall i | 0 <= i < |w.data| :: f.epoch <= w.data[i].frame.epoch
    requires k < |w.rcv.table| && w.rcv.table[k].None?
    ensures Inv(w.(rcv := w.rcv.(table := w.rcv.table[k := Some(f)]),
                   acks := w.acks + [AckFor(f, w.rcv.me)], accepted := w.accepted + 1))
    ensures |w.delivered| == w.accepted
  {
    FreshOpens(w, f);
    var u := w.rcv.table[k := Some(f)];
    PendingMeans(w.rcv.table);
    PendingMeans(u);
    assert IsMessage(u[k]);
    AppendAck(w.acks, AckFor(f, w.rcv.me), w.snd.me, w.rcv.me, w.accepted, w.accepted + 1, |w.epochs| - 1);
  }

  lemma SparedIsLate(s: State)
    requires Disorderly(s) && Spared(s, Wait)
    ensures LateAt(Apply(s, Wait), FirstMessage(s.rcv.table, 0))
  {
    DisorderShape(s);
    var f, i, free, t := s.data[0].frame, FirstMessage(s.rcv.table, 0), FirstFree(s.rcv.table, 0), Apply(s, Wait);
    TailData(s);
    var s1 := s.(data := s.data[1..]);
    var w := Without(s1, i);
    PendingMeans(w.rcv.table);
    assert Inv(w);
    FreshInSlot(w, f, free);
    MessageStoreFirsts(s.rcv.table, f);
    assert t.rcv.table[i := None] == s.rcv.table[i := None][free := Some(f)];
    assert Without(t, i) == w.(rcv := w.rcv.(table := w.rcv.table[free := Some(f)]),
                               acks := w.acks + [AckFor(f, w.rcv.me)], accepted := w.accepted + 1);
  }

  /** The exact hypothesis: whatever happens after a step, in order, the delivery guarantee holds if and only
      if the step is orderly or spared. */
  lemma GuaranteeIsExact(s: State, l: Label)
    requires Inv(s) && Enabled(s, l)
    ensures Orderly(s, l) || Spared(s, l) <==> forall t | CanReach(Apply(s, l), t) :: Guarantee(t)
  {
    if Orderly(s, l) || Spared(s, l) {
      if Orderly(s, l) { StepKeepsInv(s, l); } else { SparedIsLate(s); }
      forall t | CanReach(Apply(s, l), t) ensures Guarantee(t) {
        var ls :| IsRun(Apply(s, l), ls, t) && OrderlyRun(Apply(s, l), ls);
        SoundRuns(Apply(s, l), ls, t);
      }
    } else {
      var u := DisorderBreaks(s);
    }
  }
}
