/** Every orderly step keeps the transport's invariant. */
module TransportSteps {
  import opened Base
  import opened ParkedFrames
  import opened Rudp
  import PeerBits
  import opened Transport

  // ------------------------------------------------------------------ channels

  /** Losing or repeating a datagram keeps the rest in order. */
  lemma Disturbed(c: seq<Datagram>, i: nat)
    requires i < |c| && Sorted(c)
    ensures Sorted(Lost(c, i)) && Sorted(Repeated(c, i))
  {
    var l, r := Lost(c, i), Repeated(c, i);
    forall p, q | 0 <= p < q < |l| ensures l[p].frame.epoch <= l[q].frame.epoch {
      assert l[p] == c[if p < i then p else p + 1];
      assert l[q] == c[if q < i then q else q + 1];
    }
    forall p, q | 0 <= p < q < |r| ensures r[p].frame.epoch <= r[q].frame.epoch {
      assert r[p] == c[if p <= i then p else p - 1];
      assert r[q] == c[if q <= i then q else q - 1];
    }
  }

  lemma DataDisturbed(data: seq<Datagram>, i: nat, a: Addr, b: Addr, accepted: nat, epochs: seq<seq<string>>)
    requires DataOk(data, a, b, accepted, epochs) && i < |data|
    ensures DataOk(Lost(data, i), a, b, accepted, epochs)
    ensures DataOk(Repeated(data, i), a, b, accepted, epochs)
  {
    Disturbed(data, i);
  }

  lemma AcksDisturbed(acks: seq<Datagram>, i: nat, a: Addr, b: Addr, accepted: nat, open: int)
    requires AcksOk(acks, a, b, accepted, open) && i < |acks|
    ensures AcksOk(Lost(acks, i), a, b, accepted, open)
    ensures AcksOk(Repeated(acks, i), a, b, accepted, open)
  {
    Disturbed(acks, i);
  }

  /** Bits one epoch apart differ, so a bit tells the two apart. */
  lemma BitTells(e: nat, k: nat)
    requires k <= e + 1 && e <= k + 1 && Parity(e) == Parity(k)
    ensures e == k
  {
    assert Parity(k + 1) == PeerBits.Other(Parity(k));
    assert Parity(e + 1) == PeerBits.Other(Parity(e));
  }

  // -------------------------------------------------------------------- the sender

  ghost predicate NoAckParked(s: Sender) {
    forall i | 0 <= i < |s.table| :: !Matches(s.table[i], s.peer, ACK, s.bit)
  }

  lemma TransmitShape(s: Sender)
    requires s.job.Some? && NoAckParked(s)
    ensures Transmit(s) == SendResult(s, [Outgoing(s)])
  {
  }

  lemma PurgeShape(s: Sender)
    ensures NoAckParked(s.(table := DropPeer(DropPeer(s.table, s.peer, ACK), s.peer, ACK_ACK)))
  {
    var t := DropPeer(s.table, s.peer, ACK);
    assert forall i | 0 <= i < |t| :: !Matches(t[i], s.peer, ACK, s.bit);
  }

  lemma AppendData(data: seq<Datagram>, d: Datagram, a: Addr, b: Addr, accepted: nat, epochs: seq<seq<string>>)
    requires DataOk(data, a, b, accepted, epochs)
    requires d.to == b && !d.frame.kind.ACK? && Carried(d.frame, a, epochs)
    requires d.frame.epoch + 1 == |epochs| && accepted <= |epochs|
    ensures DataOk(data + [d], a, b, accepted, epochs)
  {
    var c := data + [d];
    assert forall i | 0 <= i < |data| :: c[i] == data[i];
  }

  /** Adding to the open epoch changes no other and takes nothing away. */
  ghost predicate Grown(was: seq<seq<string>>, epochs: seq<seq<string>>) {
    |was| <= |epochs| && forall e, p | 0 <= e < |was| && p in was[e] :: p in epochs[e]
  }

  lemma GrownKeeps(s: State, epochs: seq<seq<string>>)
    requires Inv(s) && Grown(s.epochs, epochs)
    ensures DataOk(s.data, s.snd.me, s.rcv.me, s.accepted, epochs)
    ensures ParkedOk(s.rcv.table, s.snd.me, s.accepted, epochs)
    ensures ModeOk(s.rcv, s.snd.me, s.accepted, |s.delivered|, epochs)
    ensures InOrder(s.delivered, epochs)
  {
  }

  /** A message of the open epoch goes out; nothing else changes but the sender's own record. */
  lemma TransmitKeepsInv(s: State, epochs: seq<seq<string>>, snd: Sender)
    requires Inv(s) && Grown(s.epochs, epochs) && |epochs| == |s.epochs|
    requires snd.me == s.snd.me && snd.peer == s.snd.peer && snd.bit == s.snd.bit
    requires snd.job.Some? && NoAckParked(snd)
    requires snd.job.value.epoch + 1 == |epochs| && snd.job.value.payload in epochs[snd.job.value.epoch]
    ensures Inv(AfterSend(s.(epochs := epochs), Transmit(snd)))
  {
    TransmitShape(snd);
    GrownKeeps(s, epochs);
    AppendData(s.data, Outgoing(snd), s.snd.me, s.rcv.me, s.accepted, epochs);
  }

  lemma BeginKeepsInv(s: State, payload: string, limit: int)
    requires Inv(s) && s.snd.job.None?
    ensures Inv(Apply(s, Begin(payload, limit)))
  {
    var k := |s.epochs| - 1;
    var epochs := s.epochs[k := s.epochs[k] + [payload]];
    var purged := s.snd.(table := DropPeer(DropPeer(s.snd.table, s.snd.peer, ACK), s.snd.peer, ACK_ACK));
    PurgeShape(s.snd);
    TransmitKeepsInv(s, epochs, purged.(job := Some(Sending(payload, 0, limit, k))));
  }

  lemma GiveUpKeepsInv(s: State)
    requires Inv(s) && s.snd.job.Some?
    ensures Inv(AfterSend(s, SendResult(s.snd.(job := None), [])))
  {
    assert s.data + [] == s.data;
  }

  lemma SendTickKeepsInv(s: State)
    requires Inv(s) && s.snd.job.Some?
    ensures Inv(Apply(s, SendTick))
  {
    var j := s.snd.job.value;
    if j.limit > 0 && j.attempts + 1 >= j.limit {
      GiveUpKeepsInv(s);
    } else {
      TransmitKeepsInv(s, s.epochs, s.snd.(job := Some(j.(attempts := j.attempts + 1))));
      assert s.(epochs := s.epochs) == s;
    }
  }

  lemma TailAcks(s: State)
    requires Inv(s) && s.acks != []
    ensures Inv(s.(acks := s.acks[1..]))
    ensures forall i | 0 <= i < |s.acks[1..]| :: s.acks[0].frame.epoch <= s.acks[1..][i].frame.epoch
  {
    var c := s.acks[1..];
    assert forall j | 0 <= j < |c| :: c[j] == s.acks[j + 1];
  }

  /** What the sender reads ends its wait only when the open epoch has been accepted. */
  lemma AckIsSound(s: State)
    requires Inv(s) && s.snd.job.Some? && s.acks != []
    requires Matches(Some(s.acks[0].frame), s.snd.peer, ACK, s.snd.bit)
    ensures s.acks[0].frame.epoch + 1 == |s.epochs| == s.accepted
  {
    BitTells(s.acks[0].frame.epoch, |s.epochs| - 1);
  }

  lemma AcknowledgedKeepsInv(s: State, rest: seq<Datagram>)
    requires Inv(s) && s.snd.job.Some? && s.accepted == |s.epochs|
    requires AcksOk(rest, s.snd.me, s.rcv.me, s.accepted, |s.epochs|)
    ensures Inv(AfterSend(s.(acks := rest), Acknowledged(s.snd)))
  {
    var epochs, d := s.epochs + [[]], AckAck(s.snd);
    GrownKeeps(s, epochs);
    var k := |s.epochs| - 1;
    assert Parity(k + 1) == PeerBits.Other(Parity(k));
    AckAcksOk(s.data, d, s.snd.me, s.rcv.me, s.accepted, epochs);
  }

  lemma AckAcksOk(data: seq<Datagram>, d: Datagram, a: Addr, b: Addr, accepted: nat, epochs: seq<seq<string>>)
    requires DataOk(data, a, b, accepted, epochs)
    requires d.to == b && d.frame.kind.ACK_ACK? && Carried(d.frame, a, epochs)
    requires d.frame.epoch + 2 == |epochs| && accepted == d.frame.epoch + 1
    requires forall i | 0 <= i < |data| :: data[i].frame.epoch <= d.frame.epoch
    ensures DataOk(data + [d, d, d], a, b, accepted, epochs)
  {
    var c := data + [d, d, d];
    assert forall i | 0 <= i < |c| :: c[i] == if i < |data| then data[i] else d;
  }

  lemma SendReadKeepsInv(s: State)
    requires Inv(s) && s.acks != []
    ensures Inv(Apply(s, SendRead))
  {
    TailAcks(s);
    var f, rest := s.acks[0].frame, s.acks[1..];
    if s.snd.job.Some? {
      if Matches(Some(f), s.snd.peer, ACK, s.snd.bit) {
        AckIsSound(s);
        AcknowledgedKeepsInv(s, rest);
        assert s.snd.(table := s.snd.table) == s.snd;
      } else {
        var h := Hear(s.snd.table, f, s.snd.me, s.snd.peer, ACK, s.snd.bit);
        assert h == Heard(Store(s.snd.table, f).0, [], false);
        assert s.data + [] == s.data;
      }
    }
  }

  // ------------------------------------------------------------------ the receiver

  /** Parking or taking a frame that is no message leaves the parked messages alone. */
  ghost predicate SameMessages(t: Table, u: Table) {
    && |t| == |u|
    && (HasPending(t) <==> HasPending(u))
    && forall i | 0 <= i < |u| && IsMessage(u[i]) :: t[i] == u[i]
  }

  lemma PendingMeans(t: Table)
    ensures HasPending(t) <==> exists i :: 0 <= i < |t| && IsMessage(t[i])
  {
  }

  lemma QuietUpdate(t: Table, k: nat, e: Option<Frame>)
    requires k < |t| && !IsMessage(t[k]) && !IsMessage(e)
    ensures SameMessages(t, t[k := e])
  {
    var u := t[k := e];
    PendingMeans(t);
    PendingMeans(u);
    if i :| 0 <= i < |t| && IsMessage(t[i]) { assert IsMessage(u[i]); }
    if i :| 0 <= i < |u| && IsMessage(u[i]) { assert IsMessage(t[i]); }
  }

  lemma QuietStore(t: Table, f: Frame)
    requires !f.kind.MESSAGE?
    ensures SameMessages(t, Store(t, f).0)
  {
    var twin, free := FirstMatch(t, f.addr, f.kind, f.bit, 0), FirstFree(t, 0);
    if twin < |t| { QuietUpdate(t, twin, Some(f)); }
    else if free < |t| { QuietUpdate(t, free, Some(f)); }
  }

  lemma QuietTake(t: Table, addr: Addr, bit: Bit)
    ensures SameMessages(t, TakeFrame(t, addr, ACK_ACK, bit).0)
  {
    var k := FirstMatch(t, addr, ACK_ACK, bit, 0);
    if k < |t| { QuietUpdate(t, k, None); }
  }

  lemma AppendAck(acks: seq<Datagram>, d: Datagram, a: Addr, b: Addr, accepted: nat, accepted': nat, open: int)
    requires AcksOk(acks, a, b, accepted, open) && accepted <= accepted'
    requires AckOk(d, a, b, accepted', open) && d.frame.epoch + 1 == accepted'
    ensures AcksOk(acks + [d], a, b, accepted', open)
  {
    var c := acks + [d];
    assert forall i | 0 <= i < |acks| :: c[i] == acks[i];
  }

  /** The receiver with its table changed as far as other frames go. */
  lemma QuietKeepsInv(s: State, u: Table)
    requires Inv(s) && SameMessages(s.rcv.table, u)
    ensures Inv(s.(rcv := s.rcv.(table := u)))
  {
  }

  lemma FinishKeepsInv(s: State)
    requires Inv(s) && s.rcv.mode.Replying?
    ensures Inv(AfterReceive(s, Finish(s.rcv)))
  {
    assert s.acks + [] == s.acks;
    var d := |s.delivered|;
    assert Parity(d + 1) == PeerBits.Other(Parity(d));
  }

  /** The message in hand is acknowledged once more. */
  lemma ReplyKeepsInv(s: State)
    requires Inv(s) && s.rcv.mode.Replying?
    ensures Inv(AfterReceive(s, Reply(s.rcv)))
  {
    var m := s.rcv.mode.message;
    var d := AckFor(m, s.rcv.me);
    var (u, e) := TakeFrame(s.rcv.table, m.addr, ACK_ACK, m.bit);
    QuietTake(s.rcv.table, m.addr, m.bit);
    QuietKeepsInv(s, u);
    var s1 := s.(rcv := s.rcv.(table := u));
    AppendAck(s.acks, d, s.snd.me, s.rcv.me, s.accepted, s.accepted, |s.epochs| - 1);
    var s2 := s1.(acks := s.acks + [d]);
    assert Inv(s2);
    if e.Some? {
      FinishKeepsInv(s2);
      assert s2.acks + [] == s2.acks;
      assert AfterReceive(s, Reply(s.rcv)) == AfterReceive(s2, Finish(s2.rcv));
    } else {
      assert AfterReceive(s, Reply(s.rcv)) == s2;
    }
  }

  lemma AttemptCounted(s: State, n: nat)
    requires Inv(s) && s.rcv.mode.Replying?
    ensures Inv(s.(rcv := s.rcv.(mode := s.rcv.mode.(attempts := n))))
  {
  }

  lemma ReplyTickKeepsInv(s: State)
    requires Inv(s) && s.rcv.mode.Replying?
    ensures Inv(Apply(s, ReplyTick))
  {
    var n := s.rcv.mode.attempts + 1;
    var s1 := s.(rcv := s.rcv.(mode := s.rcv.mode.(attempts := n)));
    AttemptCounted(s, n);
    assert Apply(s, ReplyTick)
        == AfterReceive(s1, if n >= MAX_TRANSMISSION_ATTEMPTS then Finish(s1.rcv) else Reply(s1.rcv));
    if n >= MAX_TRANSMISSION_ATTEMPTS { FinishKeepsInv(s1); } else { ReplyKeepsInv(s1); }
  }

  // ------------------------------------------- messages reach the receiver

  /** Reading the head off the socket. */
  lemma TailData(s: State)
    requires Inv(s) && s.data != []
    ensures Inv(s.(data := s.data[1..]))
    ensures forall i | 0 <= i < |s.data[1..]| :: s.data[0].frame.epoch <= s.data[1..][i].frame.epoch
  {
    var c := s.data[1..];
    assert forall j | 0 <= j < |c| :: c[j] == s.data[j + 1];
  }

  /** A fresh message is accepted: it must be of the epoch just opened, and what follows is no older. */
  lemma FreshOpens(s: State, f: Frame)
    requires Inv(s) && f.kind.MESSAGE? && IsFresh(s, f) && Carried(f, s.snd.me, s.epochs)
    requires forall i | 0 <= i < |s.data| :: f.epoch <= s.data[i].frame.epoch
    ensures f.epoch == s.accepted && s.accepted + 1 == |s.epochs|
    ensures IsCopy(f, s.snd.me, s.accepted + 1, s.epochs)
    ensures DataOk(s.data, s.snd.me, s.rcv.me, s.accepted + 1, s.epochs)
    ensures AcksOk(s.acks, s.snd.me, s.rcv.me, s.accepted + 1, |s.epochs| - 1)
  {
  }

  lemma NothingParked(t: Table, a: Addr, accepted: nat, epochs: seq<seq<string>>)
    requires !HasPending(t)
    ensures ParkedOk(t, a, accepted, epochs)
  {
    PendingMeans(t);
  }

  /** A message taken while idle, parked or not, has the expected bit exactly when it is undelivered. */
  lemma ExpectedBit(s: State, f: Frame, accepted: nat)
    requires Rhythm(s) && IsCopy(f, s.snd.me, accepted, s.epochs)
    requires |s.delivered| <= accepted <= |s.delivered| + 1
    ensures f.bit == s.rcv.bit <==> |s.delivered| == accepted - 1
  {
    var d := |s.delivered|;
    assert d > 0 ==> Parity(d) == PeerBits.Other(Parity(d - 1));
    assert Parity(d + 1) == PeerBits.Other(Parity(d));
  }

  /** A copy of the last accepted message comes into hand; `u` is the table it leaves behind. */
  lemma InHand(s: State, m: Frame, u: Table)
    requires Inv(s) && s.rcv.mode.Idle? && IsCopy(m, s.snd.me, s.accepted, s.epochs)
    requires ParkedOk(u, s.snd.me, s.accepted, s.epochs)
    ensures Inv(AfterReceive(s, Got(s.rcv.(table := u), m)))
  {
    ExpectedBit(s, m, s.accepted);
    var r := s.rcv.(table := u, mode := Replying(m, m.bit == s.rcv.bit, 0));
    assert Inv(s.(rcv := r));
    ReplyKeepsInv(s.(rcv := r));
    assert AfterReceive(s, Got(s.rcv.(table := u), m)) == AfterReceive(s.(rcv := r), Reply(r));
  }

  lemma ReplyShape(r: Receiver)
    requires r.mode.Replying?
    ensures Reply(r).out == [AckFor(r.mode.message, r.me)]
  {
  }

  /** A fresh message comes into hand: nothing is parked and nothing is undelivered. */
  lemma FreshInHand(s: State, f: Frame)
    requires Inv(s) && s.rcv.mode.Idle? && !HasPending(s.rcv.table)
    requires IsFresh(s, f) && Carried(f, s.snd.me, s.epochs)
    requires forall i | 0 <= i < |s.data| :: f.epoch <= s.data[i].frame.epoch
    ensures Inv(AfterReceive(s, Got(s.rcv, f)))
  {
    FreshOpens(s, f);
    var accepted := s.accepted + 1;
    NothingParked(s.rcv.table, s.snd.me, accepted, s.epochs);
    ExpectedBit(s, f, accepted);
    var r := s.rcv.(mode := Replying(f, f.bit == s.rcv.bit, 0));
    var s1 := s.(rcv := r, accepted := accepted);
    assert Inv(s1);
    ReplyKeepsInv(s1);
    ReplyShape(r);
    assert AfterReceive(s, Got(s.rcv, f)) == AfterReceive(s1, Reply(r));
  }

  lemma TakenKeepsParked(t: Table, k: nat, a: Addr, accepted: nat, epochs: seq<seq<string>>)
    requires ParkedOk(t, a, accepted, epochs) && k < |t|
    ensures ParkedOk(t[k := None], a, accepted, epochs)
  {
  }

  lemma ParkedTaken(s: State)
    requires Inv(s) && !s.rcv.mode.Replying? && HasPending(s.rcv.table)
    ensures Inv(AfterPoll(s))
  {
    var k := FirstMessage(s.rcv.table, 0);
    var m, u := s.rcv.table[k].value, s.rcv.table[k := None];
    TakenKeepsParked(s.rcv.table, k, s.snd.me, s.accepted, s.epochs);
    if s.rcv.mode.Idle? {
      InHand(s, m, u);
      assert AfterPoll(s) == AfterReceive(s, Got(s.rcv.(table := u), m));
    } else {
      assert s.acks + [] == s.acks;
      assert AfterPoll(s) == s.(rcv := s.rcv.(table := u, mode := Idle));
    }
  }

  lemma SocketRead(s: State)
    requires Inv(s) && !s.rcv.mode.Replying? && !HasPending(s.rcv.table) && s.data != []
    ensures Inv(AfterPoll(s))
  {
    TailData(s);
    var f, s' := s.data[0].frame, s.(data := s.data[1..]);
    assert s.acks + [] == s.acks;
    if !f.kind.MESSAGE? {
      QuietStore(s.rcv.table, f);
      QuietKeepsInv(s', Store(s.rcv.table, f).0);
      assert AfterPoll(s) == s'.(rcv := s.rcv.(table := Store(s.rcv.table, f).0));
    } else if s.rcv.mode.Discarding? {
      assert AfterPoll(s) == s'.(rcv := s.rcv.(mode := Idle));
    } else {
      assert AfterPoll(s) == AfterReceive(s', Got(s.rcv, f));
      if IsFresh(s, f) {
        FreshInHand(s', f);
      } else {
        InHand(s', f, s.rcv.table);
        assert s.rcv.(table := s.rcv.table) == s.rcv;
      }
    }
  }

  lemma TryReceiveKeepsInv(s: State)
    requires Inv(s) && !s.rcv.mode.Replying?
    ensures Inv(Apply(s, TryReceive))
  {
    if HasPending(s.rcv.table) { ParkedTaken(s); }
    else if s.data != [] { SocketRead(s); }
    else {
      assert s.acks + [] == s.acks;
      assert AfterPoll(s) == s.(rcv := s.rcv.(mode := Idle));
    }
  }

  /** A read that finds nothing ends the call. */
  lemma NothingFound(s: State)
    requires !s.rcv.mode.Replying? && !HasPending(s.rcv.table)
    ensures Apply(s, FindNothing) == s.(rcv := s.rcv.(mode := Idle))
    ensures Inv(s) ==> Inv(Apply(s, FindNothing))
  {
    assert s.acks + [] == s.acks;
  }

  // ------------------------------------------- frames read while waiting

  lemma ParkOne(t: Table, f: Frame, a: Addr, accepted: nat, epochs: seq<seq<string>>)
    requires ParkedOk(t, a, accepted, epochs) && IsCopy(f, a, accepted, epochs)
    ensures ParkedOk(Store(t, f).0, a, accepted, epochs)
    ensures HasPending(t) || Store(t, f).1 ==> HasPending(Store(t, f).0)
  {
    var u, free := Store(t, f).0, FirstFree(t, 0);
    PendingMeans(t);
    PendingMeans(u);
    if free < |t| { assert IsMessage(u[free]); }
  }

  /** A copy read while waiting is parked and acknowledged again. */
  lemma CopyHeard(s: State, f: Frame)
    requires Inv(s) && !s.rcv.mode.Discarding? && IsCopy(f, s.snd.me, s.accepted, s.epochs)
    requires Store(s.rcv.table, f).1
    ensures Inv(AfterReceive(s, ReceiverHears(s.rcv, f)))
  {
    ParkOne(s.rcv.table, f, s.snd.me, s.accepted, s.epochs);
    var s1 := s.(rcv := s.rcv.(table := Store(s.rcv.table, f).0));
    assert Inv(s1);
    var d := AckFor(f, s.rcv.me);
    AppendAck(s.acks, d, s.snd.me, s.rcv.me, s.accepted, s.accepted, |s.epochs| - 1);
    assert AfterReceive(s, ReceiverHears(s.rcv, f)) == s1.(acks := s.acks + [d]);
  }

  /** A fresh message read while idle, with nothing parked, becomes the one parked message. */
  lemma FreshHeard(s: State, f: Frame)
    requires Inv(s) && s.rcv.mode.Idle? && !HasPending(s.rcv.table)
    requires IsFresh(s, f) && Carried(f, s.snd.me, s.epochs) && Store(s.rcv.table, f).1
    requires forall i | 0 <= i < |s.data| :: f.epoch <= s.data[i].frame.epoch
    ensures Inv(AfterReceive(s, ReceiverHears(s.rcv, f)))
  {
    FreshOpens(s, f);
    var accepted := s.accepted + 1;
    NothingParked(s.rcv.table, s.snd.me, accepted, s.epochs);
    ParkOne(s.rcv.table, f, s.snd.me, accepted, s.epochs);
    var d := AckFor(f, s.rcv.me);
    AppendAck(s.acks, d, s.snd.me, s.rcv.me, s.accepted, accepted, |s.epochs| - 1);
    assert AfterReceive(s, ReceiverHears(s.rcv, f))
        == s.(rcv := s.rcv.(table := Store(s.rcv.table, f).0), acks := s.acks + [d], accepted := accepted);
  }

  lemma OtherHeard(s: State, f: Frame)
    requires Inv(s) && !s.rcv.mode.Discarding? && f.kind.ACK_ACK?
    ensures Inv(AfterReceive(s, ReceiverHears(s.rcv, f)))
  {
    assert s.acks + [] == s.acks;
    if s.rcv.mode.Replying? && Matches(Some(f), s.rcv.mode.message.addr, ACK_ACK, s.rcv.mode.message.bit) {
      FinishKeepsInv(s);
      assert AfterReceive(s, ReceiverHears(s.rcv, f)) == AfterReceive(s, Finish(s.rcv));
    } else {
      QuietStore(s.rcv.table, f);
      QuietKeepsInv(s, Store(s.rcv.table, f).0);
      assert AfterReceive(s, ReceiverHears(s.rcv, f)) == s.(rcv := s.rcv.(table := Store(s.rcv.table, f).0));
    }
  }

  lemma NoRoom(s: State, f: Frame)
    requires f.kind.MESSAGE? && !s.rcv.mode.Discarding? && !Store(s.rcv.table, f).1
    ensures AfterReceive(s, ReceiverHears(s.rcv, f)) == s
  {
    assert s.acks + [] == s.acks;
  }

  lemma WaitKeepsInv(s: State)
    requires Inv(s) && Enabled(s, Wait) && Orderly(s, Wait)
    ensures Inv(Apply(s, Wait))
  {
    TailData(s);
    var f, s' := s.data[0].frame, s.(data := s.data[1..]);
    if !f.kind.MESSAGE? { OtherHeard(s', f); }
    else if !Store(s.rcv.table, f).1 { NoRoom(s', f); }
    else if IsFresh(s, f) { FreshHeard(s', f); }
    else { CopyHeard(s', f); }
  }

  lemma ChannelKeepsInv(s: State, l: Label)
    requires Inv(s) && Enabled(s, l) && (l.LoseData? || l.RepeatData? || l.LoseAck? || l.RepeatAck?)
    ensures Inv(Apply(s, l))
  {
    match l
    case LoseData(i) => DataDisturbed(s.data, i, s.snd.me, s.rcv.me, s.accepted, s.epochs);
    case RepeatData(i) => DataDisturbed(s.data, i, s.snd.me, s.rcv.me, s.accepted, s.epochs);
    case LoseAck(i) => AcksDisturbed(s.acks, i, s.snd.me, s.rcv.me, s.accepted, |s.epochs| - 1);
    case RepeatAck(i) => AcksDisturbed(s.acks, i, s.snd.me, s.rcv.me, s.accepted, |s.epochs| - 1);
  }

  lemma StepKeepsInv(s: State, l: Label)
    requires Inv(s) && Enabled(s, l) && Orderly(s, l)
    ensures Inv(Apply(s, l))
  {
    match l
    case Begin(payload, limit) => BeginKeepsInv(s, payload, limit);
    case SendTick => SendTickKeepsInv(s);
    case SendRead => SendReadKeepsInv(s);
    case TryReceive => TryReceiveKeepsInv(s);
    case FindNothing => NothingFound(s);
    case Wait => WaitKeepsInv(s);
    case ReplyTick => ReplyTickKeepsInv(s);
    case _ => ChannelKeepsInv(s, l);
  }
}
