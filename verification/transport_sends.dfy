/** What an unlimited send can rely on: exactly when its payload is what its epoch delivers. */
module TransportSends {
  import opened Base
  import opened ParkedFrames
  import opened Rudp
  import opened Transport
  import opened TransportSteps
  import opened TransportRuns
  import opened TransportTheorems

  /** Every message of epoch `k` on the way carries `p`. */
  ghost predicate OnlyPayload(data: seq<Datagram>, k: nat, p: string) {
    forall i | 0 <= i < |data| && data[i].frame.kind.MESSAGE? && data[i].frame.epoch == k :: data[i].frame.data == p
  }

  /** The parked message taken next carries `p`, and none can be parked in front of it that does not. */
  ghost predicate NextParked(t: Table, data: seq<Datagram>, k: nat, p: string) {
    var i := FirstMessage(t, 0);
    i < |t| && t[i].value.data == p && (FirstFree(t, 0) < i ==> OnlyPayload(data, k, p))
  }

  /** Epoch `k` can deliver nothing but `p`: it has delivered it, or `p` is in hand, or `p` is the parked
      message taken next, or nothing of the epoch is accepted and all of it that is on the way is `p`. */
  ghost predicate Settled(s: State, k: nat, p: string) {
    if k < |s.delivered| then s.delivered[k] == p
    else if k < s.accepted then
      (if s.rcv.mode.Replying? then s.rcv.mode.message.data == p else NextParked(s.rcv.table, s.data, k, p))
    else OnlyPayload(s.data, k, p)
  }

  /** While epoch `k` is open, an unlimited send of `p` is waiting. */
  ghost predicate SendsOn(s: State, k: nat, p: string) {
    && k < |s.epochs|
    && (k == |s.epochs| - 1 ==> s.snd.job.Some? && s.snd.job.value.payload == p && s.snd.job.value.limit <= 0)
  }

  // --------------------------------------------------------- the sender's steps

  /** A sender's step that adds no message of epoch `k` but `p`. */
  ghost predicate AddsOnly(s: State, t: State, k: nat, p: string) {
    && t.rcv == s.rcv && t.accepted == s.accepted && t.delivered == s.delivered
    && exists out :: t.data == s.data + out && OnlyPayload(out, k, p)
  }

  lemma AddingKeepsSettled(s: State, t: State, k: nat, p: string)
    requires AddsOnly(s, t, k, p)
    ensures Settled(s, k, p) <==> Settled(t, k, p)
  {
    var out :| t.data == s.data + out && OnlyPayload(out, k, p);
    assert OnlyPayload(s.data, k, p) <==> OnlyPayload(t.data, k, p) by {
      if OnlyPayload(t.data, k, p) {
        forall i | 0 <= i < |s.data| && s.data[i].frame.kind.MESSAGE? && s.data[i].frame.epoch == k
          ensures s.data[i].frame.data == p
        {
          assert t.data[i] == s.data[i];
        }
      }
    }
  }

  lemma BeginAdds(s: State, payload: string, limit: int, k: nat, p: string)
    requires Inv(s) && s.snd.job.None? && (k == |s.epochs| - 1 ==> payload == p)
    ensures var t := Apply(s, Begin(payload, limit));
      && AddsOnly(s, t, k, p)
      && t.snd.job == Some(Sending(payload, 0, limit, |s.epochs| - 1)) && |t.epochs| == |s.epochs|
      && t.epochs[|s.epochs| - 1] == s.epochs[|s.epochs| - 1] + [payload]
  {
    var job := Sending(payload, 0, limit, |s.epochs| - 1);
    var snd := s.snd.(job := Some(job), table := DropPeer(DropPeer(s.snd.table, s.snd.peer, ACK), s.snd.peer, ACK_ACK));
    PurgeShape(s.snd);
    TransmitShape(snd);
    assert Apply(s, Begin(payload, limit)).data == s.data + [Outgoing(snd)];
    assert OnlyPayload([Outgoing(snd)], k, p);
  }

  lemma SendTickAdds(s: State, k: nat, p: string)
    requires Inv(s) && s.snd.job.Some? && SendsOn(s, k, p)
    ensures AddsOnly(s, Apply(s, SendTick), k, p) && SendsOn(Apply(s, SendTick), k, p)
  {
    var j := s.snd.job.value;
    if j.limit > 0 && j.attempts + 1 >= j.limit {
      assert Apply(s, SendTick).data == s.data + [];
      assert OnlyPayload([], k, p);
    } else {
      var snd := s.snd.(job := Some(j.(attempts := j.attempts + 1)));
      TransmitShape(snd);
      assert Apply(s, SendTick).data == s.data + [Outgoing(snd)];
      assert OnlyPayload([Outgoing(snd)], k, p);
    }
  }

  lemma SendReadAdds(s: State, k: nat, p: string)
    requires Inv(s) && s.acks != [] && SendsOn(s, k, p)
    ensures AddsOnly(s, Apply(s, SendRead), k, p) && SendsOn(Apply(s, SendRead), k, p)
  {
    var f, t := s.acks[0].frame, Apply(s, SendRead);
    if s.snd.job.Some? && Matches(Some(f), s.snd.peer, ACK, s.snd.bit) {
      var aa := [AckAck(s.snd), AckAck(s.snd), AckAck(s.snd)];
      assert t.data == s.data + aa;
      assert OnlyPayload(aa, k, p);
    } else {
      assert t.data == s.data + [];
      assert OnlyPayload([], k, p);
    }
  }

  // ------------------------------------------------------- the receiver's steps

  lemma ReplyTickSettled(s: State, k: nat, p: string)
    requires Inv(s) && s.rcv.mode.Replying? && Settled(s, k, p)
    ensures Settled(Apply(s, ReplyTick), k, p)
  {
    ReplyTickShape(s);
  }

  /** The first free slot and the first message after a frame that is no message is parked. */
  lemma QuietStoreFirsts(t: Table, f: Frame)
    requires !f.kind.MESSAGE?
    ensures var u := Store(t, f).0;
      FirstMessage(u, 0) == FirstMessage(t, 0) && FirstFree(u, 0) >= FirstFree(t, 0)
      && (FirstMessage(t, 0) < |t| ==> u[FirstMessage(t, 0)] == t[FirstMessage(t, 0)])
  {
    QuietStore(t, f);
    var u, i, j := Store(t, f).0, FirstMessage(t, 0), FirstMessage(Store(t, f).0, 0);
    if j < |t| { assert IsMessage(t[j]); }
    StoreLaw(t, f);
  }

  /** And after a message is parked: it comes first just when it fills a slot before the first message. */
  lemma MessageStoreFirsts(t: Table, f: Frame)
    requires f.kind.MESSAGE? && Store(t, f).1
    ensures var u, free, i := Store(t, f).0, FirstFree(t, 0), FirstMessage(t, 0);
      && FirstFree(u, 0) > free
      && FirstMessage(u, 0) == (if free < i then free else i)
      && u[FirstMessage(u, 0)] == (if free < i then Some(f) else t[i])
  {
    var u, free, i := Store(t, f).0, FirstFree(t, 0), FirstMessage(t, 0);
    assert u == t[free := Some(f)];
    assert IsMessage(u[free]);
    if i < free { assert IsMessage(u[i]); }
  }

  lemma ShorterData(data: seq<Datagram>, k: nat, p: string)
    requires data != [] && OnlyPayload(data, k, p)
    ensures OnlyPayload(data[1..], k, p)
  {
    forall i | 0 <= i < |data| - 1 && data[1..][i].frame.kind.MESSAGE? && data[1..][i].frame.epoch == k
      ensures data[1..][i].frame.data == p
    {
      assert data[1..][i] == data[i + 1];
    }
  }

  /** Losing the head of the channel settles no less. */
  lemma TailSettled(s: State, k: nat, p: string)
    requires s.data != [] && Settled(s, k, p)
    ensures Settled(s.(data := s.data[1..]), k, p)
  {
    if OnlyPayload(s.data, k, p) { ShorterData(s.data, k, p); }
  }

  /** A message of the epoch next to be delivered, taken while idle, is expected. */
  lemma TakenSettled(s: State, t: State, m: Frame, k: nat, p: string)
    requires Inv(s) && s.rcv.mode.Idle? && InHandOf(s, t, m) && t.data == s.data
    requires t.accepted == (if m.epoch >= s.accepted then m.epoch + 1 else s.accepted)
    requires IsCopy(m, s.snd.me, t.accepted, s.epochs) && |s.delivered| <= t.accepted <= |s.delivered| + 1
    requires if k < |s.delivered| then s.delivered[k] == p else (k < t.accepted ==> m.data == p)
    requires t.accepted <= k ==> OnlyPayload(s.data, k, p)
    ensures Settled(t, k, p)
  {
    ExpectedBit(s, m, t.accepted);
  }

  lemma ParkedSettled(s: State, k: nat, p: string)
    requires Inv(s) && !s.rcv.mode.Replying? && HasPending(s.rcv.table) && Settled(s, k, p)
    ensures Settled(Apply(s, TryReceive), k, p)
  {
    var m := s.rcv.table[FirstMessage(s.rcv.table, 0)].value;
    assert IsCopy(m, s.snd.me, s.accepted, s.epochs);
    TakeParked(s);
    if s.rcv.mode.Idle? { TakenSettled(s, Apply(s, TryReceive), m, k, p); }
  }

  lemma SocketSettled(s: State, k: nat, p: string)
    requires Inv(s) && !s.rcv.mode.Replying? && !HasPending(s.rcv.table) && s.data != [] && Settled(s, k, p)
    ensures Settled(Apply(s, TryReceive), k, p)
  {
    var f, s1 := s.data[0].frame, s.(data := s.data[1..]);
    TailData(s);
    TailSettled(s, k, p);
    assert |s.delivered| == s.accepted;
    if f.kind.MESSAGE? && s.rcv.mode.Idle? {
      var t := AfterReceive(s1, Got(s.rcv, f));
      assert Apply(s, TryReceive) == t;
      GotShape(s1, s.rcv, f);
      if IsFresh(s, f) { FreshOpens(s1, f); }
      TakenSettled(s1, t, f, k, p);
    } else {
      assert Apply(s, TryReceive) == s1.(rcv := Apply(s, TryReceive).rcv, acks := s.acks + []);
    }
  }

  lemma TryReceiveSettled(s: State, k: nat, p: string)
    requires Inv(s) && !s.rcv.mode.Replying? && Settled(s, k, p)
    ensures Settled(Apply(s, TryReceive), k, p)
  {
    if HasPending(s.rcv.table) { ParkedSettled(s, k, p); }
    else if s.data != [] { SocketSettled(s, k, p); }
  }

  lemma HeardSettled(s: State, k: nat, p: string)
    requires Inv(s) && Enabled(s, Wait) && Orderly(s, Wait) && Settled(s, k, p)
    requires s.data[0].frame.kind.MESSAGE? && Store(s.rcv.table, s.data[0].frame).1
    ensures Settled(Apply(s, Wait), k, p)
  {
    var f, s1 := s.data[0].frame, s.(data := s.data[1..]);
    TailData(s);
    TailSettled(s, k, p);
    if IsFresh(s, f) { FreshOpens(s1, f); }
    if OnlyPayload(s.data, k, p) { ShorterData(s.data, k, p); }
    MessageStoreFirsts(s.rcv.table, f);
    assert Apply(s, Wait) == AfterReceive(s1,
      Receipt(s.rcv.(table := Store(s.rcv.table, f).0), [AckFor(f, s.rcv.me)], None));
  }

  lemma OtherHeardSettled(s: State, f: Frame, k: nat, p: string)
    requires Inv(s) && !s.rcv.mode.Discarding? && f.kind.ACK_ACK? && Settled(s, k, p)
    ensures Settled(AfterReceive(s, ReceiverHears(s.rcv, f)), k, p)
  {
    QuietStoreFirsts(s.rcv.table, f);
  }

  lemma WaitSettled(s: State, k: nat, p: string)
    requires Inv(s) && Enabled(s, Wait) && Orderly(s, Wait) && Settled(s, k, p)
    ensures Settled(Apply(s, Wait), k, p)
  {
    var f, s1 := s.data[0].frame, s.(data := s.data[1..]);
    TailData(s);
    TailSettled(s, k, p);
    if !f.kind.MESSAGE? { OtherHeardSettled(s1, f, k, p); }
    else if !Store(s.rcv.table, f).1 { NoRoom(s1, f); }
    else { HeardSettled(s, k, p); }
  }

  // ---------------------------------------------------------------- every step

  lemma ChannelSettled(s: State, l: Label, k: nat, p: string)
    requires Enabled(s, l) && Settled(s, k, p)
    requires l.LoseData? || l.RepeatData? || l.LoseAck? || l.RepeatAck?
    ensures Settled(Apply(s, l), k, p)
  {
    if OnlyPayload(s.data, k, p) { assert OnlyPayload(Apply(s, l).data, k, p); }
  }

  lemma StepSettled(s: State, l: Label, k: nat, p: string)
    requires Inv(s) && Enabled(s, l) && Orderly(s, l) && SendsOn(s, k, p) && Settled(s, k, p)
    ensures Settled(Apply(s, l), k, p)
  {
    match l
    case Begin(payload, limit) => BeginAdds(s, payload, limit, k, p); AddingKeepsSettled(s, Apply(s, l), k, p);
    case SendTick => SendTickAdds(s, k, p); AddingKeepsSettled(s, Apply(s, l), k, p);
    case SendRead => ReadSettled(s, k, p);
    case TryReceive => TryReceiveSettled(s, k, p);
    case FindNothing => NothingFound(s);
    case Wait => WaitSettled(s, k, p);
    case ReplyTick => ReplyTickSettled(s, k, p);
    case _ => ChannelSettled(s, l, k, p);
  }

  lemma ReadSettled(s: State, k: nat, p: string)
    requires Inv(s) && s.acks != [] && SendsOn(s, k, p) && Settled(s, k, p)
    ensures Settled(Apply(s, SendRead), k, p)
  {
    SendReadAdds(s, k, p);
    AddingKeepsSettled(s, Apply(s, SendRead), k, p);
  }

  lemma StepSendsOn(s: State, l: Label, k: nat, p: string)
    requires Inv(s) && Enabled(s, l) && SendsOn(s, k, p)
    ensures SendsOn(Apply(s, l), k, p)
    ensures Apply(s, l).epochs[k] == s.epochs[k]
    ensures |s.delivered| <= |Apply(s, l).delivered| && forall i | 0 <= i < |s.delivered| ::
      Apply(s, l).delivered[i] == s.delivered[i]
  {
    match l
    case Begin(payload, limit) => if k < |s.epochs| - 1 { BeginAdds(s, payload, limit, k, p); }
    case SendTick => SendTickAdds(s, k, p);
    case SendRead => SendReadAdds(s, k, p);
    case _ =>
  }

  lemma {:induction false} SettledForEver(s: State, ls: seq<Label>, t: State, k: nat, p: string)
    requires Inv(s) && IsRun(s, ls, t) && OrderlyRun(s, ls) && SendsOn(s, k, p) && Settled(s, k, p)
    ensures Inv(t) && SendsOn(t, k, p) && Settled(t, k, p) && t.epochs[k] == s.epochs[k]
    decreases |ls|
  {
    if ls != [] {
      StepKeepsInv(s, ls[0]);
      StepSettled(s, ls[0], k, p);
      StepSendsOn(s, ls[0], k, p);
      SettledForEver(Apply(s, ls[0]), ls[1..], t, k, p);
    }
  }

  /** An unlimited send of a payload its epoch can be settled on never returns without its
      acknowledgement; its payload is what the epoch delivers, once; when the send has returned it is
      delivered or held, and at rest it is delivered. */
  lemma UnlimitedSend(s: State, payload: string, limit: int, t: State)
    requires Inv(s) && s.snd.job.None? && limit <= 0 && Settled(s, |s.epochs| - 1, payload)
    requires CanReach(Apply(s, Begin(payload, limit)), t)
    ensures var k := |s.epochs| - 1;
      && k < |t.epochs| && t.epochs[k] == s.epochs[k] + [payload]
      && (|t.epochs| == k + 1 ==> t.snd.job.Some?)
      && (k < |t.delivered| ==> t.delivered[k] == payload)
      && (k < |t.epochs| - 1 ==> k < |t.delivered| || (k == |t.delivered| && Holds(t.rcv, [payload])))
      && (k < |t.epochs| - 1 && AtRest(t.rcv) ==> k < |t.delivered|)
  {
    var k, s1 := |s.epochs| - 1, Apply(s, Begin(payload, limit));
    BeginKeepsInv(s, payload, limit);
    BeginAdds(s, payload, limit, k, payload);
    AddingKeepsSettled(s, s1, k, payload);
    var ls :| IsRun(s1, ls, t) && OrderlyRun(s1, ls);
    SettledForEver(s1, ls, t, k, payload);
    ClosedIsHeld(t, k, payload);
  }

  lemma ClosedIsHeld(t: State, k: nat, p: string)
    requires Inv(t) && k < |t.epochs| && Settled(t, k, p)
    ensures k < |t.epochs| - 1 ==> k < |t.delivered| || (k == |t.delivered| && Holds(t.rcv, [p]))
    ensures k < |t.epochs| - 1 && AtRest(t.rcv) ==> k < |t.delivered|
  {
  }

  /** What the sender can tell by itself: with no send abandoned since the last acknowledged one, every
      payload is settled. */
  lemma FreshEpochSettles(s: State, payload: string)
    requires Inv(s) && s.epochs[|s.epochs| - 1] == []
    ensures Settled(s, |s.epochs| - 1, payload)
  {
    if |s.delivered| < s.accepted { AcceptedIsHeld(s); }
  }

  // -------------------------------------------- the condition is the exact one

  /** The epoch has delivered something else than `p`. */
  ghost predicate Betrays(t: State, k: nat, p: string) { k < |t.delivered| && t.delivered[k] != p }

  /** A message in hand that is expected can be delivered. */
  lemma HandDelivers(s: State, t: State, m: Frame, p: string) returns (u: State)
    requires Inv(t) && InHandOf(s, t, m) && m.bit == s.rcv.bit && m.data != p
    ensures CanReach(t, u) && Betrays(u, |s.delivered|, p)
  {
    if t.rcv.mode.Replying? {
      u := ReplyCanEnd(t);
    } else {
      u := t;
      ReachesSelf(t);
    }
  }

  /** The first parked message, when it is undelivered, can be delivered. */
  lemma ParkedDelivers(s: State, p: string) returns (u: State)
    requires Inv(s) && s.rcv.mode.Idle? && |s.delivered| < s.accepted
    requires s.rcv.table[FirstMessage(s.rcv.table, 0)].value.data != p
    ensures CanReach(s, u) && Betrays(u, |s.delivered|, p)
  {
    var m, t := s.rcv.table[FirstMessage(s.rcv.table, 0)].value, Apply(s, TryReceive);
    assert IsCopy(m, s.snd.me, s.accepted, s.epochs);
    ExpectedBit(s, m, s.accepted);
    TakeParked(s);
    TryReceiveKeepsInv(s);
    OneStep(s, TryReceive);
    u := HandDelivers(s, t, m, p);
    ReachesOn(s, t, u);
  }

  /** A copy with another payload, at the head of the channel, can be parked in front. */
  lemma OvertakerDelivers(s: State, p: string) returns (u: State)
    requires Inv(s) && s.rcv.mode.Idle? && |s.delivered| < s.accepted
    requires FirstFree(s.rcv.table, 0) < FirstMessage(s.rcv.table, 0) && s.data != []
    requires IsCopy(s.data[0].frame, s.snd.me, s.accepted, s.epochs) && s.data[0].frame.data != p
    ensures CanReach(s, u) && Betrays(u, |s.delivered|, p)
  {
    var f, t := s.data[0].frame, Apply(s, Wait);
    MessageStoreFirsts(s.rcv.table, f);
    WaitKeepsInv(s);
    OneStep(s, Wait);
    assert t.rcv.table == Store(s.rcv.table, f).0 && t.delivered == s.delivered && t.rcv.mode.Idle?;
    u := ParkedDelivers(t, p);
    ReachesOn(s, t, u);
  }

  /** A fresh message at the head of the channel can be delivered. */
  lemma FreshDelivers(s: State, p: string) returns (u: State)
    requires Inv(s) && s.data != [] && IsFresh(s, s.data[0].frame) && s.data[0].frame.data != p
    ensures CanReach(s, u) && Betrays(u, s.accepted, p)
  {
    var f := s.data[0].frame;
    var r := CanComeToRest(s);
    var t := Apply(r, TryReceive);
    TailData(r);
    FreshOpens(r.(data := r.data[1..]), f);
    ExpectedBit(r, f, r.accepted + 1);
    GotShape(r.(data := r.data[1..]), r.rcv, f);
    assert t == AfterReceive(r.(data := r.data[1..]), Got(r.rcv, f));
    TryReceiveKeepsInv(r);
    OneStep(r, TryReceive);
    u := HandDelivers(r.(data := r.data[1..]), t, f, p);
    ReachesOn(r, t, u);
    ReachesOn(s, r, u);
  }

  /** From any state in which the epoch is not settled on `p`, an orderly run delivers something else. */
  lemma UnsettledBetrays(s: State, k: nat, p: string) returns (u: State)
    requires Inv(s) && k < |s.epochs| && !Settled(s, k, p)
    ensures CanReach(s, u) && Betrays(u, k, p)
  {
    if k < |s.delivered| {
      u := s;
      ReachesSelf(s);
    } else if k < s.accepted {
      if s.rcv.mode.Replying? {
        u := ReplyCanEnd(s);
      } else if s.rcv.table[FirstMessage(s.rcv.table, 0)].value.data != p {
        u := ParkedDelivers(s, p);
      } else {
        u := OnTheWayDelivers(s, k, p);
      }
    } else {
      u := OnTheWayDelivers(s, k, p);
    }
  }

  /** A copy with another payload on the way, which can be parked in front. */
  lemma OvertakesFrom(s: State, i: nat, p: string) returns (u: State)
    requires Inv(s) && s.rcv.mode.Idle? && |s.delivered| < s.accepted
    requires FirstFree(s.rcv.table, 0) < FirstMessage(s.rcv.table, 0)
    requires i < |s.data| && IsCopy(s.data[i].frame, s.snd.me, s.accepted, s.epochs) && s.data[i].frame.data != p
    ensures CanReach(s, u) && Betrays(u, |s.delivered|, p)
  {
    var t := CanLoseFront(s, i);
    u := OvertakerDelivers(t, p);
    ReachesOn(s, t, u);
  }

  /** A fresh message with another payload on the way. */
  lemma ArrivesFrom(s: State, i: nat, p: string) returns (u: State)
    requires Inv(s) && i < |s.data| && IsFresh(s, s.data[i].frame) && s.data[i].frame.data != p
    ensures CanReach(s, u) && Betrays(u, s.accepted, p)
  {
    var t := CanLoseFront(s, i);
    u := FreshDelivers(t, p);
    ReachesOn(s, t, u);
  }

  lemma OnTheWayDelivers(s: State, k: nat, p: string) returns (u: State)
    requires Inv(s) && k < |s.epochs| && |s.delivered| <= k && !OnlyPayload(s.data, k, p)
    requires k < s.accepted ==> s.rcv.mode.Idle? && FirstFree(s.rcv.table, 0) < FirstMessage(s.rcv.table, 0)
    ensures CanReach(s, u) && Betrays(u, k, p)
  {
    var i :| 0 <= i < |s.data| && s.data[i].frame.kind.MESSAGE? && s.data[i].frame.epoch == k &&
      s.data[i].frame.data != p;
    if k < s.accepted { u := OvertakesFrom(s, i, p); } else { u := ArrivesFrom(s, i, p); }
  }

  /** The condition of `UnlimitedSend` is exact: whatever happens the epoch delivers this payload or nothing
      if and only if the epoch is settled on it when the send begins. */
  lemma UnlimitedSendExact(s: State, payload: string, limit: int)
    requires Inv(s) && s.snd.job.None? && limit <= 0
    ensures var k := |s.epochs| - 1;
      Settled(s, k, payload) <==>
        forall t | CanReach(Apply(s, Begin(payload, limit)), t) && k < |t.delivered| :: t.delivered[k] == payload
  {
    var k, s1 := |s.epochs| - 1, Apply(s, Begin(payload, limit));
    if Settled(s, k, payload) {
      forall t | CanReach(s1, t) && k < |t.delivered| ensures t.delivered[k] == payload {
        UnlimitedSend(s, payload, limit, t);
      }
    } else {
      BeginKeepsInv(s, payload, limit);
      BeginAdds(s, payload, limit, k, payload);
      AddingKeepsSettled(s, s1, k, payload);
      var u := UnsettledBetrays(s1, k, payload);
      assert CanReach(s1, u) && k < |u.delivered| && u.delivered[k] != payload;
    }
  }

  lemma {:induction false} DeliveriesStay(s: State, ls: seq<Label>, t: State)
    requires IsRun(s, ls, t)
    ensures s.delivered <= t.delivered
    decreases |ls|
  {
    if ls != [] { DeliveriesStay(Apply(s, ls[0]), ls[1..], t); }
  }

  /** Once the open epoch has delivered, nothing else sent in it is ever delivered for it. */
  lemma TooLate(s: State, t: State)
    requires Inv(s) && |s.epochs| == |s.delivered| && CanReach(s, t)
    ensures |s.delivered| <= |t.delivered| && t.delivered[|s.epochs| - 1] == s.delivered[|s.epochs| - 1]
  {
    var ls :| IsRun(s, ls, t) && OrderlyRun(s, ls);
    DeliveriesStay(s, ls, t);
  }
}
