/** A send after an abandoned one: it shares its epoch, and can be lost with its sender told it arrived. */
module TransportShared {
  import opened Base
  import opened ParkedFrames
  import opened Rudp
  import opened Transport
  import opened TransportSteps
  import opened TransportRuns
  import opened TransportTheorems
  import opened TransportSends

  /** The sender is idle, and no message is on the way, parked, or in hand to be delivered. */
  ghost predicate NothingLeft(s: State) {
    && s.snd.job.None?
    && (forall i | 0 <= i < |s.data| :: !s.data[i].frame.kind.MESSAGE?)
    && !HasPending(s.rcv.table)
    && (s.rcv.mode.Replying? ==> !s.rcv.mode.expected)
  }

  /** At rest with its epoch delivered, the receiver takes the only message on the way for a duplicate. */
  lemma TakenForDuplicate(r: State) returns (t: State)
    requires Inv(r) && AtRest(r.rcv) && |r.epochs| == |r.delivered|
    requires |r.data| == 1 && r.data[0].frame.kind.MESSAGE? && r.data[0].frame.epoch == |r.epochs| - 1
    ensures CanReach(r, t) && Inv(t) && t.snd == r.snd && t.epochs == r.epochs && t.delivered == r.delivered
    ensures t.data == [] && !HasPending(t.rcv.table) && (t.rcv.mode.Replying? ==> !t.rcv.mode.expected)
    ensures t.rcv.me == r.rcv.me && t.acks == r.acks + [AckFor(r.data[0].frame, r.rcv.me)]
  {
    var m, r1 := r.data[0].frame, r.(data := r.data[1..]);
    t := Apply(r, TryReceive);
    TryReceiveKeepsInv(r);
    OneStep(r, TryReceive);
    assert t == AfterReceive(r1, Got(r.rcv, m));
    GotShape(r1, r.rcv, m);
    ReplyShape(r.rcv.(mode := Replying(m, m.bit == r.rcv.bit, 0)));
    ExpectedBit(r, m, r.accepted);
  }

  /** The last ACK on the way closes the epoch. */
  lemma ToldItArrived(t: State, m: Frame) returns (u: State)
    requires Inv(t) && t.snd.job.Some? && t.data == [] && !HasPending(t.rcv.table)
    requires t.rcv.mode.Replying? ==> !t.rcv.mode.expected
    requires m.bit == t.snd.bit && t.acks != []
    requires t.acks[|t.acks| - 1].frame == Frame(t.rcv.me, ACK, m.bit, "", m.epoch)
    ensures CanReach(t, u) && NothingLeft(u) && u.epochs == t.epochs + [[]] && u.delivered == t.delivered
  {
    var v := CanLoseAcks(t, |t.acks| - 1);
    OneStep(v, SendRead);
    u := Apply(v, SendRead);
    ReachesOn(t, v, u);
    AckEndsSend(v);
  }

  lemma AckEndsSend(v: State)
    requires v.snd.job.Some? && v.acks != [] && Matches(Some(v.acks[0].frame), v.snd.peer, ACK, v.snd.bit)
    ensures var u, aa := Apply(v, SendRead), AckAck(v.snd);
      && u.rcv == v.rcv && u.delivered == v.delivered && u.snd.job.None?
      && u.data == v.data + [aa, aa, aa] && u.epochs == v.epochs + [[]]
  {
  }

  /** Whenever the open epoch has already delivered a payload its sender gave up on, the next send can be
      lost: acknowledged, its epoch closed, and no copy of it left anywhere. */
  lemma SendAfterAcceptedOneCanBeLost(s: State, payload: string, limit: int) returns (u: State)
    requires Inv(s) && s.snd.job.None? && |s.epochs| == |s.delivered|
    ensures CanReach(Apply(s, Begin(payload, limit)), u) && NothingLeft(u)
    ensures u.epochs == s.epochs[|s.epochs| - 1 := s.epochs[|s.epochs| - 1] + [payload]] + [[]]
    ensures u.delivered == s.delivered
  {
    var k, s1 := |s.epochs| - 1, Apply(s, Begin(payload, limit));
    BeginKeepsInv(s, payload, limit);
    var m := BeginSends(s, payload, limit);
    var s2 := CanLoseFront(s1, |s.data|);
    assert s2.data == [m];
    var r := CanComeToRest(s2);
    ReachesOn(s1, s2, r);
    var t := TakenForDuplicate(r);
    ReachesOn(s1, r, t);
    u := ToldItArrived(t, m.frame);
    ReachesOn(s1, t, u);
  }

  lemma BeginSends(s: State, payload: string, limit: int) returns (m: Datagram)
    requires Inv(s) && s.snd.job.None?
    ensures var t, k := Apply(s, Begin(payload, limit)), |s.epochs| - 1;
      && t.data == s.data + [m] && m.frame == Frame(s.snd.me, MESSAGE, s.snd.bit, payload, k)
      && t.rcv == s.rcv && t.delivered == s.delivered && t.snd.bit == s.snd.bit && t.snd.job.Some?
      && t.epochs == s.epochs[k := s.epochs[k] + [payload]]
  {
    var snd := s.snd.(job := Some(Sending(payload, 0, limit, |s.epochs| - 1)),
                      table := DropPeer(DropPeer(s.snd.table, s.snd.peer, ACK), s.snd.peer, ACK_ACK));
    PurgeShape(s.snd);
    TransmitShape(snd);
    m := Outgoing(snd);
  }

  lemma FirstEpoch(epochs: seq<seq<string>>, x: string)
    requires epochs == [[]]
    ensures epochs[0 := epochs[0] + [x]] == [[x]]
  {
    assert epochs[0] + [x] == [x];
  }

  lemma SecondOfEpoch(epochs: seq<seq<string>>, x: string, y: string)
    requires epochs == [[x]]
    ensures epochs[0 := epochs[0] + [y]] + [[]] == [[x, y], []]
  {
    assert epochs[0] + [y] == [x, y];
  }

  lemma FirstSent(s: State, x: string) returns (t: State, m: Datagram)
    requires Inv(s) && AtRest(s.rcv) && s.snd.job.None? && s.data == [] && s.epochs == [[]] && s.delivered == []
    requires s.accepted == 0
    ensures CanReach(s, t) && Inv(t) && t.epochs == [[x]] && t.delivered == [] && t.accepted == 0
    ensures AtRest(t.rcv) && t.data == [m] && m.frame.kind.MESSAGE? && m.frame.epoch == 0 && m.frame.data == x
    ensures t.snd.job == Some(Sending(x, 0, 1, 0))
  {
    m := BeginSends(s, x, 1);
    BeginAdds(s, x, 1, 0, x);
    BeginKeepsInv(s, x, 1);
    OneStep(s, Begin(x, 1));
    t := Apply(s, Begin(x, 1));
    assert t.data == [m];
    FirstEpoch(s.epochs, x);
  }

  lemma GivesUp(s: State) returns (t: State)
    requires Inv(s) && s.snd.job.Some? && s.snd.job.value.attempts == 0 && s.snd.job.value.limit == 1
    ensures CanReach(s, t) && Inv(t) && t.snd.job.None? && t.epochs == s.epochs && t.delivered == s.delivered
  {
    SendTickKeepsInv(s);
    OneStep(s, SendTick);
    t := Apply(s, SendTick);
  }

  /** From the start: the first send, limited to one attempt, is delivered but its sender gives up. */
  lemma AbandonedFirstSend(a: Addr, b: Addr, x: string) returns (t: State)
    ensures CanReach(Initial(a, b), t) && Inv(t) && t.snd.job.None? && t.epochs == [[x]] && t.delivered == [x]
  {
    InitialInv(a, b);
    NothingParkedIn(EmptyTable());
    var s, m := FirstSent(Initial(a, b), x);
    var u := FirstDelivered(s, m);
    ReachesOn(Initial(a, b), s, u);
    t := GivesUp(u);
    ReachesOn(Initial(a, b), u, t);
  }

  lemma FirstDelivered(s: State, m: Datagram) returns (t: State)
    requires Inv(s) && AtRest(s.rcv) && s.delivered == [] && s.accepted == 0
    requires s.data == [m] && m.frame.kind.MESSAGE? && m.frame.epoch == 0
    ensures CanReach(s, t) && Inv(t) && t.snd == s.snd && t.epochs == s.epochs && t.delivered == [m.frame.data]
  {
    var s1, u := s.(data := s.data[1..]), Apply(s, TryReceive);
    TryReceiveKeepsInv(s);
    OneStep(s, TryReceive);
    assert u == AfterReceive(s1, Got(s.rcv, m.frame));
    GotShape(s1, s.rcv, m.frame);
    if u.rcv.mode.Replying? {
      t := ReplyCanEnd(u);
      ReachesOn(s, u, t);
    } else {
      t := u;
    }
    ReachedInv(s, t);
  }

  /** The failing run of the program: a token sent after an abandoned limited send to the same peer is
      acknowledged and lost, in an orderly run from the start. */
  lemma SharedEpochLosesToken(a: Addr, b: Addr, x: string, token: string)
    ensures exists u ::
      CanReach(Initial(a, b), u) && NothingLeft(u) && u.epochs == [[x, token], []] && u.delivered == [x]
  {
    var s := AbandonedFirstSend(a, b, x);
    var u := SecondLost(s, x, token);
    ReachesOn(Initial(a, b), s, u);
  }

  lemma SecondLost(s: State, x: string, token: string) returns (u: State)
    requires Inv(s) && s.snd.job.None? && s.epochs == [[x]] && s.delivered == [x]
    ensures CanReach(s, u) && NothingLeft(u) && u.epochs == [[x, token], []] && u.delivered == [x]
  {
    u := SendAfterAcceptedOneCanBeLost(s, token, 0);
    OneStep(s, Begin(token, 0));
    ReachesOn(s, Apply(s, Begin(token, 0)), u);
    SecondOfEpoch(s.epochs, x, token);
  }
}
