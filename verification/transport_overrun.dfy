/** A run outside the transport's hypothesis in which an acknowledged message is thrown away. */
module TransportOverrun {
  import opened Base
  import opened ParkedFrames
  import opened Rudp
  import opened Transport
  import opened TransportRuns
  import opened TransportTheorems

  function Message(a: Addr, b: Addr, epoch: Bit): Datagram {
    Datagram(b, Frame(a, MESSAGE, epoch, if epoch == 0 then "x" else "y", epoch))
  }

  function Ack(a: Addr, b: Addr, epoch: Bit): Datagram { Datagram(a, Frame(b, ACK, epoch, "", epoch)) }

  function Twice(a: Addr, b: Addr, epoch: Bit): Datagram { Datagram(b, Frame(a, ACK_ACK, epoch, "", epoch)) }

  /** "x" is delivered and acknowledged; the receiver replies to a second copy of it, and "y" is on its way. */
  function Midway(a: Addr, b: Addr): State {
    State(Sender(a, b, 1, Some(Sending("y", 0, 0, 1)), EmptyTable()),
          Receiver(b, 1, Replying(Message(a, b, 0).frame, false, 0), EmptyTable()),
          [Message(a, b, 1)], [], [["x"], ["y"]], 1, ["x"])
  }

  /** The first slot parks a message in an empty table, and taking it leaves the table empty. */
  lemma OneParked(f: Frame, a: Addr, bit: Bit)
    requires f.kind.MESSAGE?
    ensures Store(EmptyTable(), f) == (EmptyTable()[0 := Some(f)], true)
    ensures TakeMessage(EmptyTable()[0 := Some(f)]) == (EmptyTable(), Some(f))
    ensures HasPending(EmptyTable()[0 := Some(f)])
    ensures TakeFrame(EmptyTable()[0 := Some(f)], a, ACK_ACK, bit) == (EmptyTable()[0 := Some(f)], None)
  {
    var t := EmptyTable()[0 := Some(f)];
    assert t[0 := None] == EmptyTable();
    assert FirstMessage(t, 0) == 0;
  }

  lemma EmptyPurged(a: Addr)
    ensures DropPeer(DropPeer(EmptyTable(), a, ACK), a, ACK_ACK) == EmptyTable()
  {
    assert DropPeer(EmptyTable(), a, ACK) == EmptyTable();
  }

  /** With an empty table a send just transmits. */
  lemma Sends(s: State, payload: string)
    requires s.snd.table == EmptyTable() && s.snd.job.None? && s.epochs != []
    ensures var k := |s.epochs| - 1;
      var job := Sending(payload, 0, 0, k);
      Apply(s, Begin(payload, 0)) ==
        s.(snd := s.snd.(job := Some(job)), epochs := s.epochs[k := s.epochs[k] + [payload]],
           data := s.data + [Datagram(s.snd.peer, Frame(s.snd.me, MESSAGE, s.snd.bit, payload, k))])
  {
    NothingParkedIn(EmptyTable());
    EmptyPurged(s.snd.peer);
  }

  /** With an empty table a reply just acknowledges. */
  lemma Replies(r: Receiver)
    requires r.mode.Replying? && r.table == EmptyTable()
    ensures Reply(r) == Receipt(r, [AckFor(r.mode.message, r.me)], None)
  {
    NothingParkedIn(EmptyTable());
  }

  function Sent(a: Addr, b: Addr): State {
    State(Sender(a, b, 0, Some(Sending("x", 0, 0, 0)), EmptyTable()), Receiver(b, 0, Idle, EmptyTable()),
          [Message(a, b, 0), Message(a, b, 0)], [], [["x"]], 0, [])
  }

  lemma FirstSend(a: Addr, b: Addr)
    ensures CanReach(Initial(a, b), Sent(a, b))
  {
    var s0, m := Initial(a, b), Message(a, b, 0);
    Sends(s0, "x");
    var s1 := Apply(s0, Begin("x", 0));
    assert s1.data == [m];
    assert Repeated([m], 0) == [m, m];
    assert s1.epochs[0] == ["x"];
    assert s1.epochs == [["x"]];
    assert Apply(s1, RepeatData(0)) == Sent(a, b);
    OneStep(s0, Begin("x", 0));
    OneStep(s1, RepeatData(0));
    ReachesOn(s0, s1, Sent(a, b));
  }

  function Closed(a: Addr, b: Addr): State {
    var aa := Twice(a, b, 0);
    State(Sender(a, b, 1, None, EmptyTable()), Receiver(b, 0, Replying(Message(a, b, 0).frame, true, 0), EmptyTable()),
          [Message(a, b, 0), aa, aa, aa], [], [["x"], []], 1, [])
  }

  lemma FirstReceive(a: Addr, b: Addr)
    ensures CanReach(Sent(a, b), Closed(a, b))
  {
    var s0, m := Sent(a, b), Message(a, b, 0);
    NothingParkedIn(EmptyTable());
    var r := Receiver(b, 0, Replying(m.frame, true, 0), EmptyTable());
    Replies(r);
    assert Got(s0.rcv, m.frame) == Reply(r);
    assert s0.data[1..] == [m];
    var s1 := s0.(data := [m], rcv := r, acks := [Ack(a, b, 0)], accepted := 1);
    assert Apply(s0, TryReceive) == s1;
    assert s1.acks[1..] == [];
    assert Apply(s1, SendRead) == Closed(a, b);
    OneStep(s0, TryReceive);
    OneStep(s1, SendRead);
    ReachesOn(s0, s1, Closed(a, b));
  }

  /** The second copy is parked, the reply ends, and the parked copy comes into hand as a duplicate. */
  function Duplicate(a: Addr, b: Addr): State {
    var aa := Twice(a, b, 0);
    State(Sender(a, b, 1, None, EmptyTable()), Receiver(b, 1, Replying(Message(a, b, 0).frame, false, 0), EmptyTable()),
          [aa, aa], [Ack(a, b, 0), Ack(a, b, 0)], [["x"], []], 1, ["x"])
  }

  lemma SecondCopy(a: Addr, b: Addr)
    ensures CanReach(Closed(a, b), Duplicate(a, b))
  {
    var s0, m, aa := Closed(a, b), Message(a, b, 0), Twice(a, b, 0);
    var full := EmptyTable()[0 := Some(m.frame)];
    OneParked(m.frame, a, 0);
    assert s0.data[1..] == [aa, aa, aa];
    var s1 := s0.(data := [aa, aa, aa], rcv := s0.rcv.(table := full), acks := [Ack(a, b, 0)]);
    assert Apply(s0, Wait) == s1;
    SecondReceive(a, b, s1);
    OneStep(s0, Wait);
    ReachesOn(s0, s1, Duplicate(a, b));
  }

  lemma SecondReceive(a: Addr, b: Addr, s1: State)
    requires var aa := Twice(a, b, 0);
      s1 == Closed(a, b).(data := [aa, aa, aa], acks := [Ack(a, b, 0)],
        rcv := Closed(a, b).rcv.(table := EmptyTable()[0 := Some(Message(a, b, 0).frame)]))
    ensures CanReach(s1, Duplicate(a, b))
  {
    var m, aa := Message(a, b, 0), Twice(a, b, 0);
    OneParked(m.frame, a, 0);
    assert s1.data[1..] == [aa, aa];
    var s2 := s1.(data := [aa, aa], rcv := Receiver(b, 1, Idle, s1.rcv.table), delivered := ["x"]);
    assert s1.acks + [] == s1.acks;
    assert Apply(s1, Wait) == s2;
    var r := Receiver(b, 1, Replying(m.frame, false, 0), EmptyTable());
    Replies(r);
    assert Apply(s2, TryReceive) == Duplicate(a, b) by {
      assert Poll(s2.rcv, Head(s2.data)) == Reply(r);
    }
    OneStep(s1, Wait);
    OneStep(s2, TryReceive);
    ReachesOn(s1, s2, Duplicate(a, b));
  }

  function Drained(a: Addr, b: Addr): State { Duplicate(a, b).(data := [], acks := []) }

  lemma AllLost(a: Addr, b: Addr)
    ensures CanReach(Duplicate(a, b), Drained(a, b))
  {
    var s0 := Duplicate(a, b);
    var s1 := s0.(data := [Twice(a, b, 0)]);
    assert Apply(s0, LoseData(0)) == s1;
    var s2 := s1.(data := []);
    assert Apply(s1, LoseData(0)) == s2;
    var s3 := s2.(acks := [Ack(a, b, 0)]);
    assert Apply(s2, LoseAck(0)) == s3;
    assert Apply(s3, LoseAck(0)) == Drained(a, b);
    OneStep(s0, LoseData(0));
    OneStep(s1, LoseData(0));
    OneStep(s2, LoseAck(0));
    OneStep(s3, LoseAck(0));
    ReachesOn(s0, s1, s2);
    ReachesOn(s0, s2, s3);
    ReachesOn(s0, s3, Drained(a, b));
  }

  lemma SecondSend(a: Addr, b: Addr)
    ensures CanReach(Drained(a, b), Midway(a, b))
  {
    var s := Drained(a, b);
    Sends(s, "y");
    var t := Apply(s, Begin("y", 0));
    assert t.epochs[1] == ["y"];
    assert t.epochs == [["x"], ["y"]];
    assert t.data == [Message(a, b, 1)];
    OneStep(s, Begin("y", 0));
  }

  /** The reply ends without its ACK_ACK while "y" is parked and acknowledged. */
  function Overwritten(a: Addr, b: Addr): State {
    State(Midway(a, b).snd, Receiver(b, 1, Discarding, EmptyTable()[0 := Some(Message(a, b, 1).frame)]),
          [], [Ack(a, b, 1), Ack(a, b, 0), Ack(a, b, 0)], [["x"], ["y"]], 2, ["x"])
  }

  lemma EarlyAck(a: Addr, b: Addr)
    ensures Enabled(Midway(a, b), Wait) && !Orderly(Midway(a, b), Wait)
    ensures CanReach(Apply(Midway(a, b), Wait), Overwritten(a, b))
  {
    var s0, m := Midway(a, b), Message(a, b, 0).frame;
    var full := EmptyTable()[0 := Some(Message(a, b, 1).frame)];
    OneParked(Message(a, b, 1).frame, a, 0);
    assert s0.data[1..] == [];
    var s1 := s0.(data := [], rcv := s0.rcv.(table := full), acks := [Ack(a, b, 1)], accepted := 2);
    assert Apply(s0, Wait) == s1;
    var s2 := s1.(rcv := s1.rcv.(mode := Replying(m, false, 1)), acks := [Ack(a, b, 1), Ack(a, b, 0)]);
    assert Apply(s1, ReplyTick) == s2;
    var s3 := s2.(rcv := s1.rcv.(mode := Replying(m, false, 2)), acks := [Ack(a, b, 1), Ack(a, b, 0), Ack(a, b, 0)]);
    assert Apply(s2, ReplyTick) == s3;
    assert s3.acks + [] == s3.acks;
    assert Apply(s3, ReplyTick) == Overwritten(a, b);
    OneStep(s1, ReplyTick);
    OneStep(s2, ReplyTick);
    OneStep(s3, ReplyTick);
    ReachesOn(s1, s2, s3);
    ReachesOn(s1, s3, Overwritten(a, b));
  }

  /** "y" is gone from everywhere, and its sender has been told that it arrived. */
  function Gone(a: Addr, b: Addr): State {
    var aa := Twice(a, b, 1);
    State(Sender(a, b, 0, None, EmptyTable()), Receiver(b, 1, Idle, EmptyTable()),
          [aa, aa, aa], [Ack(a, b, 0), Ack(a, b, 0)], [["x"], ["y"], []], 2, ["x"])
  }

  lemma ThrownAway(a: Addr, b: Addr)
    ensures CanReach(Overwritten(a, b), Gone(a, b))
  {
    var s0 := Overwritten(a, b);
    OneParked(Message(a, b, 1).frame, a, 0);
    assert s0.acks + [] == s0.acks;
    var s1 := s0.(rcv := Receiver(b, 1, Idle, EmptyTable()));
    assert Apply(s0, TryReceive) == s1;
    assert s1.acks[1..] == [Ack(a, b, 0), Ack(a, b, 0)];
    assert Apply(s1, SendRead) == Gone(a, b);
    OneStep(s0, TryReceive);
    OneStep(s1, SendRead);
    ReachesOn(s0, s1, Gone(a, b));
  }

  lemma MidwayIsReached(a: Addr, b: Addr)
    ensures CanReach(Initial(a, b), Midway(a, b))
  {
    FirstSend(a, b);
    FirstReceive(a, b);
    ReachesOn(Initial(a, b), Sent(a, b), Closed(a, b));
    SecondCopy(a, b);
    ReachesOn(Initial(a, b), Closed(a, b), Duplicate(a, b));
    AllLost(a, b);
    SecondSend(a, b);
    ReachesOn(Duplicate(a, b), Drained(a, b), Midway(a, b));
    ReachesOn(Initial(a, b), Duplicate(a, b), Midway(a, b));
  }

  /** Without the hypothesis the guarantee fails: in a run from the start, orderly but for one wait, an
      acknowledged message is neither delivered nor held, with no copy of it left anywhere. */
  lemma OverrunLosesMessage(a: Addr, b: Addr)
    ensures var s, t := Midway(a, b), Gone(a, b);
      && CanReach(Initial(a, b), s)
      && Enabled(s, Wait) && !Orderly(s, Wait) && CanReach(Apply(s, Wait), t)
      && !Guarantee(t) && AtRest(t.rcv) && t.epochs[1] == ["y"] && t.delivered == ["x"]
      && forall i | 0 <= i < |t.data| :: !t.data[i].frame.kind.MESSAGE?
  {
    MidwayIsReached(a, b);
    EarlyAck(a, b);
    ThrownAway(a, b);
    ReachesOn(Apply(Midway(a, b), Wait), Overwritten(a, b), Gone(a, b));
    NothingParkedIn(EmptyTable());
  }
}
