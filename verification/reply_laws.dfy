/** How often a message is acknowledged, and when the reply to it ends, told from what the socket yields. */
module ReplyLaws {
  import opened Base
  import opened ParkedFrames
  import opened Rudp
  import opened RudpEndpoint
  import opened ReceiveRuns
  import opened SendLaws

  function AcksIn(ds: seq<Datagram>): nat {
    if ds == [] then 0 else (if ds[0].frame.kind.ACK? then 1 else 0) + AcksIn(ds[1..])
  }

  /** How many messages came in. */
  function MessagesOf(es: Inbox): nat {
    if es == [] then 0 else (if IsMessage(es[0]) then 1 else 0) + MessagesOf(es[1..])
  }

  /** The answer to the acknowledgement of `m` is not among them. */
  predicate NoAnswer(es: seq<Option<Frame>>, m: Frame) {
    forall i | 0 <= i < |es| :: !Matches(es[i], m.addr, ACK_ACK, m.bit)
  }

  lemma {:induction false} AcksAdd(a: seq<Datagram>, b: seq<Datagram>)
    ensures AcksIn(a + b) == AcksIn(a) + AcksIn(b)
    decreases |a|
  {
    if a == [] {
      assert a + b == b;
    } else {
      assert (a + b)[1..] == a[1..] + b;
      AcksAdd(a[1..], b);
    }
  }

  /** How a reply with `attempts` behind it ended: with its answer, or with the last wait, where a script that
      has ended stays silent. `left` waits were left to it. */
  ghost predicate ReplyRight(m: Frame, left: nat, inbox: Inbox, used: nat, out: seq<Datagram>) {
    && used <= |inbox| && (forall d | d in out :: d.frame.kind.ACK?)
    && var events, n := inbox[..used], TimeOuts(inbox[..used]);
      if used > 0 && Matches(inbox[used - 1], m.addr, ACK_ACK, m.bit) then
        && NoAnswer(inbox[..used - 1], m) && n < left && n <= AcksIn(out) <= n + MessagesOf(events)
      else
        && NoAnswer(events, m) && left > 0 && left - 1 <= AcksIn(out) <= left - 1 + MessagesOf(events)
        && ((n == left && used > 0 && inbox[used - 1].None?) || (n < left && used == |inbox|))
  }

  lemma RepliedNow(m: Frame, left: nat, inbox: Inbox)
    requires inbox != [] && Matches(inbox[0], m.addr, ACK_ACK, m.bit) && left > 0
    ensures ReplyRight(m, left, inbox, 1, [])
  {
    assert inbox[..1] == [inbox[0]] && TimeOuts(inbox[..1]) == 0;
  }

  lemma LastWait(m: Frame, inbox: Inbox)
    requires Event(inbox).None?
    ensures ReplyRight(m, 1, inbox, if inbox == [] then 0 else 1, [])
  {
    if inbox != [] {
      assert inbox[..1] == [None];
      assert TimeOuts([None]) == 1;
    }
  }

  /** One event more at the front. */
  lemma ReplyRightMore(m: Frame, left: nat, inbox: Inbox, o: seq<Datagram>, used: nat, out: seq<Datagram>)
    requires inbox != [] && !Matches(inbox[0], m.addr, ACK_ACK, m.bit) && (forall d | d in o :: d.frame.kind.ACK?)
    requires left > 0 && ReplyRight(m, if inbox[0].None? then left - 1 else left, inbox[1..], used, out)
    requires if inbox[0].None? then AcksIn(o) == 1 else AcksIn(o) <= MessagesOf([inbox[0]])
    ensures ReplyRight(m, left, inbox, used + 1, o + out)
  {
    var events := inbox[1..][..used];
    assert inbox[..used + 1] == [inbox[0]] + events;
    TimeOutsAdd([inbox[0]], events);
    assert TimeOuts([inbox[0]]) == if inbox[0].None? then 1 else 0;
    AcksAdd(o, out);
    assert ([inbox[0]] + events)[1..] == events && [inbox[0]][1..] == [];
    if used > 0 { assert inbox[..used] == [inbox[0]] + inbox[1..][..used - 1]; }
  }

  /** A wait more, with the socket silent for good. */
  lemma SilentMore(m: Frame, left: nat, o: seq<Datagram>, out: seq<Datagram>)
    requires left > 1 && ReplyRight(m, left - 1, [], 0, out) && AcksIn(o) == 1 && forall d | d in o :: d.frame.kind.ACK?
    ensures ReplyRight(m, left, [], 0, o + out)
  {
    AcksAdd(o, out);
  }

  function Left(r: Receiver): nat
    requires r.mode.Replying?
  {
    if r.mode.attempts < MAX_TRANSMISSION_ATTEMPTS then MAX_TRANSMISSION_ATTEMPTS - r.mode.attempts else 0
  }

  lemma NothingTaken(r: Receiver)
    requires r.mode.Replying? && NoAnswer(r.table, r.mode.message)
    ensures Reply(r) == Receipt(r, [AckFor(r.mode.message, r.me)], None)
  {
    NothingFound(r.table, r.mode.message);
  }

  lemma NothingFound(t: Table, m: Frame)
    requires NoAnswer(t, m)
    ensures TakeFrame(t, m.addr, ACK_ACK, m.bit) == (t, None)
  {
  }

  lemma WaitsOut(r: Receiver)
    requires r.mode.Replying? && NoAnswer(r.table, r.mode.message) && Left(r) > 0
    ensures var q := ReplyTimeout(r);
      if Left(r) == 1 then !q.rcv.mode.Replying? && q.out == [] && q.rcv.table == r.table
      else q == Receipt(r.(mode := r.mode.(attempts := r.mode.attempts + 1)), [AckFor(r.mode.message, r.me)], None)
  {
    if Left(r) > 1 { NothingTaken(r.(mode := r.mode.(attempts := r.mode.attempts + 1))); }
  }

  lemma HearsFrame(r: Receiver, f: Frame)
    requires r.mode.Replying? && NoAnswer(r.table, r.mode.message)
    ensures var q, m := ReceiverHears(r, f), r.mode.message;
      if Matches(Some(f), m.addr, ACK_ACK, m.bit) then !q.rcv.mode.Replying? && q.out == []
      else
        && q.rcv == r.(table := q.rcv.table) && NoAnswer(q.rcv.table, m) && q.delivered == None
        && (forall d | d in q.out :: d.frame.kind.ACK?) && AcksIn(q.out) <= MessagesOf([Some(f)])
  {
    var h := Hear(r.table, f, r.me, r.mode.message.addr, ACK_ACK, r.mode.message.bit);
    assert [AckFor(f, r.me)][1..] == [];
  }

  /** The reply `w` has used up so many events and sent `out`. */
  ghost predicate ReplyUsed(m: Frame, left: nat, inbox: Inbox, sent: seq<Datagram>, w: ReplyTrace, used: nat,
                            out: seq<Datagram>) {
    ReplyRight(m, left, inbox, used, out) && w.inbox == inbox[used..] && w.sent == sent + out
  }

  lemma {:induction false} ReplyRunsRight(r: Receiver, inbox: Inbox, sent: seq<Datagram>)
    returns (used: nat, out: seq<Datagram>)
    requires r.mode.Replying? && NoAnswer(r.table, r.mode.message) && Left(r) > 0
    ensures ReplyUsed(r.mode.message, Left(r), inbox, sent, ReplyRun(r, None, inbox, sent), used, out)
    decreases |inbox|, AttemptsLeft(r)
  {
    if Event(inbox).None? {
      used, out := SilenceRight(r, inbox, sent);
    } else {
      used, out := FrameRight(r, inbox, sent);
    }
  }

  lemma {:induction false} SilenceRight(r: Receiver, inbox: Inbox, sent: seq<Datagram>)
    returns (used: nat, out: seq<Datagram>)
    requires r.mode.Replying? && NoAnswer(r.table, r.mode.message) && Left(r) > 0 && Event(inbox).None?
    ensures ReplyUsed(r.mode.message, Left(r), inbox, sent, ReplyRun(r, None, inbox, sent), used, out)
    decreases |inbox|, AttemptsLeft(r), 0
  {
    var m, q := r.mode.message, ReplyTimeout(r);
    WaitsOut(r);
    if Left(r) == 1 {
      used, out := (if inbox == [] then 0 else 1), [];
      LastWait(m, inbox);
      assert sent + [] == sent;
    } else {
      used, out := ReplyRunsRight(q.rcv, Later(inbox), sent + q.out);
      assert [AckFor(m, r.me)][1..] == [];
      assert sent + q.out + out == sent + (q.out + out);
      if inbox == [] {
        SilentMore(m, Left(r), q.out, out);
      } else {
        ReplyRightMore(m, Left(r), inbox, q.out, used, out);
        used := used + 1;
      }
      out := q.out + out;
    }
  }

  lemma {:induction false} FrameRight(r: Receiver, inbox: Inbox, sent: seq<Datagram>)
    returns (used: nat, out: seq<Datagram>)
    requires r.mode.Replying? && NoAnswer(r.table, r.mode.message) && Left(r) > 0 && Event(inbox).Some?
    ensures ReplyUsed(r.mode.message, Left(r), inbox, sent, ReplyRun(r, None, inbox, sent), used, out)
    decreases |inbox|, AttemptsLeft(r), 0
  {
    var m, q := r.mode.message, ReceiverHears(r, inbox[0].value);
    HearsFrame(r, inbox[0].value);
    if Matches(inbox[0], m.addr, ACK_ACK, m.bit) {
      used, out := 1, [];
      RepliedNow(m, Left(r), inbox);
      assert sent + q.out == sent + [];
    } else {
      used, out := ReplyRunsRight(q.rcv, inbox[1..], sent + q.out);
      ReplyRightMore(m, Left(r), inbox, q.out, used, out);
      assert sent + q.out + out == sent + (q.out + out);
      used, out := used + 1, q.out + out;
    }
  }

  /** A message taken is acknowledged at once, and again after each wait that runs out, three times in all
      unless the answer comes: the reply ends with the answer, parked before or come in, or with the third
      wait. Beyond its own it acknowledges at most the messages that come in meanwhile. */
  lemma ReplyAcknowledges(r: Receiver, m: Frame, inbox: Inbox, sent: seq<Datagram>)
    returns (used: nat, out: seq<Datagram>)
    ensures var q := Got(r, m);
      var w := ReplyRun(q.rcv, q.delivered, inbox, sent + q.out);
      if !NoAnswer(r.table, m) then used == 0 && out == [] && w.inbox == inbox && w.sent == sent + [AckFor(m, r.me)]
      else
        && ReplyRight(m, MAX_TRANSMISSION_ATTEMPTS, inbox, used, out)
        && w.inbox == inbox[used..] && w.sent == sent + [AckFor(m, r.me)] + out
  {
    var r1 := r.(mode := Replying(m, m.bit == r.bit, 0));
    if NoAnswer(r.table, m) {
      NothingTaken(r1);
      used, out := ReplyRunsRight(r1, inbox, sent + [AckFor(m, r.me)]);
    } else {
      used, out := 0, [];
      AnswerParked(r, m);
    }
  }

  lemma AnswerParked(r: Receiver, m: Frame)
    requires !NoAnswer(r.table, m)
    ensures !Got(r, m).rcv.mode.Replying? && Got(r, m).out == [AckFor(m, r.me)]
  {
    var i :| 0 <= i < |r.table| && Matches(r.table[i], m.addr, ACK_ACK, m.bit);
    assert FirstMatch(r.table, m.addr, ACK_ACK, m.bit, 0) <= i;
  }
}
