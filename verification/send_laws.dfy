/** How often a send transmits, and when it succeeds, told from what the socket yields. */
module SendLaws {
  import opened Base
  import opened ParkedFrames
  import PeerBits
  import opened Rudp
  import opened RudpEndpoint

  /** How many waits ran out. */
  function TimeOuts(events: Inbox): nat {
    if events == [] then 0 else TimeOuts(events[..|events| - 1]) + if events[|events| - 1].None? then 1 else 0
  }

  /** How many messages were sent. */
  function MessagesIn(ds: seq<Datagram>): nat {
    if ds == [] then 0 else (if ds[0].frame.kind.MESSAGE? then 1 else 0) + MessagesIn(ds[1..])
  }

  lemma {:induction false} TimeOutsAdd(a: Inbox, b: Inbox)
    ensures TimeOuts(a + b) == TimeOuts(a) + TimeOuts(b)
    decreases |b|
  {
    if b == [] {
      assert a + b == a;
    } else {
      var c := b[..|b| - 1];
      assert (a + b)[..|a + b| - 1] == a + c;
      TimeOutsAdd(a, c);
    }
  }

  lemma {:induction false} MessagesAdd(a: seq<Datagram>, b: seq<Datagram>)
    ensures MessagesIn(a + b) == MessagesIn(a) + MessagesIn(b)
    decreases |a|
  {
    if a == [] {
      assert a + b == b;
    } else {
      assert (a + b)[1..] == a[1..] + b;
      MessagesAdd(a[1..], b);
    }
  }

  /** The acknowledgement waited for is not among them. */
  predicate NoAck(es: seq<Option<Frame>>, peer: Addr, bit: Bit) {
    forall i | 0 <= i < |es| :: !Matches(es[i], peer, ACK, bit)
  }

  /** It comes while there are attempts left. */
  ghost predicate AckInTime(inbox: Inbox, peer: Addr, bit: Bit, limit: int) {
    exists i :: 0 <= i < |inbox| && Matches(inbox[i], peer, ACK, bit) && (limit > 0 ==> TimeOuts(inbox[..i]) < limit)
  }

  // ------------------------------------------------------------------- the waiting send

  lemma NoneToTake(t: Table, peer: Addr, bit: Bit)
    requires NoAck(t, peer, bit)
    ensures TakeFrame(t, peer, ACK, bit) == (t, None)
  {
  }

  lemma HearsOther(t: Table, f: Frame, me: Addr, peer: Addr, bit: Bit)
    requires NoAck(t, peer, bit)
    ensures var h := Hear(t, f, me, peer, ACK, bit);
      && h.matched == Matches(Some(f), peer, ACK, bit)
      && (h.matched ==> h.table == t && h.out == [])
      && NoAck(h.table, peer, bit) && MessagesIn(h.out) == 0 && (forall d | d in h.out :: d.frame.kind.ACK?)
  {
  }

  /** How the events up to the one that ended the send read, for a send with `attempts` behind it. */
  ghost predicate EndsRight(s: Sender, events: Inbox, out: seq<Datagram>, over: bool, acked: bool)
    requires s.job.Some?
  {
    var n, j, k := TimeOuts(events), s.job.value, |events|;
    && (forall d | d in out && d.frame.kind.MESSAGE? :: d == Outgoing(s))
    && (if !over then
          NoAck(events, s.peer, s.bit) && MessagesIn(out) == n && (j.limit > 0 ==> j.attempts + n < j.limit)
        else if acked then
          && k > 0 && NoAck(events[..k - 1], s.peer, s.bit) && Matches(events[k - 1], s.peer, ACK, s.bit)
          && MessagesIn(out) == n && (j.limit > 0 ==> j.attempts + n < j.limit)
          && |out| >= 3 && out[|out| - 3..] == [AckAck(s), AckAck(s), AckAck(s)]
        else
          && k > 0 && NoAck(events, s.peer, s.bit) && events[k - 1].None?
          && j.limit > 0 && j.attempts + n == j.limit && MessagesIn(out) + 1 == n)
  }

  /** One event more at the front. */
  lemma EndsRightMore(s: Sender, s1: Sender, e: Option<Frame>, o: seq<Datagram>, events: Inbox, out: seq<Datagram>,
                      over: bool, acked: bool)
    requires s.job.Some? && s1.job.Some? && s1.me == s.me && s1.peer == s.peer && s1.bit == s.bit
    requires s1.job.value == s.job.value.(attempts := s1.job.value.attempts) && EndsRight(s1, events, out, over, acked)
    requires !Matches(e, s.peer, ACK, s.bit) && forall d | d in o && d.frame.kind.MESSAGE? :: d == Outgoing(s)
    requires s1.job.value.attempts == s.job.value.attempts + (if e.None? then 1 else 0)
    requires MessagesIn(o) == if e.None? then 1 else 0
    ensures EndsRight(s, [e] + events, o + out, over, acked)
  {
    TimeOutsAdd([e], events);
    assert TimeOuts([e]) == if e.None? then 1 else 0;
    MessagesAdd(o, out);
    assert Outgoing(s1) == Outgoing(s) && AckAck(s1) == AckAck(s);
    if over && acked {
      assert ([e] + events)[..|events|] == [e] + events[..|events| - 1];
      assert (o + out)[|o + out| - 3..] == out[|out| - 3..];
    }
  }

  lemma GivesUp(s: Sender, inbox: Inbox)
    requires s.job.Some? && inbox != [] && inbox[0].None?
    requires s.job.value.limit > 0 && s.job.value.attempts + 1 == s.job.value.limit
    ensures EndsRight(s, inbox[..1], [], true, false)
  {
    assert inbox[..1] == [None];
    assert TimeOuts([None]) == 1;
  }

  lemma IsAcked(s: Sender, inbox: Inbox)
    requires s.job.Some? && inbox != [] && Matches(inbox[0], s.peer, ACK, s.bit)
    requires s.job.value.limit > 0 ==> s.job.value.attempts < s.job.value.limit
    ensures EndsRight(s, inbox[..1], [AckAck(s), AckAck(s), AckAck(s)], true, true)
  {
    assert inbox[..1] == [inbox[0]];
    assert TimeOuts(inbox[..1]) == 0;
    var a := AckAck(s);
    assert [a, a, a][1..] == [a, a] && [a, a][1..] == [a] && [a][1..] == [];
    assert MessagesIn([a]) == 0 && MessagesIn([a, a]) == 0;
    assert [a, a, a][0..] == [a, a, a];
  }

  /** The run `v` has used up so many events and sent `out`. */
  ghost predicate RunsRight(s: Sender, inbox: Inbox, sent: seq<Datagram>, v: SendTrace, used: nat, out: seq<Datagram>)
    requires s.job.Some?
  {
    && used <= |inbox| && v.inbox == inbox[used..] && v.sent == sent + out
    && (v.snd.job.Some? ==> v.inbox == [] && v.snd.bit == s.bit)
    && EndsRight(s, inbox[..used], out, v.snd.job.None?, v.snd.bit != s.bit)
  }

  lemma RunsRightMore(s: Sender, s1: Sender, inbox: Inbox, sent: seq<Datagram>, o: seq<Datagram>, v: SendTrace,
                      used: nat, out: seq<Datagram>)
    requires inbox != [] && s.job.Some? && s1.job.Some? && s1.me == s.me && s1.peer == s.peer && s1.bit == s.bit
    requires s1.job.value == s.job.value.(attempts := s1.job.value.attempts)
    requires !Matches(inbox[0], s.peer, ACK, s.bit) && forall d | d in o && d.frame.kind.MESSAGE? :: d == Outgoing(s)
    requires s1.job.value.attempts == s.job.value.attempts + (if inbox[0].None? then 1 else 0)
    requires MessagesIn(o) == if inbox[0].None? then 1 else 0
    requires RunsRight(s1, inbox[1..], sent + o, v, used, out)
    ensures RunsRight(s, inbox, sent, v, used + 1, o + out)
  {
    EndsRightMore(s, s1, inbox[0], o, inbox[1..][..used], out, v.snd.job.None?, v.snd.bit != s.bit);
    assert inbox[..used + 1] == [inbox[0]] + inbox[1..][..used];
    assert sent + o + out == sent + (o + out);
  }

  lemma {:induction false} SendRunsRight(s: Sender, inbox: Inbox, sent: seq<Datagram>)
    returns (used: nat, out: seq<Datagram>)
    requires s.job.Some? && NoAck(s.table, s.peer, s.bit)
    requires s.job.value.limit > 0 ==> s.job.value.attempts < s.job.value.limit
    ensures RunsRight(s, inbox, sent, SendRun(s, inbox, sent), used, out)
    decreases |inbox|
  {
    if inbox == [] {
      used, out := 0, [];
      assert sent + [] == sent;
    } else if inbox[0].None? {
      used, out := TimesOut(s, inbox, sent);
    } else {
      used, out := HearsRight(s, inbox, sent);
    }
  }

  lemma SendsAgain(s: Sender)
    requires s.job.Some? && NoAck(s.table, s.peer, s.bit)
    ensures var j := s.job.value;
      SendTimeout(s) ==
        if j.limit > 0 && j.attempts + 1 >= j.limit then SendResult(s.(job := None), [])
        else SendResult(s.(job := Some(j.(attempts := j.attempts + 1))), [Outgoing(s)])
  {
    NoneToTake(s.table, s.peer, s.bit);
  }

  lemma {:induction false} TimesOut(s: Sender, inbox: Inbox, sent: seq<Datagram>)
    returns (used: nat, out: seq<Datagram>)
    requires s.job.Some? && NoAck(s.table, s.peer, s.bit) && inbox != [] && inbox[0].None?
    requires s.job.value.limit > 0 ==> s.job.value.attempts < s.job.value.limit
    ensures RunsRight(s, inbox, sent, SendRun(s, inbox, sent), used, out)
    decreases |inbox|, 0
  {
    var j := s.job.value;
    SendsAgain(s);
    if j.limit > 0 && j.attempts + 1 >= j.limit {
      used, out := 1, [];
      GivesUp(s, inbox);
      assert sent + [] == sent;
    } else {
      var s1 := s.(job := Some(j.(attempts := j.attempts + 1)));
      used, out := SendRunsRight(s1, inbox[1..], sent + [Outgoing(s)]);
      RunsRightMore(s, s1, inbox, sent, [Outgoing(s)], SendRun(s, inbox, sent), used, out);
      used, out := used + 1, [Outgoing(s)] + out;
    }
  }

  lemma AckIsHeard(s: Sender, f: Frame)
    requires s.job.Some? && Matches(Some(f), s.peer, ACK, s.bit)
    ensures SendHears(s, f) ==
      SendResult(s.(bit := PeerBits.Other(s.bit), job := None), [AckAck(s), AckAck(s), AckAck(s)])
  {
    assert s.(table := s.table) == s;
  }

  lemma SendRunsOn(s: Sender, inbox: Inbox, sent: seq<Datagram>, r: SendResult)
    requires s.job.Some? && inbox != [] && inbox[0].Some? && r == SendHears(s, inbox[0].value) && r.snd.job.None?
    ensures SendRun(s, inbox, sent) == SendTrace(r.snd, inbox[1..], sent + r.out)
  {
  }

  lemma AckedRight(s: Sender, inbox: Inbox, sent: seq<Datagram>)
    requires s.job.Some? && inbox != [] && Matches(inbox[0], s.peer, ACK, s.bit)
    requires s.job.value.limit > 0 ==> s.job.value.attempts < s.job.value.limit
    ensures RunsRight(s, inbox, sent, SendRun(s, inbox, sent), 1, SendHears(s, inbox[0].value).out)
  {
    AckIsHeard(s, inbox[0].value);
    SendRunsOn(s, inbox, sent, SendHears(s, inbox[0].value));
    IsAcked(s, inbox);
  }

  lemma HearsOn(s: Sender, f: Frame)
    requires s.job.Some? && NoAck(s.table, s.peer, s.bit) && !Matches(Some(f), s.peer, ACK, s.bit)
    ensures var r := SendHears(s, f);
      && r.snd == s.(table := r.snd.table) && NoAck(r.snd.table, s.peer, s.bit)
      && MessagesIn(r.out) == 0 && forall d | d in r.out :: d.frame.kind.ACK?
  {
    HearsOther(s.table, f, s.me, s.peer, s.bit);
  }

  lemma {:induction false} HearsRight(s: Sender, inbox: Inbox, sent: seq<Datagram>)
    returns (used: nat, out: seq<Datagram>)
    requires s.job.Some? && NoAck(s.table, s.peer, s.bit) && inbox != [] && inbox[0].Some?
    requires s.job.value.limit > 0 ==> s.job.value.attempts < s.job.value.limit
    ensures RunsRight(s, inbox, sent, SendRun(s, inbox, sent), used, out)
    decreases |inbox|, 0
  {
    var r := SendHears(s, inbox[0].value);
    if Matches(inbox[0], s.peer, ACK, s.bit) {
      used, out := 1, r.out;
      AckedRight(s, inbox, sent);
    } else {
      HearsOn(s, inbox[0].value);
      used, out := SendRunsRight(r.snd, inbox[1..], sent + r.out);
      RunsRightMore(s, r.snd, inbox, sent, r.out, SendRun(s, inbox, sent), used, out);
      used, out := used + 1, r.out + out;
    }
  }

  // -------------------------------------------------------------------- a whole send

  lemma PurgedOfAcks(t: Table, peer: Addr, bit: Bit)
    ensures NoAck(DropPeer(DropPeer(t, peer, ACK), peer, ACK_ACK), peer, bit)
  {
  }

  lemma {:induction false} MoreTimeOuts(es: Inbox, i: nat, j: nat)
    requires i <= j <= |es|
    ensures TimeOuts(es[..i]) <= TimeOuts(es[..j])
    decreases j
  {
    if i < j {
      assert es[..j][..j - 1] == es[..j - 1];
      MoreTimeOuts(es, i, j - 1);
    }
  }

  /** A send transmits once, and once more after every wait that runs out, unless its limit is used up: then
      it has transmitted exactly that often. It is acknowledged if and only if its acknowledgement comes
      before, and answers it three times; it gives up if and only if the limit is used up first. */
  lemma SendTransmits(s: Sender, payload: string, limit: int, epoch: nat, inbox: Inbox, sent: seq<Datagram>)
    returns (used: nat, out: seq<Datagram>)
    requires s.job.None?
    ensures used <= |inbox|
    ensures var r := StartSend(s, payload, limit, epoch);
      var v := SendRun(r.snd, inbox, sent + r.out);
      var acked, n := v.snd.bit != s.bit, TimeOuts(inbox[..used]);
      && v.sent == sent + out && v.inbox == inbox[used..]
      && (forall d | d in out && d.frame.kind.MESSAGE? ::
            d == Datagram(s.peer, Frame(s.me, MESSAGE, s.bit, payload, epoch)))
      && (v.snd.job.Some? ==> v.inbox == [])
      && (acked <==> AckInTime(inbox, s.peer, s.bit, limit))
      && (v.snd.job.None? && !acked <==>
            limit > 0 && !AckInTime(inbox, s.peer, s.bit, limit) && TimeOuts(inbox) >= limit)
      && MessagesIn(out) == (if v.snd.job.None? && !acked then limit else 1 + n)
      && (limit > 0 ==> MessagesIn(out) <= limit)
      && (acked ==>
            var a := Datagram(s.peer, Frame(s.me, ACK_ACK, s.bit, "", epoch));
            |out| >= 3 && out[|out| - 3..] == [a, a, a])
  {
    var r, s1 := StartSend(s, payload, limit, epoch), Begun(s, payload, limit, epoch);
    PurgedOfAcks(s.table, s.peer, s.bit);
    NoneToTake(s1.table, s.peer, s.bit);
    var v := SendRun(s1, inbox, sent + [Outgoing(s1)]);
    used, out := SendRunsRight(s1, inbox, sent + [Outgoing(s1)]);
    InTimeOrNot(s1, inbox, v, used, out);
    out := FirstSent(s1, inbox, sent, v, used, out);
  }

  function Begun(s: Sender, payload: string, limit: int, epoch: nat): Sender {
    s.(job := Some(Sending(payload, 0, limit, epoch)),
       table := DropPeer(DropPeer(s.table, s.peer, ACK), s.peer, ACK_ACK))
  }

  lemma FirstSent(s: Sender, inbox: Inbox, sent: seq<Datagram>, v: SendTrace, used: nat, out: seq<Datagram>)
    returns (all: seq<Datagram>)
    requires s.job.Some? && RunsRight(s, inbox, sent + [Outgoing(s)], v, used, out)
    ensures v.sent == sent + all && MessagesIn(all) == 1 + MessagesIn(out)
    ensures forall d | d in all && d.frame.kind.MESSAGE? :: d == Outgoing(s)
    ensures |out| >= 3 ==> |all| >= 3 && all[|all| - 3..] == out[|out| - 3..]
  {
    all := [Outgoing(s)] + out;
    MessagesAdd([Outgoing(s)], out);
    assert MessagesIn([Outgoing(s)]) == 1;
    assert sent + [Outgoing(s)] + out == sent + all;
  }

  lemma InTimeOrNot(s: Sender, inbox: Inbox, v: SendTrace, used: nat, out: seq<Datagram>)
    requires s.job.Some? && s.job.value.attempts == 0 && used <= |inbox| && v.inbox == inbox[used..]
    requires v.snd.job.Some? ==> v.inbox == []
    requires EndsRight(s, inbox[..used], out, v.snd.job.None?, v.snd.bit != s.bit)
    requires v.snd.job.Some? ==> v.snd.bit == s.bit
    ensures var acked, limit := v.snd.bit != s.bit, s.job.value.limit;
      && (acked <==> AckInTime(inbox, s.peer, s.bit, limit))
      && (v.snd.job.None? && !acked <==>
            limit > 0 && !AckInTime(inbox, s.peer, s.bit, limit) && TimeOuts(inbox) >= limit)
  {
    var limit := s.job.value.limit;
    if v.snd.job.Some? {
      assert inbox[..used] == inbox;
    } else if v.snd.bit != s.bit {
      InTime(s, inbox, used);
    } else {
      assert forall i | 0 <= i < used :: inbox[..used][i] == inbox[i];
      TooLate(inbox, used, s.peer, s.bit, limit);
    }
  }

  lemma InTime(s: Sender, inbox: Inbox, used: nat)
    requires s.job.Some? && 0 < used <= |inbox| && Matches(inbox[used - 1], s.peer, ACK, s.bit)
    requires s.job.value.limit > 0 ==> TimeOuts(inbox[..used]) < s.job.value.limit
    ensures AckInTime(inbox, s.peer, s.bit, s.job.value.limit)
  {
    MoreTimeOuts(inbox, used - 1, used);
  }

  lemma TooLate(inbox: Inbox, used: nat, peer: Addr, bit: Bit, limit: int)
    requires used <= |inbox| && limit > 0 && TimeOuts(inbox[..used]) == limit
    requires forall i | 0 <= i < used :: !Matches(inbox[i], peer, ACK, bit)
    ensures !AckInTime(inbox, peer, bit, limit) && TimeOuts(inbox) >= limit
  {
    assert inbox[..|inbox|] == inbox;
    MoreTimeOuts(inbox, used, |inbox|);
    forall i | 0 <= i < |inbox| && Matches(inbox[i], peer, ACK, bit) ensures TimeOuts(inbox[..i]) >= limit {
      MoreTimeOuts(inbox, used, i);
    }
  }

  // ------------------------------------------------------------------- what a send leaves parked

  /** Answers of that peer that are parked have come in just now. */
  ghost predicate OnlyNew(t: Table, peer: Addr, inbox: Inbox) {
    forall i | 0 <= i < |t| && t[i].Some? && t[i].value.addr == peer && !t[i].value.kind.MESSAGE? :: t[i] in inbox
  }

  lemma StoreOnlyNew(t: Table, f: Frame, peer: Addr, inbox: Inbox)
    requires OnlyNew(t, peer, inbox) && Some(f) in inbox
    ensures OnlyNew(Store(t, f).0, peer, inbox)
  {
  }

  lemma StepOnlyNew(s: Sender, e: Option<Frame>, inbox: Inbox)
    requires s.job.Some? && OnlyNew(s.table, s.peer, inbox) && (e.Some? ==> e in inbox)
    ensures var r := match e case None => SendTimeout(s) case Some(f) => SendHears(s, f);
      OnlyNew(r.snd.table, s.peer, inbox) && r.snd.peer == s.peer
  {
    if e.Some? { StoreOnlyNew(s.table, e.value, s.peer, inbox); }
  }

  lemma {:induction false} RunOnlyNew(s: Sender, rest: Inbox, sent: seq<Datagram>, inbox: Inbox)
    requires OnlyNew(s.table, s.peer, inbox) && forall e | e in rest :: e in inbox
    ensures OnlyNew(SendRun(s, rest, sent).snd.table, s.peer, inbox)
    decreases |rest|
  {
    if s.job.Some? && rest != [] {
      assert rest[0] in rest;
      StepOnlyNew(s, rest[0], inbox);
      var r := match rest[0] case None => SendTimeout(s) case Some(f) => SendHears(s, f);
      RunOnlyNew(r.snd, rest[1..], sent + r.out, inbox);
    }
  }

  /** A send throws away the peer's answers to earlier frames: none that was parked before it stays parked. */
  lemma SendPurges(s: Sender, payload: string, limit: int, epoch: nat, inbox: Inbox, sent: seq<Datagram>)
    ensures var r := StartSend(s, payload, limit, epoch);
      OnlyNew(SendRun(r.snd, inbox, sent + r.out).snd.table, s.peer, inbox)
  {
    var r := StartSend(s, payload, limit, epoch);
    PurgedOfAcks(s.table, s.peer, s.bit);
    NoneToTake(Begun(s, payload, limit, epoch).table, s.peer, s.bit);
    assert OnlyNew(Begun(s, payload, limit, epoch).table, s.peer, inbox);
    RunOnlyNew(r.snd, inbox, sent + r.out, inbox);
  }
}
