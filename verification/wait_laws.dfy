/** What a wait and a read without waiting make of the frames that come in. */
module WaitLaws {
  import opened Base
  import opened ParkedFrames
  import opened Rudp
  import opened RudpEndpoint

  predicate HasRoom(t: Table) { FirstFree(t, 0) < |t| }

  /** The frame is parked, or, if it is no message, one that stands for it. */
  ghost predicate IsParked(t: Table, f: Frame) {
    exists i: nat :: i < |t| && (t[i] == Some(f) || (!f.kind.MESSAGE? && Matches(t[i], f.addr, f.kind, f.bit)))
  }

  /** The acknowledgements of the messages among the frames, in order. */
  function AcksFor(es: Inbox, me: Addr): seq<Datagram> {
    if es == [] then [] else (if IsMessage(es[0]) then [AckFor(es[0].value, me)] else []) + AcksFor(es[1..], me)
  }

  /** Parking a frame leaves what is parked, and makes no room. */
  lemma StoreParks(t: Table, f: Frame)
    ensures var (u, ok) := Store(t, f);
      && (HasRoom(u) ==> HasRoom(t)) && (HasRoom(t) ==> ok && IsParked(u, f))
      && forall g | IsParked(t, g) :: IsParked(u, g)
  {
    var (u, ok) := Store(t, f);
    var twin, free := FirstMatch(t, f.addr, f.kind, f.bit, 0), FirstFree(t, 0);
    var k := if !f.kind.MESSAGE? && twin < |t| then twin else free;
    if k < |t| {
      assert u[k] == Some(f);
      forall g | IsParked(t, g) ensures IsParked(u, g) {
        var i: nat :| i < |t| && (t[i] == Some(g) || (!g.kind.MESSAGE? && Matches(t[i], g.addr, g.kind, g.bit)));
        assert i != k ==> u[i] == t[i];
        assert i == k ==> k == twin && Matches(u[i], g.addr, g.kind, g.bit);
      }
    }
  }

  /** Nothing among the events ends a wait for that frame. */
  predicate NoneEnds(es: Inbox, from: Addr, kind: Kind, bit: Bit) {
    forall i | 0 <= i < |es| :: es[i].Some? && !Matches(es[i], from, kind, bit)
  }

  ghost predicate AllParked(es: Inbox, t: Table) {
    HasRoom(t) ==> forall i | 0 <= i < |es| && es[i].Some? :: IsParked(t, es[i].value)
  }

  /** The events `heard` have been read in front of the one that ends the wait, if any does. */
  ghost predicate WaitEnds(inbox: Inbox, n: nat, from: Addr, kind: Kind, bit: Bit, w: Waited) {
    && n <= |inbox| && NoneEnds(inbox[..n], from, kind, bit)
    && match w.end
       case Silent => n == |inbox| && w.inbox == []
       case Found => n < |inbox| && Matches(inbox[n], from, kind, bit) && w.inbox == inbox[n + 1..]
       case TimedOut => n < |inbox| && inbox[n].None? && w.inbox == inbox[n + 1..]
  }

  /** They are all parked, and the messages among them acknowledged, as long as there is room. */
  ghost predicate WaitParks(t: Table, heard: Inbox, sent: seq<Datagram>, me: Addr, w: Waited) {
    && AllParked(heard, w.table) && (forall g | IsParked(t, g) :: IsParked(w.table, g))
    && (HasRoom(w.table) ==> HasRoom(t) && w.sent == sent + AcksFor(heard, me))
  }

  lemma ParksMore(t: Table, f: Frame, u: Table, heard: Inbox, sent: seq<Datagram>, o: seq<Datagram>, me: Addr,
    w: Waited)
    requires u == Store(t, f).0 && WaitParks(u, heard, sent + o, me, w)
    requires HasRoom(t) ==> o == if f.kind.MESSAGE? then [AckFor(f, me)] else []
    ensures WaitParks(t, [Some(f)] + heard, sent, me, w)
  {
    StoreParks(t, f);
    var all := [Some(f)] + heard;
    assert all[1..] == heard;
    if HasRoom(w.table) {
      assert sent + o + AcksFor(heard, me) == sent + (o + AcksFor(heard, me));
      forall i | 0 <= i < |all| && all[i].Some? ensures IsParked(w.table, all[i].value) {
        if i > 0 { assert all[i] == heard[i - 1]; }
      }
    }
  }

  lemma EndsMore(inbox: Inbox, n: nat, from: Addr, kind: Kind, bit: Bit, w: Waited)
    requires inbox != [] && inbox[0].Some? && !Matches(inbox[0], from, kind, bit)
    requires WaitEnds(inbox[1..], n, from, kind, bit, w)
    ensures WaitEnds(inbox, n + 1, from, kind, bit, w) && inbox[..n + 1] == [inbox[0]] + inbox[1..][..n]
  {
  }

  lemma NoneHeard(t: Table, sent: seq<Datagram>, me: Addr, w: Waited)
    requires w.table == t && w.sent == sent
    ensures WaitParks(t, [], sent, me, w)
  {
    assert sent + [] == sent;
  }

  /** A wait ends with the first event that is its frame or a time-out. All frames before are parked and the
      messages among them acknowledged, in order, as long as there is room. */
  lemma {:induction false} ListenLaw(t: Table, inbox: Inbox, sent: seq<Datagram>, me: Addr, from: Addr, kind: Kind,
    bit: Bit)
    returns (n: nat)
    requires !kind.MESSAGE?
    ensures var w := Listen(t, inbox, sent, me, from, kind, bit);
      WaitEnds(inbox, n, from, kind, bit, w) && WaitParks(t, inbox[..n], sent, me, w)
    decreases |inbox|
  {
    var w := Listen(t, inbox, sent, me, from, kind, bit);
    if inbox == [] || inbox[0].None? || Matches(inbox[0], from, kind, bit) {
      n := 0;
      EndsNow(t, inbox, sent, me, from, kind, bit);
      NoneHeard(t, sent, me, w);
    } else {
      var f := inbox[0].value;
      var h := Hear(t, f, me, from, kind, bit);
      HearParks(t, f, me, from, kind, bit);
      n := ListenLaw(h.table, inbox[1..], sent + h.out, me, from, kind, bit);
      ParksMore(t, f, h.table, inbox[1..][..n], sent, h.out, me, w);
      EndsMore(inbox, n, from, kind, bit, w);
      n := n + 1;
    }
  }

  lemma EndsNow(t: Table, inbox: Inbox, sent: seq<Datagram>, me: Addr, from: Addr, kind: Kind, bit: Bit)
    requires !kind.MESSAGE? && (inbox == [] || inbox[0].None? || Matches(inbox[0], from, kind, bit))
    ensures var w := Listen(t, inbox, sent, me, from, kind, bit);
      WaitEnds(inbox, 0, from, kind, bit, w) && w.table == t && w.sent == sent
  {
    assert sent + [] == sent;
  }

  lemma HearParks(t: Table, f: Frame, me: Addr, from: Addr, kind: Kind, bit: Bit)
    requires !Matches(Some(f), from, kind, bit)
    ensures var h := Hear(t, f, me, from, kind, bit);
      && !h.matched && h.table == Store(t, f).0
      && (HasRoom(t) ==> h.out == if f.kind.MESSAGE? then [AckFor(f, me)] else [])
  {
  }

  // --------------------------------------------------------------- reading without waiting

  /** Frames that are no messages, all come in. */
  predicate NoMessages(es: Inbox) { forall i | 0 <= i < |es| :: es[i].Some? && !es[i].value.kind.MESSAGE? }

  /** With nothing parked to take, a read takes the first message that has come, and finds nothing when what
      has come before the first gap holds none; every other frame it meets is parked while there is room. */
  lemma {:induction false} FetchLaw(t: Table, inbox: Inbox) returns (n: nat)
    requires !HasPending(t)
    ensures n <= |inbox| && NoMessages(inbox[..n])
    ensures var g := Fetch(t, inbox);
      && AllParked(inbox[..n], g.table) && !HasPending(g.table) && (HasRoom(g.table) ==> HasRoom(t))
      && (forall f | IsParked(t, f) :: IsParked(g.table, f))
      && (if g.message.Some? then
            n < |inbox| && IsMessage(inbox[n]) && g.message == inbox[n] && g.inbox == inbox[n + 1..]
          else if n < |inbox| then inbox[n].None? && g.inbox == inbox[n + 1..]
          else g.inbox == [])
    decreases |inbox|
  {
    PendingTaken(t);
    if inbox == [] || inbox[0].None? || inbox[0].value.kind.MESSAGE? {
      n := 0;
    } else {
      var f := inbox[0].value;
      var u := Store(t, f).0;
      StillNoMessage(t, f);
      PendingTaken(u);
      StoreParks(t, f);
      n := FetchLaw(u, inbox[1..]);
      ParkedMore(f, inbox[1..][..n], Fetch(u, inbox[1..]).table, u);
      assert inbox[..n + 1] == [inbox[0]] + inbox[1..][..n];
      n := n + 1;
    }
  }

  lemma ParkedMore(f: Frame, es: Inbox, t: Table, u: Table)
    requires AllParked(es, t) && (forall g | IsParked(u, g) :: IsParked(t, g)) && (HasRoom(t) ==> IsParked(u, f))
    ensures AllParked([Some(f)] + es, t)
  {
    var all := [Some(f)] + es;
    if HasRoom(t) {
      forall i | 0 <= i < |all| && all[i].Some? ensures IsParked(t, all[i].value) {
        if i > 0 { assert all[i] == es[i - 1]; }
      }
    }
  }
}
