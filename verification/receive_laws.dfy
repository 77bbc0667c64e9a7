/** What a receive hands over, and what a reply to a message comes to, told from the frames themselves. */
module ReceiveLaws {
  import opened Base
  import opened ParkedFrames
  import opened PeerBits
  import opened Rudp
  import opened RudpEndpoint
  import opened ReceiveRuns

  /** Every message parked in `u` was parked in `t` or has come in since. */
  ghost predicate Sourced(u: Table, t: Table, inbox: Inbox) {
    forall i | 0 <= i < |u| && IsMessage(u[i]) :: u[i] in t || u[i] in inbox
  }

  ghost predicate Within(rest: Inbox, inbox: Inbox) { forall e | e in rest :: e in inbox }

  lemma SourcedOn(u1: Table, rest1: Inbox, u: Table, rest: Inbox, t: Table, inbox: Inbox)
    requires Sourced(u, t, inbox) && Within(rest, inbox) && Sourced(u1, u, rest) && Within(rest1, rest)
    ensures Sourced(u1, t, inbox) && Within(rest1, inbox)
  {
    forall i | 0 <= i < |u1| && IsMessage(u1[i]) ensures u1[i] in t || u1[i] in inbox {
      if u1[i] in u {
        var j :| 0 <= j < |u| && u[j] == u1[i];
      }
    }
  }

  lemma StoreSourced(t: Table, f: Frame, inbox: Inbox)
    requires inbox != [] && inbox[0] == Some(f)
    ensures Sourced(Store(t, f).0, t, inbox) && Within(inbox[1..], inbox)
  {
  }

  lemma {:induction false} FetchSourced(t: Table, inbox: Inbox)
    ensures var g := Fetch(t, inbox);
      && Sourced(g.table, t, inbox) && Within(g.inbox, inbox)
      && (g.message.Some? ==> g.message.value.kind.MESSAGE? && (g.message in t || g.message in inbox))
    decreases |inbox|
  {
    PendingTaken(t);
    if !HasPending(t) && inbox != [] && inbox[0].Some? && !inbox[0].value.kind.MESSAGE? {
      var u := Store(t, inbox[0].value).0;
      StillNoMessage(t, inbox[0].value);
      PendingTaken(u);
      StoreSourced(t, inbox[0].value, inbox);
      FetchSourced(u, inbox[1..]);
      var g := Fetch(u, inbox[1..]);
      SourcedOn(g.table, g.inbox, u, inbox[1..], t, inbox);
      NoMessageIn(u);
    }
  }

  lemma NoMessageIn(t: Table)
    requires !HasPending(t)
    ensures forall e | e in t :: !IsMessage(e)
  {
  }

  lemma {:induction false} ReplySourced(r: Receiver, inbox: Inbox, sent: seq<Datagram>)
    requires r.mode.Replying?
    ensures var w := ReplyRun(r, None, inbox, sent); Sourced(w.rcv.table, r.table, inbox) && Within(w.inbox, inbox)
    decreases |inbox|, AttemptsLeft(r)
  {
    var q, rest := ReplyStep(r, Event(inbox)), Later(inbox);
    ReplyStepLaw(r, Event(inbox));
    ReplyStepSourced(r, inbox);
    if q.rcv.mode.Replying? {
      ReplySourced(q.rcv, rest, sent + q.out);
      var w := ReplyRun(q.rcv, None, rest, sent + q.out);
      SourcedOn(w.rcv.table, w.inbox, q.rcv.table, rest, r.table, inbox);
    }
  }

  lemma ReplyStepSourced(r: Receiver, inbox: Inbox)
    requires r.mode.Replying?
    ensures Sourced(ReplyStep(r, Event(inbox)).rcv.table, r.table, inbox) && Within(Later(inbox), inbox)
  {
    if Event(inbox).Some? { StoreSourced(r.table, Event(inbox).value, inbox); } else { TimeoutSourced(r); }
  }

  lemma TimeoutSourced(r: Receiver)
    requires r.mode.Replying?
    ensures Sourced(ReplyTimeout(r).rcv.table, r.table, [])
    ensures Sourced(Reply(r).rcv.table, r.table, [])
  {
  }

  lemma AfterReplySourced(c: Config, m: Frame, me: Addr)
    requires c.mode.Idle?
    ensures var d := AfterReply(c, m, me); Sourced(d.table, c.table, c.inbox) && Within(d.inbox, c.inbox)
  {
    var r := FacingPeer(c, m.addr, me).(mode := Replying(m, m.bit == ExpectedBit(c.peers, m.addr), 0));
    var q := Got(FacingPeer(c, m.addr, me), m);
    TimeoutSourced(r);
    if q.rcv.mode.Replying? {
      ReplySourced(q.rcv, c.inbox, c.sent + q.out);
      var w := ReplyRun(q.rcv, None, c.inbox, c.sent + q.out);
      SourcedOn(w.rcv.table, w.inbox, q.rcv.table, c.inbox, c.table, c.inbox);
    }
  }

  /** A message of that sender with that payload, which was parked or came in. */
  ghost predicate CameFrom(from: Addr, payload: string, bit: Bit, t: Table, inbox: Inbox) {
    exists f: Frame :: f.kind.MESSAGE? && f.addr == from && f.data == payload && f.bit == bit
                       && (Some(f) in t || Some(f) in inbox)
  }

  /** What a receive hands over is the payload of a message of that sender, parked before or come in during the
      call, that has the bit expected of the sender when the call began. */
  lemma {:induction false} HandsOverMessage(p: Peers, t: Table, inbox: Inbox, sent: seq<Datagram>, me: Addr)
    requires UniqueAddrs(p)
    ensures var v := Receive(p, t, inbox, sent, me);
      v.arrival.Message? ==> CameFrom(v.arrival.from, v.arrival.payload, ExpectedBit(p, v.arrival.from), t, inbox)
    decreases Load(t, inbox)
  {
    var g := Fetch(t, inbox);
    FetchLoad(t, inbox);
    FetchSourced(t, inbox);
    if g.message.Some? && Get(p, g.message.value.addr, true).1 < |p| {
      var m := g.message.value;
      var c := Config(p, Idle, t, inbox, sent, None);
      var d := c.(peers := Get(p, m.addr, true).0, table := g.table, inbox := g.inbox);
      EntryOf(p, m.addr);
      SameBits(p, m.addr);
      ReceiveGoesOn(c, d, m, me);
      ReplyOutcome(d, m, me);
      if m.bit != ExpectedBit(d.peers, m.addr) { HandsOverLater(c, d, m, me); }
    }
  }

  /** A new entry expects bit 0, as an unknown peer does. */
  lemma SameBits(p: Peers, a: Addr)
    requires UniqueAddrs(p)
    ensures forall b :: ExpectedBit(Get(p, a, true).0, b) == ExpectedBit(p, b)
  {
    GetLaw(p, a);
    forall b ensures ExpectedBit(Get(p, a, true).0, b) == ExpectedBit(p, b) {
      MapHolds(p, b);
      MapHolds(Get(p, a, true).0, b);
    }
  }

  lemma {:induction false} HandsOverLater(c: Config, d: Config, m: Frame, me: Addr)
    requires UniqueAddrs(c.peers) && c.mode.Idle? && c.end.None? && Get(c.peers, m.addr, true).1 < |c.peers|
    requires var g := Fetch(c.table, c.inbox);
      g.message == Some(m) && d == c.(peers := Get(c.peers, m.addr, true).0, table := g.table, inbox := g.inbox)
    requires m.bit != ExpectedBit(d.peers, m.addr)
    ensures var v := RestOf(d, m, me);
      v.arrival.Message? ==>
        CameFrom(v.arrival.from, v.arrival.payload, ExpectedBit(c.peers, v.arrival.from), c.table, c.inbox)
    decreases Load(c.table, c.inbox), 0
  {
    var e := AfterReply(d, m, me);
    EntryOf(c.peers, m.addr);
    ReplyOutcome(d, m, me);
    GotEnds(FacingPeer(d, m.addr, me), m, d.inbox, d.sent);
    FetchLoad(c.table, c.inbox);
    FetchLoad(e.table, e.inbox);
    var h := Fetch(e.table, e.inbox);
    if h.message.Some? {
      HandsOverMessage(e.peers, h.table, h.inbox, e.sent, me);
      SameBits(c.peers, m.addr);
      SourcesOf(c, d, m, me);
      var v := RestOf(d, m, me);
      if v.arrival.Message? {
        StillCame(v.arrival.from, v.arrival.payload, ExpectedBit(c.peers, v.arrival.from), h.table, h.inbox, c.table,
          c.inbox);
      }
    }
  }

  lemma SourcesOf(c: Config, d: Config, m: Frame, me: Addr)
    requires c.mode.Idle? && d.mode.Idle?
    requires var g := Fetch(c.table, c.inbox); d.table == g.table && d.inbox == g.inbox
    ensures var e := AfterReply(d, m, me);
      var h := Fetch(e.table, e.inbox);
      Sourced(h.table, c.table, c.inbox) && Within(h.inbox, c.inbox)
  {
    var e := AfterReply(d, m, me);
    var h := Fetch(e.table, e.inbox);
    FetchSourced(c.table, c.inbox);
    AfterReplySourced(d, m, me);
    SourcedOn(e.table, e.inbox, d.table, d.inbox, c.table, c.inbox);
    FetchSourced(e.table, e.inbox);
    SourcedOn(h.table, h.inbox, e.table, e.inbox, c.table, c.inbox);
  }

  lemma StillCame(from: Addr, payload: string, bit: Bit, u: Table, rest: Inbox, t: Table, inbox: Inbox)
    requires CameFrom(from, payload, bit, u, rest) && Sourced(u, t, inbox) && Within(rest, inbox)
    ensures CameFrom(from, payload, bit, t, inbox)
  {
    var f: Frame :| f.kind.MESSAGE? && f.addr == from && f.data == payload && f.bit == bit
                    && (Some(f) in u || Some(f) in rest);
    if Some(f) in u {
      var i :| 0 <= i < |u| && u[i] == Some(f);
      assert IsMessage(u[i]);
    }
  }
}
