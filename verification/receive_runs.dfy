/** A whole receive is a run of the receiver's steps, one socket event at a time, kept up until a message is
    handed over or a read finds nothing. */
module ReceiveRuns {
  import opened Base
  import opened ParkedFrames
  import opened PeerBits
  import opened Rudp
  import opened RudpEndpoint

  /** An endpoint within a receive: each peer has its bits, all share the table and the socket. */
  datatype Config = Config(peers: Peers, mode: Mode, table: Table, inbox: Inbox, sent: seq<Datagram>,
    end: Option<Arrival>)

  function ExpectedBit(p: Peers, a: Addr): Bit {
    var k := Lookup(p, a, 0);
    if k < |p| then p[k].value.bits.expected else 0
  }

  /** The receiver as the peer at `a` knows it. */
  function FacingPeer(c: Config, a: Addr, me: Addr): Receiver { Receiver(me, ExpectedBit(c.peers, a), c.mode, c.table) }

  function Event(inbox: Inbox): Option<Frame> { if inbox == [] then None else inbox[0] }

  function Later(inbox: Inbox): Inbox { if inbox == [] then inbox else inbox[1..] }

  /** The message a read takes: a parked one, or the frame that has come. */
  function MessageRead(c: Config): Option<Frame> {
    if HasPending(c.table) then TakeMessage(c.table).1
    else if Event(c.inbox).Some? && Event(c.inbox).value.kind.MESSAGE? then Event(c.inbox)
    else None
  }

  /** What a step for the peer at `a` makes of the endpoint: the peer's bit follows the receiver's. */
  function After(c: Config, a: Addr, q: Receipt, inbox: Inbox): Config {
    var k := Lookup(c.peers, a, 0);
    c.(peers := if k < |c.peers| && q.rcv.bit != ExpectedBit(c.peers, a) then FlipExpected(c.peers, k) else c.peers,
       mode := q.rcv.mode, table := q.rcv.table, inbox := inbox, sent := c.sent + q.out,
       end := if q.delivered.Some? then Some(Message(a, q.delivered.value)) else None)
  }

  /** One step: of the reply under way, or a read. */
  function Advance(c: Config, me: Addr): Config {
    if c.mode.Replying? then
      var a := c.mode.message.addr;
      After(c, a, ReplyStep(FacingPeer(c, a, me), Event(c.inbox)), Later(c.inbox))
    else
      var rest := if HasPending(c.table) then c.inbox else Later(c.inbox);
      match MessageRead(c)
      case None =>
        var q := Poll(FacingPeer(c, me, me), Event(c.inbox));
        c.(mode := q.rcv.mode, table := q.rcv.table, inbox := rest,
           end := if Event(c.inbox).None? then Some(Nothing) else None)
      case Some(m) => TakeUp(c, m, rest, me)
  }

  /** A message is taken: its sender must have an entry, unless the message is thrown away. */
  function TakeUp(c: Config, m: Frame, rest: Inbox, me: Addr): Config {
    if c.mode.Discarding? then After(c, m.addr, Poll(FacingPeer(c, m.addr, me), Event(c.inbox)), rest)
    else
      var (u, k) := Get(c.peers, m.addr, true);
      var d := c.(peers := u);
      if k == |u| then d.(table := TakeMessage(c.table).0, inbox := rest, end := Some(NoSlot))
      else After(d, m.addr, Poll(FacingPeer(d, m.addr, me), Event(c.inbox)), rest)
  }

  function Stepper(me: Addr): Config -> Option<Config> {
    (c: Config) => if c.end.Some? then None else Some(Advance(c, me))
  }

  /** `n` steps lead from `c` to `d`. */
  predicate Runs(c: Config, n: nat, d: Config, me: Addr) { Iterates(Stepper(me), c, n, d) }

  ghost predicate Comes(c: Config, d: Config, me: Addr) { exists n: nat :: Runs(c, n, d, me) }

  lemma Stays(c: Config, me: Addr)
    ensures Comes(c, c, me)
  {
    assert Runs(c, 0, c, me);
  }

  lemma OneStep(c: Config, me: Addr)
    requires c.end.None?
    ensures Runs(c, 1, Advance(c, me), me)
  {
    assert Stepper(me)(c) == Some(Advance(c, me));
    assert Iterates(Stepper(me), Advance(c, me), 0, Advance(c, me));
  }

  lemma StepComes(c: Config, d: Config, me: Addr)
    requires c.end.None? && Comes(Advance(c, me), d, me)
    ensures Comes(c, d, me)
  {
    OneStep(c, me);
    assert Comes(c, Advance(c, me), me);
    ComesOn(c, Advance(c, me), d, me);
  }

  lemma ComesOn(c: Config, d: Config, e: Config, me: Addr)
    requires Comes(c, d, me) && Comes(d, e, me)
    ensures Comes(c, e, me)
  {
    var m: nat :| Runs(c, m, d, me);
    var n: nat :| Runs(d, n, e, me);
    IteratesOn(Stepper(me), c, m, d, n, e);
    assert Runs(c, m + n, e, me);
  }

  // ------------------------------------------------------------------------ the reply

  /** A reply under way for the peer at `a` ends where the receiver's steps end it. */
  lemma {:induction false} ReplyComes(c: Config, me: Addr)
    requires UniqueAddrs(c.peers) && c.mode.Replying? && c.end.None?
    requires Lookup(c.peers, c.mode.message.addr, 0) < |c.peers|
    ensures var a := c.mode.message.addr;
      var w := ReplyRun(FacingPeer(c, a, me), None, c.inbox, c.sent);
      Comes(c, Replied(c, a, w), me)
    decreases |c.inbox|, AttemptsLeft(FacingPeer(c, c.mode.message.addr, me))
  {
    var a := c.mode.message.addr;
    var r := FacingPeer(c, a, me);
    var q, d := ReplyStep(r, Event(c.inbox)), Advance(c, me);
    ReplyStepLaw(r, Event(c.inbox));
    if q.rcv.mode.Replying? {
      assert FacingPeer(d, a, me) == q.rcv;
      ReplyComes(d, me);
      StepComes(c, Replied(d, a, ReplyRun(q.rcv, None, d.inbox, d.sent)), me);
    } else {
      assert d == Replied(c, a, ReplyTrace(q.rcv, q.delivered, Later(c.inbox), c.sent + q.out));
      Stays(d, me);
      StepComes(c, d, me);
    }
  }

  function Replied(c: Config, a: Addr, w: ReplyTrace): Config {
    After(c, a, Receipt(w.rcv, [], w.delivered), w.inbox).(sent := w.sent)
  }

  // -------------------------------------------------------------------------- the reads

  /** The endpoint once the message `m` has been taken, leaving `t` and `rest`. */
  function TookUp(c: Config, m: Frame, t: Table, rest: Inbox, me: Addr): Config {
    if c.mode.Discarding? then c.(mode := Idle, table := t, inbox := rest)
    else
      var (u, k) := Get(c.peers, m.addr, true);
      var d := c.(peers := u, table := t, inbox := rest);
      if k == |u| then d.(end := Some(NoSlot)) else After(d, m.addr, Got(FacingPeer(d, m.addr, me), m), rest)
  }

  lemma TakesUp(c: Config, me: Addr)
    requires !c.mode.Replying? && c.end.None? && MessageRead(c).Some?
    ensures var m := MessageRead(c).value;
      var (t, rest) := if HasPending(c.table) then (TakeMessage(c.table).0, c.inbox) else (c.table, Later(c.inbox));
      Advance(c, me) == TookUp(c, m, t, rest, me)
  {
    PendingTaken(c.table);
    assert c.sent + [] == c.sent;
    var m := MessageRead(c).value;
    var (u, k) := Get(c.peers, m.addr, true);
    if c.mode.Idle? && k < |u| { TakenIsGot(c.(peers := u), m, me); }
  }

  lemma TakenIsGot(c: Config, m: Frame, me: Addr)
    requires c.mode.Idle? && MessageRead(c) == Some(m)
    ensures var t := if HasPending(c.table) then TakeMessage(c.table).0 else c.table;
      Poll(FacingPeer(c, m.addr, me), Event(c.inbox)) == Got(FacingPeer(c.(table := t), m.addr, me), m)
  {
    PendingTaken(c.table);
  }

  lemma ParksOther(c: Config, me: Addr)
    requires !c.mode.Replying? && c.end.None? && MessageRead(c).None? && Event(c.inbox).Some?
    ensures Advance(c, me) == c.(table := Store(c.table, Event(c.inbox).value).0, inbox := Later(c.inbox))
    ensures !HasPending(c.table) && !HasPending(Advance(c, me).table)
  {
    PendingTaken(c.table);
    StillNoMessage(c.table, Event(c.inbox).value);
  }

  /** Fetching a message comes down to reads: they park other frames until one of them takes a message or
      finds nothing. */
  lemma {:induction false} FetchComes(c: Config, me: Addr)
    requires !c.mode.Replying? && c.end.None?
    ensures var g := Fetch(c.table, c.inbox);
      Comes(c, if g.message.Some? then TookUp(c, g.message.value, g.table, g.inbox, me)
               else c.(mode := Idle, table := g.table, inbox := g.inbox, end := Some(Nothing)), me)
    decreases |c.inbox|
  {
    PendingTaken(c.table);
    var d := Advance(c, me);
    Stays(d, me);
    StepComes(c, d, me);
    if MessageRead(c).Some? {
      TakesUp(c, me);
    } else if Event(c.inbox).Some? {
      ParksOther(c, me);
      FetchComes(d, me);
      FetchGoesOn(c, me);
      var g := Fetch(d.table, d.inbox);
      StepComes(c, if g.message.Some? then TookUp(d, g.message.value, g.table, g.inbox, me)
                   else d.(mode := Idle, table := g.table, inbox := g.inbox, end := Some(Nothing)), me);
    }
  }

  lemma FetchGoesOn(c: Config, me: Addr)
    requires !c.mode.Replying? && c.end.None? && MessageRead(c).None? && Event(c.inbox).Some?
    ensures var d := Advance(c, me); Fetch(d.table, d.inbox) == Fetch(c.table, c.inbox)
  {
    ParksOther(c, me);
    PendingTaken(c.table);
    PendingTaken(Advance(c, me).table);
  }

  // ------------------------------------------------------------------- the whole receive

  function Ended(c: Config, v: ReceiveEnd): Config {
    c.(peers := v.peers, mode := Idle, table := v.table, inbox := v.inbox, sent := v.sent, end := Some(v.arrival))
  }

  /** The endpoint once the message `m` from a known peer has been replied to. */
  function AfterReply(c: Config, m: Frame, me: Addr): Config {
    var q := Got(FacingPeer(c, m.addr, me), m);
    Replied(c, m.addr, ReplyRun(q.rcv, q.delivered, c.inbox, c.sent + q.out))
  }

  /** The reply to a message taken up runs to its end. */
  lemma TookUpReplies(c: Config, m: Frame, me: Addr)
    requires UniqueAddrs(c.peers) && c.mode.Idle? && c.end.None? && Lookup(c.peers, m.addr, 0) < |c.peers|
    ensures Comes(After(c, m.addr, Got(FacingPeer(c, m.addr, me), m), c.inbox), AfterReply(c, m, me), me)
  {
    var a, q := m.addr, Got(FacingPeer(c, m.addr, me), m);
    var d := After(c, a, q, c.inbox);
    if q.rcv.mode.Replying? {
      assert FacingPeer(d, a, me) == q.rcv;
      ReplyComes(d, me);
    } else {
      Stays(d, me);
    }
  }

  /** What a reply comes to, by the message's bit alone. */
  lemma ReplyOutcome(c: Config, m: Frame, me: Addr)
    requires UniqueAddrs(c.peers) && c.mode.Idle? && c.end.None? && Lookup(c.peers, m.addr, 0) < |c.peers|
    ensures var q := Got(FacingPeer(c, m.addr, me), m);
      var w, k := ReplyRun(q.rcv, q.delivered, c.inbox, c.sent + q.out), Lookup(c.peers, m.addr, 0);
      var d := AfterReply(c, m, me);
      && d.table == w.rcv.table && d.inbox == w.inbox && d.sent == w.sent
      && (if m.bit == ExpectedBit(c.peers, m.addr)
          then d.mode == Idle && d.peers == FlipExpected(c.peers, k) && d.end == Some(Message(m.addr, m.data))
          else d.mode == Discarding && d.peers == c.peers && d.end == None)
  {
    var r := FacingPeer(c, m.addr, me);
    GotEnds(r, m, c.inbox, c.sent);
    GotMode(r, m, c.inbox, c.sent);
  }

  lemma GotMode(r: Receiver, m: Frame, inbox: Inbox, sent: seq<Datagram>)
    ensures var q := Got(r, m);
      ReplyRun(q.rcv, q.delivered, inbox, sent + q.out).rcv.mode == if m.bit == r.bit then Idle else Discarding
  {
    var q := Got(r, m);
    if q.rcv.mode.Replying? { ReplyEnds(q.rcv, inbox, sent + q.out); }
  }

  lemma EntryOf(p: Peers, a: Addr)
    requires UniqueAddrs(p) && Get(p, a, true).1 < |p|
    ensures var (u, k) := Get(p, a, true);
      UniqueAddrs(u) && |u| == |p| && Lookup(u, a, 0) == k && ExpectedBit(u, a) == u[k].value.bits.expected
  {
    GetLaw(p, a);
    LookupIs(Get(p, a, true).0, a, Get(p, a, true).1);
  }

  /** From its first read to its return a receive takes the receiver's steps, and no others. */
  lemma {:induction false} ReceiveIsRun(c: Config, me: Addr)
    requires UniqueAddrs(c.peers) && c.mode.Idle? && c.end.None?
    ensures Comes(c, Ended(c, Receive(c.peers, c.table, c.inbox, c.sent, me)), me)
    decreases Load(c.table, c.inbox)
  {
    var g := Fetch(c.table, c.inbox);
    FetchLoad(c.table, c.inbox);
    FetchComes(c, me);
    if g.message.Some? {
      var m := g.message.value;
      GetLaw(c.peers, m.addr);
      var (u, k) := Get(c.peers, m.addr, true);
      if k < |u| {
        EntryOf(c.peers, m.addr);
        var d := c.(peers := u, table := g.table, inbox := g.inbox);
        RoundComes(d, m, me);
        ReceiveGoesOn(c, d, m, me);
        ComesOn(c, TookUp(c, m, g.table, g.inbox, me), Ended(c, RestOf(d, m, me)), me);
      }
    }
  }

  /** The rest of a receive that has taken `m` from a known peer. */
  ghost function RestOf(d: Config, m: Frame, me: Addr): ReceiveEnd {
    var e := AfterReply(d, m, me);
    var h := Fetch(e.table, e.inbox);
    if e.end.Some? then ReceiveEnd(e.end.value, e.peers, e.table, e.inbox, e.sent)
    else if h.message.None? then ReceiveEnd(Nothing, e.peers, h.table, h.inbox, e.sent)
    else Receive(e.peers, h.table, h.inbox, e.sent, me)
  }

  lemma ReceiveGoesOn(c: Config, d: Config, m: Frame, me: Addr)
    requires UniqueAddrs(c.peers) && c.mode.Idle? && c.end.None? && Get(c.peers, m.addr, true).1 < |c.peers|
    requires var g := Fetch(c.table, c.inbox);
      g.message == Some(m) && d == c.(peers := Get(c.peers, m.addr, true).0, table := g.table, inbox := g.inbox)
    ensures RestOf(d, m, me) == Receive(c.peers, c.table, c.inbox, c.sent, me)
  {
    EntryOf(c.peers, m.addr);
    ReplyOutcome(d, m, me);
    GotEnds(FacingPeer(d, m.addr, me), m, d.inbox, d.sent);
  }

  lemma {:induction false} RoundComes(d: Config, m: Frame, me: Addr)
    requires UniqueAddrs(d.peers) && d.mode.Idle? && d.end.None? && Lookup(d.peers, m.addr, 0) < |d.peers|
    ensures Comes(After(d, m.addr, Got(FacingPeer(d, m.addr, me), m), d.inbox), Ended(d, RestOf(d, m, me)), me)
    decreases Load(d.table, d.inbox), 1
  {
    var e, d1 := AfterReply(d, m, me), After(d, m.addr, Got(FacingPeer(d, m.addr, me), m), d.inbox);
    TookUpReplies(d, m, me);
    ReplyOutcome(d, m, me);
    GotEnds(FacingPeer(d, m.addr, me), m, d.inbox, d.sent);
    if e.end.None? {
      var h := Fetch(e.table, e.inbox);
      FetchLoad(e.table, e.inbox);
      FetchComes(e, me);
      if h.message.Some? {
        var f := e.(mode := Idle, table := h.table, inbox := h.inbox);
        ReceiveIsRun(f, me);
        ComesOn(e, f, Ended(d, RestOf(d, m, me)), me);
      }
      ComesOn(d1, e, Ended(d, RestOf(d, m, me)), me);
    }
  }
}
