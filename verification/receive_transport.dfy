/** With messages from one peer only, a whole receive is a run of the transport's receiver. */
module ReceiveTransport {
  import opened Base
  import opened ParkedFrames
  import opened PeerBits
  import opened Rudp
  import opened RudpEndpoint
  import opened ReceiveRuns
  import Transport

  /** The frames among the socket's events, and those of datagrams on the way. */
  function Coming(inbox: Inbox): seq<Frame> {
    if inbox == [] then [] else (if inbox[0].Some? then [inbox[0].value] else []) + Coming(inbox[1..])
  }

  function FramesOf(ds: seq<Datagram>): seq<Frame> {
    if ds == [] then [] else [ds[0].frame] + FramesOf(ds[1..])
  }

  /** No message of another peer is parked or comes in. */
  ghost predicate OnlyFrom(t: Table, inbox: Inbox, a: Addr) {
    && (forall i | 0 <= i < |t| && IsMessage(t[i]) :: t[i].value.addr == a)
    && (forall i | 0 <= i < |inbox| && IsMessage(inbox[i]) :: inbox[i].value.addr == a)
  }

  /** The endpoint `c` is the receiver of the transport state `s`. */
  ghost predicate Is(c: Config, s: Transport.State, a: Addr, me: Addr, acks: seq<Datagram>, more: seq<Frame>) {
    && UniqueAddrs(c.peers) && Lookup(c.peers, a, 0) < |c.peers| && OnlyFrom(c.table, c.inbox, a)
    && (c.mode.Replying? ==> c.mode.message.addr == a)
    && s.rcv == FacingPeer(c, a, me) && s.acks == acks + c.sent && FramesOf(s.data) == Coming(c.inbox) + more
  }

  /** The transport's step for the endpoint's next one. */
  function LabelOf(c: Config): Transport.Label {
    if c.mode.Replying? then (if Event(c.inbox).Some? then Transport.Wait else Transport.ReplyTick)
    else if MessageRead(c).None? && Event(c.inbox).None? then Transport.FindNothing
    else Transport.TryReceive
  }

  function HandedOver(c: Config): seq<string> {
    match c.end case Some(Message(_, payload)) => [payload] case _ => []
  }

  predicate EndsFor(c: Config, a: Addr) {
    match c.end case Some(Message(from, _)) => from == a case Some(NoSlot) => false case _ => true
  }

  lemma HeadComes(c: Config, s: Transport.State, a: Addr, me: Addr, acks: seq<Datagram>, more: seq<Frame>)
    requires Is(c, s, a, me, acks, more) && Event(c.inbox).Some?
    ensures s.data != [] && s.data[0].frame == Event(c.inbox).value
    ensures FramesOf(s.data[1..]) == Coming(Later(c.inbox)) + more
  {
    var f := c.inbox[0].value;
    assert Coming(c.inbox) == [f] + Coming(c.inbox[1..]);
    assert FramesOf(s.data) == [f] + (Coming(c.inbox[1..]) + more);
    assert FramesOf(s.data)[1..] == Coming(c.inbox[1..]) + more;
  }

  lemma NoneComes(c: Config)
    requires Event(c.inbox).None?
    ensures Coming(Later(c.inbox)) == Coming(c.inbox)
  {
    if c.inbox != [] { assert [] + Coming(c.inbox[1..]) == Coming(c.inbox[1..]); }
  }

  // --------------------------------------------------------------------- one step

  lemma AfterFaces(c: Config, a: Addr, q: Receipt, inbox: Inbox, me: Addr)
    requires UniqueAddrs(c.peers) && Lookup(c.peers, a, 0) < |c.peers| && q.rcv.me == me
    ensures var d := After(c, a, q, inbox);
      UniqueAddrs(d.peers) && Lookup(d.peers, a, 0) < |d.peers| && FacingPeer(d, a, me) == q.rcv
  {
    var k := Lookup(c.peers, a, 0);
    var b := c.peers[k].value.bits;
    LookupAfter(c.peers, k, a, b.(expected := Other(b.expected)), a);
  }

  /** A step of the reply, or the taking of a message, keeps the endpoint's address, and parks at most what
      has come. */
  ghost predicate Parks(t: Table, u: Table, e: Option<Frame>) {
    |u| == |t| && forall i | 0 <= i < |u| && IsMessage(u[i]) :: u[i] == t[i] || u[i] == e
  }

  lemma ReplyParks(r: Receiver, e: Option<Frame>)
    requires r.mode.Replying?
    ensures Parks(r.table, ReplyStep(r, e).rcv.table, e) && ReplyStep(r, e).rcv.me == r.me
    ensures var q := ReplyStep(r, e); q.rcv.mode.Replying? ==> q.rcv.mode.message == r.mode.message
  {
    ReplyStepLaw(r, e);
    if e.Some? { HearParks(r.table, e.value, r.me, r.mode.message.addr, ACK_ACK, r.mode.message.bit); }
    else { TimeoutParks(r); }
  }

  lemma HearParks(t: Table, f: Frame, me: Addr, from: Addr, kind: Kind, bit: Bit)
    ensures Parks(t, Hear(t, f, me, from, kind, bit).table, Some(f))
  {
  }

  lemma TimeoutParks(r: Receiver)
    requires r.mode.Replying?
    ensures Parks(r.table, ReplyTimeout(r).rcv.table, None)
  {
  }

  lemma GotParks(r: Receiver, m: Frame)
    ensures Parks(r.table, Got(r, m).rcv.table, None) && Got(r, m).rcv.me == r.me
    ensures Got(r, m).rcv.mode.Replying? ==> Got(r, m).rcv.mode.message == m
  {
  }

  lemma PollParks(r: Receiver, head: Option<Frame>)
    requires !r.mode.Replying?
    ensures Parks(r.table, Poll(r, head).rcv.table, if HasPending(r.table) then None else head)
    ensures Poll(r, head).rcv.me == r.me
    ensures var q := Poll(r, head);
      q.rcv.mode.Replying? ==>
        Some(q.rcv.mode.message) == if HasPending(r.table) then TakeMessage(r.table).1 else head
  {
    PendingTaken(r.table);
    var (u, e) := TakeMessage(r.table);
    if e.Some? { GotParks(r.(table := u), e.value); }
    else if head.Some? && head.value.kind.MESSAGE? { GotParks(r, head.value); }
  }

  lemma StillOnly(t: Table, u: Table, inbox: Inbox, rest: Inbox, e: Option<Frame>, a: Addr)
    requires OnlyFrom(t, inbox, a) && Parks(t, u, e) && (rest == inbox || rest == Later(inbox))
    requires e.None? || (inbox != [] && e == inbox[0])
    ensures OnlyFrom(u, rest, a)
  {
  }

  lemma TakenIsFrom(c: Config, a: Addr)
    requires OnlyFrom(c.table, c.inbox, a) && MessageRead(c).Some?
    ensures MessageRead(c).value.addr == a
  {
    PendingTaken(c.table);
  }

  lemma ReplyStepIs(c: Config, s: Transport.State, a: Addr, me: Addr, acks: seq<Datagram>, more: seq<Frame>)
    requires Is(c, s, a, me, acks, more) && c.end.None? && c.mode.Replying?
    ensures Transport.Enabled(s, LabelOf(c))
    ensures var d, t := Advance(c, me), Transport.Apply(s, LabelOf(c));
      && Is(d, t, a, me, acks, more) && EndsFor(d, a) && t.delivered == s.delivered + HandedOver(d)
  {
    var q := ReplyStep(FacingPeer(c, a, me), Event(c.inbox));
    ReplyParks(FacingPeer(c, a, me), Event(c.inbox));
    AfterFaces(c, a, q, Later(c.inbox), me);
    StillOnly(c.table, q.rcv.table, c.inbox, Later(c.inbox), Event(c.inbox), a);
    if Event(c.inbox).Some? { HeadComes(c, s, a, me, acks, more); } else { NoneComes(c); }
    assert acks + c.sent + q.out == acks + (c.sent + q.out);
  }

  lemma ReadIs(c: Config, s: Transport.State, a: Addr, me: Addr, acks: seq<Datagram>, more: seq<Frame>)
    requires Is(c, s, a, me, acks, more) && c.end.None? && !c.mode.Replying? && MessageRead(c).None?
    ensures Transport.Enabled(s, LabelOf(c))
    ensures var d, t := Advance(c, me), Transport.Apply(s, LabelOf(c));
      && Is(d, t, a, me, acks, more) && EndsFor(d, a) && t.delivered == s.delivered + HandedOver(d)
  {
    PendingTaken(c.table);
    var r := FacingPeer(c, a, me);
    PollParks(r, Event(c.inbox));
    StillOnly(c.table, Poll(r, Event(c.inbox)).rcv.table, c.inbox, Later(c.inbox), Event(c.inbox), a);
    if Event(c.inbox).Some? { HeadComes(c, s, a, me, acks, more); } else { NoneComes(c); }
    assert s.acks + [] == s.acks;
  }

  lemma TakeIs(c: Config, s: Transport.State, a: Addr, me: Addr, acks: seq<Datagram>, more: seq<Frame>)
    requires Is(c, s, a, me, acks, more) && c.end.None? && !c.mode.Replying? && MessageRead(c).Some?
    ensures Transport.Enabled(s, LabelOf(c))
    ensures var d, t := Advance(c, me), Transport.Apply(s, LabelOf(c));
      && Is(d, t, a, me, acks, more) && EndsFor(d, a) && t.delivered == s.delivered + HandedOver(d)
  {
    PendingTaken(c.table);
    TakenIsFrom(c, a);
    var r := FacingPeer(c, a, me);
    var q := Poll(r, Event(c.inbox));
    var rest := if HasPending(c.table) then c.inbox else Later(c.inbox);
    PollParks(r, Event(c.inbox));
    AfterFaces(c, a, q, rest, me);
    StillOnly(c.table, q.rcv.table, c.inbox, rest, if HasPending(c.table) then None else Event(c.inbox), a);
    if !HasPending(c.table) { HeadComes(c, s, a, me, acks, more); }
    PollIs(c, s, r, me);
    assert acks + c.sent + q.out == acks + (c.sent + q.out);
  }

  /** The transport's poll looks at the channel's head where the endpoint's looks at the socket. */
  lemma PollIs(c: Config, s: Transport.State, r: Receiver, me: Addr)
    requires !c.mode.Replying? && MessageRead(c).Some? && r.table == c.table
    requires !HasPending(c.table) ==> s.data != [] && Event(c.inbox) == Some(s.data[0].frame)
    ensures Poll(r, Transport.Head(s.data)) == Poll(r, Event(c.inbox))
  {
    PendingTaken(c.table);
  }

  // ----------------------------------------------------------------- the whole receive

  /** The labels of the receiver's own steps; a read that finds nothing is the last. */
  ghost predicate OfReceiver(ls: seq<Transport.Label>) {
    forall i | 0 <= i < |ls| ::
      && (ls[i].TryReceive? || ls[i].FindNothing? || ls[i].Wait? || ls[i].ReplyTick?)
      && (ls[i].FindNothing? ==> i == |ls| - 1)
  }

  lemma StepIs(c: Config, s: Transport.State, a: Addr, me: Addr, acks: seq<Datagram>, more: seq<Frame>)
    requires Is(c, s, a, me, acks, more) && c.end.None?
    ensures Transport.Enabled(s, LabelOf(c))
    ensures var d, t := Advance(c, me), Transport.Apply(s, LabelOf(c));
      && Is(d, t, a, me, acks, more) && EndsFor(d, a) && t.delivered == s.delivered + HandedOver(d)
    ensures LabelOf(c).FindNothing? <==> Advance(c, me).end == Some(Nothing)
  {
    if c.mode.Replying? { ReplyStepIs(c, s, a, me, acks, more); }
    else if MessageRead(c).None? { ReadIs(c, s, a, me, acks, more); }
    else { TakeIs(c, s, a, me, acks, more); }
  }

  lemma OnlyReceiver(s: Transport.State, l: Transport.Label)
    requires Transport.Enabled(s, l) && (l.TryReceive? || l.FindNothing? || l.Wait? || l.ReplyTick?)
    ensures Transport.Apply(s, l).snd == s.snd && Transport.Apply(s, l).epochs == s.epochs
  {
  }

  /** The run to `t` does what takes the endpoint to `d`. */
  ghost predicate Mirrors(s: Transport.State, ls: seq<Transport.Label>, t: Transport.State, d: Config) {
    && Transport.IsRun(s, ls, t) && OfReceiver(ls) && t.delivered == s.delivered + HandedOver(d)
    && t.snd == s.snd && t.epochs == s.epochs
    && (if d.end == Some(Nothing) then ls != [] && ls[|ls| - 1].FindNothing? else forall l | l in ls :: !l.FindNothing?)
  }

  lemma MirrorsNone(s: Transport.State, d: Config)
    requires d.end.None?
    ensures Mirrors(s, [], s, d)
  {
    assert s.delivered + [] == s.delivered;
  }

  lemma MirrorsOne(s: Transport.State, l: Transport.Label, d: Config)
    requires Transport.Enabled(s, l) && (l.TryReceive? || l.FindNothing? || l.Wait? || l.ReplyTick?)
    requires Transport.Apply(s, l).delivered == s.delivered + HandedOver(d)
    requires l.FindNothing? <==> d.end == Some(Nothing)
    ensures Mirrors(s, [l], Transport.Apply(s, l), d)
  {
    OnlyReceiver(s, l);
    assert [l][1..] == [];
  }

  lemma MirrorsMore(s: Transport.State, l: Transport.Label, ls: seq<Transport.Label>, t: Transport.State, d: Config)
    requires Transport.Enabled(s, l) && (l.TryReceive? || l.Wait? || l.ReplyTick?)
    requires Transport.Apply(s, l).delivered == s.delivered && Mirrors(Transport.Apply(s, l), ls, t, d)
    ensures Mirrors(s, [l] + ls, t, d)
  {
    OnlyReceiver(s, l);
    assert ([l] + ls)[1..] == ls;
  }

  /** One step, as it stands at the end of a run or within it. */
  lemma StepMirrors(c: Config, s: Transport.State, a: Addr, me: Addr, acks: seq<Datagram>, more: seq<Frame>)
    requires Is(c, s, a, me, acks, more) && c.end.None?
    ensures var l, d := LabelOf(c), Advance(c, me);
      && Transport.Enabled(s, l)
      && Is(d, Transport.Apply(s, l), a, me, acks, more) && EndsFor(d, a) && Mirrors(s, [l], Transport.Apply(s, l), d)
      && (d.end.None? ==> !l.FindNothing? && Transport.Apply(s, l).delivered == s.delivered)
  {
    StepIs(c, s, a, me, acks, more);
    MirrorsOne(s, LabelOf(c), Advance(c, me));
    if Advance(c, me).end.None? { assert s.delivered + [] == s.delivered; }
  }

  lemma {:induction false} RunIs(c: Config, n: nat, d: Config, s: Transport.State, a: Addr, me: Addr,
                                 acks: seq<Datagram>, more: seq<Frame>)
    returns (ls: seq<Transport.Label>, t: Transport.State)
    requires Is(c, s, a, me, acks, more) && Runs(c, n, d, me) && c.end.None?
    ensures Mirrors(s, ls, t, d) && Is(d, t, a, me, acks, more) && EndsFor(d, a)
    decreases n
  {
    if n == 0 {
      ls, t := [], s;
      MirrorsNone(s, d);
    } else {
      var c1 := Advance(c, me);
      StepMirrors(c, s, a, me, acks, more);
      ls, t := [LabelOf(c)], Transport.Apply(s, LabelOf(c));
      if c1.end.None? {
        var rest;
        rest, t := RunIs(c1, n - 1, d, t, a, me, acks, more);
        MirrorsMore(s, LabelOf(c), rest, t, d);
        ls := ls + rest;
      } else {
        EndedRun(c1, n - 1, d, me);
      }
    }
  }

  lemma EndedRun(c: Config, n: nat, d: Config, me: Addr)
    requires c.end.Some? && Runs(c, n, d, me)
    ensures d == c
  {
  }

  /** A call to receive, with messages of the peer at `a` only: some run of the transport's receiver starts
      where the call starts and ends where it ends, with the same table, bit, acknowledgements, frames still
      to come and payload handed over. The last read finds nothing exactly when the call returns nothing. */
  lemma ReceiveIsTransportRun(p: Peers, inbox: Inbox, sent: seq<Datagram>, s: Transport.State, a: Addr,
                              acks: seq<Datagram>, more: seq<Frame>)
    returns (ls: seq<Transport.Label>, t: Transport.State)
    requires s.rcv.mode.Idle? && Is(Config(p, Idle, s.rcv.table, inbox, sent, None), s, a, s.rcv.me, acks, more)
    ensures var v := Receive(p, s.rcv.table, inbox, sent, s.rcv.me);
      && Transport.IsRun(s, ls, t) && OfReceiver(ls) && t.snd == s.snd && t.epochs == s.epochs
      && t.rcv == Receiver(s.rcv.me, ExpectedBit(v.peers, a), Idle, v.table)
      && t.acks == acks + v.sent && FramesOf(t.data) == Coming(v.inbox) + more
      && t.delivered == s.delivered + (if v.arrival.Message? then [v.arrival.payload] else [])
      && v.arrival != NoSlot && (v.arrival.Message? ==> v.arrival.from == a)
      && (v.arrival.Nothing? <==> ls != [] && ls[|ls| - 1].FindNothing?)
  {
    var me := s.rcv.me;
    var c := Config(p, Idle, s.rcv.table, inbox, sent, None);
    var v := Receive(p, s.rcv.table, inbox, sent, me);
    ReceiveIsRun(c, me);
    var n: nat :| Runs(c, n, Ended(c, v), me);
    ls, t := RunIs(c, n, Ended(c, v), s, a, me, acks, more);
    if v.arrival.Message? && ls != [] { assert ls[|ls| - 1] in ls; }
  }
}
