/** A whole endpoint: the transport's calls as loops over what the socket yields. */
module RudpEndpoint {
  import opened Base
  import opened ParkedFrames
  import opened PeerBits
  import opened Rudp

  /** What the socket yields next: a frame, or nothing before the wait is over. When the script of
      events has ended the socket stays silent. */
  type Inbox = seq<Option<Frame>>

  // ------------------------------------------------------- waiting for one frame

  datatype End = Found | TimedOut | Silent

  datatype Waited = Waited(end: End, table: Table, inbox: Inbox, sent: seq<Datagram>)

  function Listen(t: Table, inbox: Inbox, sent: seq<Datagram>, me: Addr, from: Addr, kind: Kind, bit: Bit): Waited
    decreases |inbox|
  {
    if inbox == [] then Waited(Silent, t, [], sent)
    else match inbox[0]
      case None => Waited(TimedOut, t, inbox[1..], sent)
      case Some(f) =>
        var h := Hear(t, f, me, from, kind, bit);
        if h.matched then Waited(Found, h.table, inbox[1..], sent + h.out)
        else Listen(h.table, inbox[1..], sent + h.out, me, from, kind, bit)
  }

  /** A parked frame ends the wait before the socket is read. */
  function WaitFor(t: Table, inbox: Inbox, sent: seq<Datagram>, me: Addr, from: Addr, kind: Kind, bit: Bit): Waited {
    var (u, e) := TakeFrame(t, from, kind, bit);
    if e.Some? then Waited(Found, u, inbox, sent) else Listen(t, inbox, sent, me, from, kind, bit)
  }

  // -------------------------------------------------------------- a whole send

  datatype SendTrace = SendTrace(snd: Sender, inbox: Inbox, sent: seq<Datagram>)

  /** The sender's steps, one per socket event, until the call returns or the events end. */
  function SendRun(s: Sender, inbox: Inbox, sent: seq<Datagram>): SendTrace
    decreases |inbox|
  {
    if s.job.None? || inbox == [] then SendTrace(s, inbox, sent)
    else
      var r := match inbox[0] case None => SendTimeout(s) case Some(f) => SendHears(s, f);
      SendRun(r.snd, inbox[1..], sent + r.out)
  }

  /** A wait amounts to the sender's steps up to the event that ends it. */
  lemma {:induction false} ListenIsSend(s: Sender, inbox: Inbox, sent: seq<Datagram>)
    requires s.job.Some?
    ensures var w := Listen(s.table, inbox, sent, s.me, s.peer, ACK, s.bit);
      var s' := s.(table := w.table);
      && |w.inbox| <= |inbox| && (w.end.TimedOut? ==> |w.inbox| < |inbox|)
      && SendRun(s, inbox, sent) ==
          match w.end
          case Found => SendTrace(Acknowledged(s').snd, w.inbox, w.sent + Acknowledged(s').out)
          case Silent => SendTrace(s', w.inbox, w.sent)
          case TimedOut => SendRun(SendTimeout(s').snd, w.inbox, w.sent + SendTimeout(s').out)
    decreases |inbox|
  {
    if inbox != [] && inbox[0].Some? {
      var f := inbox[0].value;
      var h := Hear(s.table, f, s.me, s.peer, ACK, s.bit);
      if h.matched {
        assert sent + h.out == sent;
      } else {
        ListenIsSend(s.(table := h.table), inbox[1..], sent + h.out);
      }
    }
  }

  lemma TransmitAndWait(s: Sender, inbox: Inbox, sent: seq<Datagram>)
    requires s.job.Some?
    ensures var w := WaitFor(s.table, inbox, sent + [Outgoing(s)], s.me, s.peer, ACK, s.bit);
      var s', r := s.(table := w.table), Transmit(s);
      && |w.inbox| <= |inbox| && (w.end.TimedOut? ==> |w.inbox| < |inbox|)
      && SendRun(r.snd, inbox, sent + r.out) ==
          match w.end
          case Found => SendTrace(Acknowledged(s').snd, w.inbox, w.sent + Acknowledged(s').out)
          case Silent => SendTrace(s', w.inbox, w.sent)
          case TimedOut => SendRun(SendTimeout(s').snd, w.inbox, w.sent + SendTimeout(s').out)
  {
    var (u, e) := TakeFrame(s.table, s.peer, ACK, s.bit);
    var o := [Outgoing(s)];
    if e.Some? {
      var acks := Acknowledged(s.(table := u)).out;
      assert sent + (o + acks) == (sent + o) + acks;
    } else {
      assert s.(table := u) == s;
      ListenIsSend(s, inbox, sent + o);
    }
  }

  // ------------------------------------------------------------ a whole receive

  datatype ReplyTrace = ReplyTrace(rcv: Receiver, delivered: Option<string>, inbox: Inbox, sent: seq<Datagram>)

  /** The frames parked and still to be read; no call makes more of them. */
  ghost function Load(t: Table, inbox: Inbox): nat { |Frames(t)| + |inbox| }

  lemma StoreLoad(t: Table, f: Frame)
    ensures |Frames(Store(t, f).0)| <= |Frames(t)| + 1
  {
    StoreLaw(t, f);
    var u, twin := Store(t, f).0, FirstMatch(t, f.addr, f.kind, f.bit, 0);
    if twin < |t| { assert |Frames(u) + multiset{t[twin].value}| == |Frames(u)| + 1; }
  }

  lemma TakeLoad(t: Table, addr: Addr, kind: Kind, bit: Bit)
    ensures |Frames(TakeFrame(t, addr, kind, bit).0)| <= |Frames(t)|
  {
    TakeLaw(t, addr, kind, bit);
  }

  lemma ReceiptLoad(r: Receiver, f: Frame)
    requires r.mode.Replying?
    ensures |Frames(ReceiverHears(r, f).rcv.table)| <= |Frames(r.table)| + 1
    ensures |Frames(ReplyTimeout(r).rcv.table)| <= |Frames(r.table)|
    ensures |Frames(Reply(r).rcv.table)| <= |Frames(r.table)|
  {
    StoreLoad(r.table, f);
    TakeLoad(r.table, r.mode.message.addr, ACK_ACK, r.mode.message.bit);
  }

  function AttemptsLeft(r: Receiver): nat {
    match r.mode
    case Replying(_, _, n) => 1 + if n < MAX_TRANSMISSION_ATTEMPTS then MAX_TRANSMISSION_ATTEMPTS - n else 0
    case _ => 0
  }

  /** The receiver's steps, one per socket event, until the reply is over. */
  function ReplyRun(r: Receiver, delivered: Option<string>, inbox: Inbox, sent: seq<Datagram>): ReplyTrace
    decreases |inbox|, AttemptsLeft(r)
  {
    if !r.mode.Replying? then ReplyTrace(r, delivered, inbox, sent)
    else if inbox == [] then
      var q := ReplyStep(r, None);
      ReplyRun(q.rcv, q.delivered, inbox, sent + q.out)
    else
      var q := ReplyStep(r, inbox[0]);
      ReplyRun(q.rcv, q.delivered, inbox[1..], sent + q.out)
  }

  function ReplyStep(r: Receiver, e: Option<Frame>): Receipt
    requires r.mode.Replying?
  {
    match e case None => ReplyTimeout(r) case Some(f) => ReceiverHears(r, f)
  }

  /** A step goes on with the same message, or ends the reply as the message's bit decides. */
  lemma ReplyStepLaw(r: Receiver, e: Option<Frame>)
    requires r.mode.Replying?
    ensures var q := ReplyStep(r, e);
      && q.rcv.me == r.me
      && (if q.rcv.mode.Replying? then
            && q.rcv.bit == r.bit && q.delivered == None
            && q.rcv.mode.message == r.mode.message && q.rcv.mode.expected == r.mode.expected
          else
            && q.rcv.mode == (if r.mode.expected then Idle else Discarding)
            && q.rcv.bit == (if r.mode.expected then PeerBits.Other(r.bit) else r.bit)
            && q.delivered == (if r.mode.expected then Some(r.mode.message.data) else None))
      && (e.None? ==> AttemptsLeft(q.rcv) < AttemptsLeft(r))
      && |Frames(q.rcv.table)| <= |Frames(r.table)| + if e.Some? then 1 else 0
  {
    ReceiptLoad(r, if e.Some? then e.value else r.mode.message);
  }

  /** Every reply ends, with the message delivered and the bit flipped just when it was expected. */
  lemma {:induction false} ReplyEnds(r: Receiver, inbox: Inbox, sent: seq<Datagram>)
    requires r.mode.Replying?
    ensures var w := ReplyRun(r, None, inbox, sent);
      && w.rcv.me == r.me
      && w.rcv.mode == (if r.mode.expected then Idle else Discarding)
      && w.rcv.bit == (if r.mode.expected then PeerBits.Other(r.bit) else r.bit)
      && w.delivered == (if r.mode.expected then Some(r.mode.message.data) else None)
      && Load(w.rcv.table, w.inbox) <= Load(r.table, inbox)
    decreases |inbox|, AttemptsLeft(r)
  {
    var e := if inbox == [] then None else inbox[0];
    var rest := if inbox == [] then inbox else inbox[1..];
    var q := ReplyStep(r, e);
    ReplyStepLaw(r, e);
    if q.rcv.mode.Replying? { ReplyEnds(q.rcv, rest, sent + q.out); }
  }

  /** The same from the moment the message is taken. */
  lemma GotEnds(r: Receiver, m: Frame, inbox: Inbox, sent: seq<Datagram>)
    ensures var q := Got(r, m);
      var w := ReplyRun(q.rcv, q.delivered, inbox, sent + q.out);
      && w.delivered == (if m.bit == r.bit then Some(m.data) else None)
      && w.rcv.bit == (if m.bit == r.bit then PeerBits.Other(r.bit) else r.bit)
      && Load(w.rcv.table, w.inbox) <= Load(r.table, inbox)
  {
    var q := Got(r, m);
    ReceiptLoad(r.(mode := Replying(m, m.bit == r.bit, 0)), m);
    if q.rcv.mode.Replying? { ReplyEnds(q.rcv, inbox, sent + q.out); }
  }

  /** A wait amounts to the receiver's steps up to the event that ends it. */
  lemma {:induction false} ListenIsReply(r: Receiver, inbox: Inbox, sent: seq<Datagram>)
    requires r.mode.Replying?
    ensures var m := r.mode.message;
      var w := Listen(r.table, inbox, sent, r.me, m.addr, ACK_ACK, m.bit);
      var r' := r.(table := w.table);
      && |w.inbox| <= |inbox|
      && ReplyRun(r, None, inbox, sent) ==
          if w.end.Found? then ReplyTrace(Finish(r').rcv, Finish(r').delivered, w.inbox, w.sent)
          else ReplyRun(ReplyTimeout(r').rcv, ReplyTimeout(r').delivered, w.inbox, w.sent + ReplyTimeout(r').out)
    decreases |inbox|
  {
    if inbox != [] && inbox[0].Some? {
      var f, m := inbox[0].value, r.mode.message;
      var h := Hear(r.table, f, r.me, m.addr, ACK_ACK, m.bit);
      if h.matched {
        assert sent + [] == sent;
        assert ReceiverHears(r, f) == Finish(r.(table := h.table));
      } else {
        ListenIsReply(r.(table := h.table), inbox[1..], sent + h.out);
      }
    }
  }

  lemma ReplyAndWait(r: Receiver, inbox: Inbox, sent: seq<Datagram>)
    requires r.mode.Replying?
    ensures var m := r.mode.message;
      var w := WaitFor(r.table, inbox, sent + [AckFor(m, r.me)], r.me, m.addr, ACK_ACK, m.bit);
      var r', q := r.(table := w.table), Reply(r);
      && |w.inbox| <= |inbox|
      && ReplyRun(q.rcv, q.delivered, inbox, sent + q.out) ==
          if w.end.Found? then ReplyTrace(Finish(r').rcv, Finish(r').delivered, w.inbox, w.sent)
          else ReplyRun(ReplyTimeout(r').rcv, ReplyTimeout(r').delivered, w.inbox, w.sent + ReplyTimeout(r').out)
  {
    var m := r.mode.message;
    var (u, e) := TakeFrame(r.table, m.addr, ACK_ACK, m.bit);
    if e.None? {
      assert r.(table := u) == r;
      ListenIsReply(r, inbox, sent + [AckFor(m, r.me)]);
    }
  }

  /** Where the reply goes from here, with the next ACK still to be sent if attempts are left. */
  function ReplyFrom(r: Receiver, inbox: Inbox, sent: seq<Datagram>): ReplyTrace
    requires r.mode.Replying?
  {
    var q := if r.mode.attempts >= MAX_TRANSMISSION_ATTEMPTS then Finish(r) else Reply(r);
    ReplyRun(q.rcv, q.delivered, inbox, sent + q.out)
  }

  lemma ReplyGoesOn(r: Receiver, inbox: Inbox, sent: seq<Datagram>)
    requires r.mode.Replying? && r.mode.attempts < MAX_TRANSMISSION_ATTEMPTS
    ensures var m := r.mode.message;
      var w := WaitFor(r.table, inbox, sent + [AckFor(m, r.me)], r.me, m.addr, ACK_ACK, m.bit);
      var r' := r.(table := w.table);
      && |w.inbox| <= |inbox|
      && ReplyFrom(r, inbox, sent) ==
          if w.end.Found? then ReplyTrace(Finish(r').rcv, Finish(r').delivered, w.inbox, w.sent)
          else ReplyFrom(r'.(mode := r.mode.(attempts := r.mode.attempts + 1)), w.inbox, w.sent)
  {
    ReplyAndWait(r, inbox, sent);
  }

  datatype Fetched = Fetched(message: Option<Frame>, table: Table, inbox: Inbox)

  function ReadMessage(t: Table, inbox: Inbox): Fetched
    decreases |inbox|
  {
    if inbox == [] then Fetched(None, t, [])
    else match inbox[0]
      case None => Fetched(None, t, inbox[1..])
      case Some(f) =>
        if f.kind.MESSAGE? then Fetched(Some(f), t, inbox[1..]) else ReadMessage(Store(t, f).0, inbox[1..])
  }

  /** A parked message first, else the next one at the socket; other frames met on the way are parked. */
  function Fetch(t: Table, inbox: Inbox): Fetched {
    var (u, e) := TakeMessage(t);
    if e.Some? then Fetched(e, u, inbox) else ReadMessage(t, inbox)
  }

  /** The receiver's polls, one per socket event, until one of them takes a message or finds nothing. */
  function PollRun(r: Receiver, inbox: Inbox): (Receipt, Inbox)
    decreases |inbox|
  {
    if HasPending(r.table) || inbox == [] then (Poll(r, None), inbox)
    else if inbox[0].None? || inbox[0].value.kind.MESSAGE? then (Poll(r, inbox[0]), inbox[1..])
    else PollRun(Poll(r, inbox[0]).rcv, inbox[1..])
  }

  lemma PendingTaken(t: Table)
    ensures HasPending(t) <==> TakeMessage(t).1.Some?
  {
  }

  /** Fetching is what the receiver's polls come to. */
  lemma {:induction false} FetchIsPoll(r: Receiver, inbox: Inbox)
    ensures var g := Fetch(r.table, inbox);
      var r' := r.(table := g.table);
      PollRun(r, inbox) ==
        (if g.message.Some? then Taken(r', g.message.value) else Receipt(r'.(mode := Idle), [], None), g.inbox)
    decreases |inbox|
  {
    PendingTaken(r.table);
    if !HasPending(r.table) && inbox != [] && inbox[0].Some? && !inbox[0].value.kind.MESSAGE? {
      var u := Store(r.table, inbox[0].value).0;
      StillNoMessage(r.table, inbox[0].value);
      FetchIsPoll(r.(table := u), inbox[1..]);
    }
  }

  /** Parking a frame that is no message leaves no message to take where there was none. */
  lemma StillNoMessage(t: Table, f: Frame)
    requires !HasPending(t) && !f.kind.MESSAGE?
    ensures !HasPending(Store(t, f).0)
  {
  }

  lemma {:induction false} FetchLoad(t: Table, inbox: Inbox)
    ensures var g := Fetch(t, inbox);
      && Load(g.table, g.inbox) <= Load(t, inbox)
      && (g.message.Some? ==> g.message.value.kind.MESSAGE? && Load(g.table, g.inbox) < Load(t, inbox))
    decreases |inbox|
  {
    TakeMessageLaw(t);
    if TakeMessage(t).1.None? && inbox != [] && inbox[0].Some? && !inbox[0].value.kind.MESSAGE? {
      StoreLoad(t, inbox[0].value);
      StillNoMessage(t, inbox[0].value);
      FetchLoad(Store(t, inbox[0].value).0, inbox[1..]);
    }
  }

  datatype Arrival = Message(from: Addr, payload: string) | Nothing | NoSlot

  datatype ReceiveEnd = ReceiveEnd(arrival: Arrival, peers: Peers, table: Table, inbox: Inbox, sent: seq<Datagram>)

  /** A whole receive: a duplicate is acknowledged again, one more message is thrown away, and it starts over. */
  ghost function Receive(p: Peers, t: Table, inbox: Inbox, sent: seq<Datagram>, me: Addr): ReceiveEnd
    decreases Load(t, inbox)
  {
    var g := Fetch(t, inbox);
    FetchLoad(t, inbox);
    if g.message.None? then ReceiveEnd(Nothing, p, g.table, g.inbox, sent)
    else
      var m := g.message.value;
      var (u, k) := Get(p, m.addr, true);
      if k == |u| then ReceiveEnd(NoSlot, u, g.table, g.inbox, sent)
      else
        var r := Receiver(me, u[k].value.bits.expected, Idle, g.table);
        var q := Got(r, m);
        GotEnds(r, m, g.inbox, sent);
        var w := ReplyRun(q.rcv, q.delivered, g.inbox, sent + q.out);
        if w.delivered.Some?
        then ReceiveEnd(Message(m.addr, w.delivered.value), FlipExpected(u, k), w.rcv.table, w.inbox, w.sent)
        else
          var h := Fetch(w.rcv.table, w.inbox);
          FetchLoad(w.rcv.table, w.inbox);
          if h.message.None? then ReceiveEnd(Nothing, u, h.table, h.inbox, w.sent)
          else Receive(u, h.table, h.inbox, w.sent, me)
  }

  /** Whatever a receive goes through, it flips the expected bit of the peer whose message it returns,
      and changes no other bit of any peer known before. */
  lemma {:induction false} ReceiveFlipsOnce(p: Peers, t: Table, inbox: Inbox, sent: seq<Datagram>, me: Addr)
    requires UniqueAddrs(p)
    ensures var v := Receive(p, t, inbox, sent, me);
      && UniqueAddrs(v.peers) && |v.peers| == |p|
      && forall a | a in AsMap(p) ::
          && a in AsMap(v.peers)
          && AsMap(v.peers)[a] ==
              if v.arrival.Message? && v.arrival.from == a
              then AsMap(p)[a].(expected := PeerBits.Other(AsMap(p)[a].expected)) else AsMap(p)[a]
    decreases Load(t, inbox)
  {
    var g := Fetch(t, inbox);
    FetchLoad(t, inbox);
    if g.message.Some? {
      var m := g.message.value;
      GetLaw(p, m.addr);
      var (u, k) := Get(p, m.addr, true);
      if k < |u| {
        var r := Receiver(me, u[k].value.bits.expected, Idle, g.table);
        GotEnds(r, m, g.inbox, sent);
        CarryRefines(p, PeerBits.Received(m.addr, true));
        var q := Got(r, m);
        var w := ReplyRun(q.rcv, q.delivered, g.inbox, sent + q.out);
        if w.delivered.None? {
          FetchLoad(w.rcv.table, w.inbox);
          var h := Fetch(w.rcv.table, w.inbox);
          if h.message.Some? { ReceiveFlipsOnce(u, h.table, h.inbox, w.sent, me); }
        }
      }
    }
  }

  datatype Outcome = Delivered | GaveUp | Blocked | TableFull

  class Endpoint {
    const me: Addr
    const peers: PeerTable
    const parked: ParkedTable
    var inbox: Inbox
    var sent: seq<Datagram>

    ghost predicate Valid()
      reads this, peers, peers.slots, parked, parked.slots
    {
      peers.Valid() && parked.Valid()
    }

    constructor (me: Addr, inbox: Inbox)
      ensures Valid() && fresh(peers) && fresh(peers.slots) && fresh(parked) && fresh(parked.slots)
      ensures this.me == me && this.inbox == inbox && sent == []
    {
      this.me := me;
      peers := new PeerTable();
      parked := new ParkedTable();
      this.inbox := inbox;
      sent := [];
    }

    /** Waits for a frame of one kind and bit from one peer; whatever else comes in is parked. */
    method WaitForFrame(from: Addr, kind: Kind, bit: Bit) returns (end: End)
      requires Valid()
      modifies this, parked.slots
      ensures Valid()
      ensures Waited(end, parked.slots[..], inbox, sent)
          == WaitFor(old(parked.slots[..]), old(inbox), old(sent), me, from, kind, bit)
    {
      var e := parked.TakePending(from, kind, bit);
      if e.Some? { return Found; }
      ghost var target := Listen(parked.slots[..], inbox, sent, me, from, kind, bit);
      while inbox != []
        invariant Valid() && unchanged(peers, peers.slots)
        invariant target == Listen(parked.slots[..], inbox, sent, me, from, kind, bit)
        decreases |inbox|
      {
        var next := inbox[0];
        inbox := inbox[1..];
        match next
        case None => return TimedOut;
        case Some(f) =>
          if f.kind.MESSAGE? {
            var ok := parked.StorePending(f);
            if ok { sent := sent + [AckFor(f, me)]; } else { assert sent + [] == sent; }
          } else if f.addr == from && f.kind == kind && f.bit == bit {
            assert sent + [] == sent;
            return Found;
          } else {
            var _ := parked.StorePending(f);
            assert sent + [] == sent;
          }
      }
      end := Silent;
    }

    /** The endpoint is where the sender's steps ended; the bit has flipped exactly on delivery. */
    ghost predicate EndsAs(trace: SendTrace, bit: Bit, outcome: Outcome)
      reads this, parked, parked.slots
    {
      && inbox == trace.inbox && sent == trace.sent && parked.slots[..] == trace.snd.table
      && (outcome.Delivered? <==> trace.snd.bit != bit)
      && (outcome.Blocked? <==> trace.snd.job.Some?)
    }

    method SendAckAcks(dest: Addr, bit: Bit, epoch: nat)
      modifies this`sent
      ensures var d := Datagram(dest, Frame(me, ACK_ACK, bit, "", epoch)); sent == old(sent) + [d, d, d]
    {
      var d := Datagram(dest, Frame(me, ACK_ACK, bit, "", epoch));
      for i := 0 to MAX_TRANSMISSION_ATTEMPTS
        invariant sent == old(sent) + seq(i, _ => d)
      {
        sent := sent + [d];
      }
      assert seq(3, _ => d) == [d, d, d];
    }

    /** The retry loop: sends the message until its acknowledgement comes, or `limit` attempts have
        failed when `limit` is positive. */
    method SendUntilAcknowledged(dest: Addr, bit: Bit, payload: string, limit: int, epoch: nat)
      returns (outcome: Outcome)
      requires Valid()
      modifies this, parked.slots
      ensures Valid() && outcome != TableFull
      ensures var s := Sender(me, dest, bit, Some(Sending(payload, 0, limit, epoch)), old(parked.slots[..]));
        EndsAs(SendRun(Transmit(s).snd, old(inbox), old(sent) + Transmit(s).out), bit, outcome)
    {
      var attempts := 0;
      ghost var s := Sender(me, dest, bit, Some(Sending(payload, 0, limit, epoch)), parked.slots[..]);
      ghost var trace := SendRun(Transmit(s).snd, inbox, sent + Transmit(s).out);
      while true
        invariant Valid() && unchanged(peers, peers.slots)
        invariant s == Sender(me, dest, bit, Some(Sending(payload, attempts, limit, epoch)), parked.slots[..])
        invariant trace == SendRun(Transmit(s).snd, inbox, sent + Transmit(s).out)
        decreases |inbox|
      {
        TransmitAndWait(s, inbox, sent);
        sent := sent + [Datagram(dest, Frame(me, MESSAGE, bit, payload, epoch))];
        var end := WaitForFrame(dest, ACK, bit);
        s := s.(table := parked.slots[..]);
        match end
        case Silent => return Blocked;
        case Found =>
          SendAckAcks(dest, bit, epoch);
          return Delivered;
        case TimedOut =>
          attempts := attempts + 1;
          if limit > 0 && attempts >= limit {
            assert sent + [] == sent;
            return GaveUp;
          }
          s := s.(job := Some(Sending(payload, attempts, limit, epoch)));
      }
    }

    /** A send purges stale acknowledgements, runs the retry loop, and flips the peer's bit on success. */
    method SendTo(dest: Addr, payload: string, limit: int, epoch: nat) returns (outcome: Outcome)
      requires Valid()
      modifies this, peers.slots, parked.slots
      ensures Valid()
      ensures var (u, k) := Get(old(peers.slots[..]), dest, true);
        && (k == |u| ==> outcome == TableFull && peers.slots[..] == u && unchanged(this, parked.slots))
        && (k < |u| ==>
            var bit := u[k].value.bits.send;
            var r := StartSend(Sender(me, dest, bit, None, old(parked.slots[..])), payload, limit, epoch);
            && outcome != TableFull
            && EndsAs(SendRun(r.snd, old(inbox), old(sent) + r.out), bit, outcome)
            && peers.slots[..] == if outcome.Delivered? then FlipSend(u, k) else u)
    {
      ghost var t, idle := peers.slots[..], parked.slots[..];
      var k := peers.GetPeer(dest, true);
      if k == peers.slots.Length { return TableFull; }
      var bit := peers.slots[k].value.bits.send;
      parked.DropPeerFrames(dest, ACK);
      parked.DropPeerFrames(dest, ACK_ACK);
      outcome := SendUntilAcknowledged(dest, bit, payload, limit, epoch);
      if outcome.Delivered? { peers.ToggleSend(k); }
    }

    /** Takes a message, parked or from the socket, without blocking. */
    method ReceiveMessageFrame() returns (e: Option<Frame>)
      requires Valid()
      modifies this`inbox, parked.slots
      ensures Valid() && Fetched(e, parked.slots[..], inbox) == Fetch(old(parked.slots[..]), old(inbox))
    {
      e := parked.TakePendingMessage();
      if e.Some? { return; }
      ghost var target := ReadMessage(parked.slots[..], inbox);
      while inbox != []
        invariant Valid() && unchanged(peers, peers.slots)
        invariant target == ReadMessage(parked.slots[..], inbox)
        decreases |inbox|
      {
        var next := inbox[0];
        inbox := inbox[1..];
        match next
        case None => return None;
        case Some(f) =>
          if f.kind.MESSAGE? { return next; }
          var _ := parked.StorePending(f);
      }
      e := None;
    }

    /** Acknowledges `m` until its ACK_ACK comes or the attempts run out. */
    method ReplyTo(m: Frame, bit: Bit)
      requires Valid()
      modifies this, parked.slots
      ensures Valid()
      ensures var q := Got(Receiver(me, bit, Idle, old(parked.slots[..])), m);
        var w := ReplyRun(q.rcv, q.delivered, old(inbox), old(sent) + q.out);
        inbox == w.inbox && sent == w.sent && parked.slots[..] == w.rcv.table
    {
      var attempts := 0;
      ghost var r := Receiver(me, bit, Replying(m, m.bit == bit, 0), parked.slots[..]);
      ghost var w := ReplyFrom(r, inbox, sent);
      while attempts < MAX_TRANSMISSION_ATTEMPTS
        invariant Valid() && unchanged(peers, peers.slots) && attempts <= MAX_TRANSMISSION_ATTEMPTS
        invariant r == Receiver(me, bit, Replying(m, m.bit == bit, attempts), parked.slots[..])
        invariant w == ReplyFrom(r, inbox, sent)
      {
        ReplyGoesOn(r, inbox, sent);
        sent := sent + [AckFor(m, me)];
        var end := WaitForFrame(m.addr, ACK_ACK, m.bit);
        r := r.(table := parked.slots[..]);
        if end.Found? { return; }
        attempts := attempts + 1;
        r := r.(mode := r.mode.(attempts := attempts));
      }
      assert sent + [] == sent;
    }

    method RecvFrom() returns (arrival: Arrival)
      requires Valid()
      modifies this, peers.slots, parked.slots
      ensures Valid()
      ensures ReceiveEnd(arrival, peers.slots[..], parked.slots[..], inbox, sent)
          == Receive(old(peers.slots[..]), old(parked.slots[..]), old(inbox), old(sent), me)
    {
      ghost var target := Receive(peers.slots[..], parked.slots[..], inbox, sent, me);
      while true
        invariant Valid() && target == Receive(peers.slots[..], parked.slots[..], inbox, sent, me)
        decreases Load(parked.slots[..], inbox)
      {
        FetchLoad(parked.slots[..], inbox);
        var e := ReceiveMessageFrame();
        if e.None? { return Nothing; }
        var m := e.value;
        var k := peers.GetPeer(m.addr, true);
        if k == peers.slots.Length { return NoSlot; }
        var bit := peers.slots[k].value.bits.expected;
        GotEnds(Receiver(me, bit, Idle, parked.slots[..]), m, inbox, sent);
        ReplyTo(m, bit);
        if m.bit == bit {
          peers.ToggleExpected(k);
          return Message(m.addr, m.data);
        }
        FetchLoad(parked.slots[..], inbox);
        var thrown := ReceiveMessageFrame();
        if thrown.None? { return Nothing; }
      }
    }
  }
}
