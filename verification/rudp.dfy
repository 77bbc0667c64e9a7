/** One endpoint's part in the reliable transport, one socket event at a time. */
module Rudp {
  import opened Base
  import opened ParkedFrames
  import PeerBits

  const MAX_TRANSMISSION_ATTEMPTS := 3

  datatype Datagram = Datagram(to: Addr, frame: Frame)

  function AckFor(f: Frame, me: Addr): Datagram {
    Datagram(f.addr, Frame(me, ACK, f.bit, "", f.epoch))
  }

  // --------------------------------------------------------- waiting for a frame

  datatype Heard = Heard(table: Table, out: seq<Datagram>, matched: bool)

  /** One frame read while waiting for (from, kind, bit). A message is parked and acknowledged at once. */
  function Hear(t: Table, f: Frame, me: Addr, from: Addr, kind: Kind, bit: Bit): Heard {
    if f.kind.MESSAGE? then
      var (u, ok) := Store(t, f);
      Heard(u, if ok then [AckFor(f, me)] else [], false)
    else if Matches(Some(f), from, kind, bit) then Heard(t, [], true)
    else Heard(Store(t, f).0, [], false)
  }

  // ----------------------------------------------------------------- the sender

  /** `limit` is the number of attempts allowed, unlimited unless positive; `epoch` tags the frames. */
  datatype Sending = Sending(payload: string, attempts: nat, limit: int, epoch: nat)

  datatype Sender = Sender(me: Addr, peer: Addr, bit: Bit, job: Option<Sending>, table: Table)

  datatype SendResult = SendResult(snd: Sender, out: seq<Datagram>)

  function Outgoing(s: Sender): Datagram
    requires s.job.Some?
  {
    Datagram(s.peer, Frame(s.me, MESSAGE, s.bit, s.job.value.payload, s.job.value.epoch))
  }

  function AckAck(s: Sender): Datagram
    requires s.job.Some?
  {
    Datagram(s.peer, Frame(s.me, ACK_ACK, s.bit, "", s.job.value.epoch))
  }

  /** The acknowledgement came: it is acknowledged three times and the bit flips. */
  function Acknowledged(s: Sender): SendResult
    requires s.job.Some?
  {
    SendResult(s.(bit := PeerBits.Other(s.bit), job := None), [AckAck(s), AckAck(s), AckAck(s)])
  }

  /** Sends the message and looks for its acknowledgement among the parked frames. */
  function Transmit(s: Sender): SendResult
    requires s.job.Some?
  {
    var (u, e) := TakeFrame(s.table, s.peer, ACK, s.bit);
    var s' := s.(table := u);
    if e.Some? then SendResult(Acknowledged(s').snd, [Outgoing(s)] + Acknowledged(s').out)
    else SendResult(s', [Outgoing(s)])
  }

  function StartSend(s: Sender, payload: string, limit: int, epoch: nat): SendResult {
    var purged := DropPeer(DropPeer(s.table, s.peer, ACK), s.peer, ACK_ACK);
    Transmit(s.(job := Some(Sending(payload, 0, limit, epoch)), table := purged))
  }

  /** No acknowledgement in time: gives up at the limit, without flipping the bit; else sends again. */
  function SendTimeout(s: Sender): SendResult
    requires s.job.Some?
  {
    var j := s.job.value;
    var n := j.attempts + 1;
    if j.limit > 0 && n >= j.limit then SendResult(s.(job := None), [])
    else Transmit(s.(job := Some(j.(attempts := n))))
  }

  function SendHears(s: Sender, f: Frame): SendResult
    requires s.job.Some?
  {
    var h := Hear(s.table, f, s.me, s.peer, ACK, s.bit);
    var s' := s.(table := h.table);
    if h.matched then Acknowledged(s') else SendResult(s', h.out)
  }

  // --------------------------------------------------------------- the receiver

  /** Replying to a message in hand, or about to make the read whose result is thrown away. */
  datatype Mode = Idle | Replying(message: Frame, expected: bool, attempts: nat) | Discarding

  datatype Receiver = Receiver(me: Addr, bit: Bit, mode: Mode, table: Table)

  datatype Receipt = Receipt(rcv: Receiver, out: seq<Datagram>, delivered: Option<string>)

  /** The reply is over: an expected message flips the bit and is delivered. */
  function Finish(r: Receiver): Receipt
    requires r.mode.Replying?
  {
    if r.mode.expected
    then Receipt(r.(bit := PeerBits.Other(r.bit), mode := Idle), [], Some(r.mode.message.data))
    else Receipt(r.(mode := Discarding), [], None)
  }

  /** Sends the ACK and looks for the ACK_ACK among the parked frames. */
  function Reply(r: Receiver): Receipt
    requires r.mode.Replying?
  {
    var m := r.mode.message;
    var (u, e) := TakeFrame(r.table, m.addr, ACK_ACK, m.bit);
    var r' := r.(table := u);
    if e.Some? then Finish(r').(out := [AckFor(m, r.me)]) else Receipt(r', [AckFor(m, r.me)], None)
  }

  function Got(r: Receiver, m: Frame): Receipt {
    Reply(r.(mode := Replying(m, m.bit == r.bit, 0)))
  }

  function ReplyTimeout(r: Receiver): Receipt
    requires r.mode.Replying?
  {
    var n := r.mode.attempts + 1;
    var r' := r.(mode := r.mode.(attempts := n));
    if n >= MAX_TRANSMISSION_ATTEMPTS then Finish(r') else Reply(r')
  }

  /** A frame read while waiting for an ACK_ACK, or, when idle, while waiting for an ACK of its own. */
  function ReceiverHears(r: Receiver, f: Frame): Receipt {
    match r.mode
    case Replying(m, _, _) =>
      var h := Hear(r.table, f, r.me, m.addr, ACK_ACK, m.bit);
      var r' := r.(table := h.table);
      if h.matched then Finish(r') else Receipt(r', h.out, None)
    case _ =>
      var h := Hear(r.table, f, r.me, f.addr, ACK, f.bit);
      Receipt(r.(table := h.table), h.out, None)
  }

  /** What becomes of a message the receiver took: a reply, or nothing when it is the discarded read. */
  function Taken(r: Receiver, m: Frame): Receipt {
    if r.mode.Discarding? then Receipt(r.(mode := Idle), [], None) else Got(r, m)
  }

  /** The non-blocking read for a message: a parked one first, else the frame at the socket, if any. */
  function Poll(r: Receiver, head: Option<Frame>): Receipt {
    var (u, e) := TakeMessage(r.table);
    if e.Some? then Taken(r.(table := u), e.value)
    else match head
      case None => Receipt(r.(mode := Idle), [], None)
      case Some(f) =>
        if f.kind.MESSAGE? then Taken(r, f)
        else Receipt(r.(table := Store(r.table, f).0), [], None)
  }
}
