/** Two peers, one direction, over channels that keep order but lose and repeat datagrams. */
module Transport {
  import opened Base
  import opened ParkedFrames
  import opened Rudp
  import PeerBits

  /** `epochs`, `accepted` and `delivered` are history: the payloads sent under each value of the
      sender's bit, the number of epochs acknowledged so far, and what the receiver handed over. */
  datatype State = State(
    snd: Sender,
    rcv: Receiver,
    data: seq<Datagram>,
    acks: seq<Datagram>,
    epochs: seq<seq<string>>,
    accepted: nat,
    delivered: seq<string>)

  /** `TryReceive` reads what has come first; `FindNothing` is a read before anything on the way has come. */
  datatype Label =
    | Begin(payload: string, limit: int)
    | SendTick
    | SendRead
    | TryReceive
    | FindNothing
    | Wait
    | ReplyTick
    | LoseData(i: nat)
    | RepeatData(i: nat)
    | LoseAck(i: nat)
    | RepeatAck(i: nat)

  function Lost(c: seq<Datagram>, i: nat): (r: seq<Datagram>)
    requires i < |c|
    ensures |r| == |c| - 1
    ensures forall j | 0 <= j < |r| :: r[j] == if j < i then c[j] else c[j + 1]
  {
    c[..i] + c[i + 1..]
  }

  function Repeated(c: seq<Datagram>, i: nat): (r: seq<Datagram>)
    requires i < |c|
    ensures |r| == |c| + 1
    ensures forall j | 0 <= j < |r| :: r[j] == if j <= i then c[j] else c[j - 1]
  {
    c[..i] + c[i..i + 1] + c[i..]
  }

  predicate Enabled(s: State, l: Label) {
    match l
    case Begin(_, _) => s.snd.job.None? && s.epochs != []
    case SendTick => s.snd.job.Some?
    case SendRead => s.acks != []
    case TryReceive => !s.rcv.mode.Replying?
    case FindNothing => !s.rcv.mode.Replying? && !HasPending(s.rcv.table)
    case Wait => s.data != [] && !s.rcv.mode.Discarding?
    case ReplyTick => s.rcv.mode.Replying?
    case LoseData(i) => i < |s.data|
    case RepeatData(i) => i < |s.data|
    case LoseAck(i) => i < |s.acks|
    case RepeatAck(i) => i < |s.acks|
  }

  function AfterSend(s: State, r: SendResult): State {
    s.(snd := r.snd, data := s.data + r.out,
       epochs := if r.snd.bit != s.snd.bit then s.epochs + [[]] else s.epochs)
  }

  /** Every acknowledgement is sent with the acceptance of the message it names. */
  function Accepted(accepted: nat, out: seq<Datagram>): nat {
    if out != [] && out[0].frame.epoch >= accepted then out[0].frame.epoch + 1 else accepted
  }

  function AfterReceive(s: State, r: Receipt): State {
    s.(rcv := r.rcv, acks := s.acks + r.out, accepted := Accepted(s.accepted, r.out),
       delivered := if r.delivered.Some? then s.delivered + [r.delivered.value] else s.delivered)
  }

  function Head(c: seq<Datagram>): Option<Frame> {
    if c == [] then None else Some(c[0].frame)
  }

  /** The receiver reads the socket only when no message is parked. */
  function AfterPoll(s: State): State {
    var rest := if s.data == [] || HasPending(s.rcv.table) then s.data else s.data[1..];
    AfterReceive(s.(data := rest), Poll(s.rcv, Head(s.data)))
  }

  function AfterSendRead(s: State): State
    requires s.acks != []
  {
    var f, s' := s.acks[0].frame, s.(acks := s.acks[1..]);
    if s.snd.job.Some? then AfterSend(s', SendHears(s.snd, f))
    else if f.kind.MESSAGE? then s'
    else s'.(snd := s.snd.(table := Store(s.snd.table, f).0))
  }

  function Apply(s: State, l: Label): State
    requires Enabled(s, l)
  {
    match l
    case Begin(payload, limit) =>
      var k := |s.epochs| - 1;
      AfterSend(s.(epochs := s.epochs[k := s.epochs[k] + [payload]]), StartSend(s.snd, payload, limit, k))
    case SendTick => AfterSend(s, SendTimeout(s.snd))
    case SendRead => AfterSendRead(s)
    case TryReceive => AfterPoll(s)
    case FindNothing => AfterReceive(s, Poll(s.rcv, None))
    case Wait => AfterReceive(s.(data := s.data[1..]), ReceiverHears(s.rcv, s.data[0].frame))
    case ReplyTick => AfterReceive(s, ReplyTimeout(s.rcv))
    case LoseData(i) => s.(data := Lost(s.data, i))
    case RepeatData(i) => s.(data := Repeated(s.data, i))
    case LoseAck(i) => s.(acks := Lost(s.acks, i))
    case RepeatAck(i) => s.(acks := Repeated(s.acks, i))
  }

  /** Not a copy of something acknowledged before. */
  predicate IsFresh(s: State, f: Frame) { f.kind.MESSAGE? && f.epoch >= s.accepted }

  /** A fresh message read while the receiver waits for something else is parked and acknowledged
      only when no reply is under way and no message is parked already. */
  predicate Orderly(s: State, l: Label) {
    (l.Wait? && s.data != [] && IsFresh(s, s.data[0].frame) && Store(s.rcv.table, s.data[0].frame).1)
    ==> s.rcv.mode.Idle? && !HasPending(s.rcv.table)
  }

  function EmptyTable(): Table { seq(MAX_RUDP_PENDING, _ => None) }

  function Initial(a: Addr, b: Addr): State {
    State(Sender(a, b, 0, None, EmptyTable()), Receiver(b, 0, Idle, EmptyTable()), [], [], [[]], 0, [])
  }

  ghost predicate IsRun(s: State, ls: seq<Label>, t: State)
    decreases |ls|
  {
    if ls == [] then t == s else Enabled(s, ls[0]) && IsRun(Apply(s, ls[0]), ls[1..], t)
  }

  ghost predicate OrderlyRun(s: State, ls: seq<Label>)
    decreases |ls|
  {
    ls == [] || (Enabled(s, ls[0]) && Orderly(s, ls[0]) && OrderlyRun(Apply(s, ls[0]), ls[1..]))
  }

  // ---------------------------------------------------------------- the invariant

  function Parity(n: nat): Bit {
    if n == 0 then 0 else PeerBits.Other(Parity(n - 1))
  }

  /** The sender's bit counts epochs, the receiver's bit counts deliveries; neither runs ahead. */
  ghost predicate Rhythm(s: State) {
    && s.epochs != []
    && s.snd.bit == Parity(|s.epochs| - 1)
    && s.rcv.bit == Parity(|s.delivered|)
    && |s.epochs| - 1 <= s.accepted <= |s.epochs|
    && |s.delivered| <= s.accepted <= |s.delivered| + 1
  }

  ghost predicate Sorted(c: seq<Datagram>) {
    forall i, j | 0 <= i < j < |c| :: c[i].frame.epoch <= c[j].frame.epoch
  }

  ghost predicate Carried(f: Frame, a: Addr, epochs: seq<seq<string>>) {
    f.addr == a && f.bit == Parity(f.epoch) && f.epoch < |epochs| && (f.kind.MESSAGE? ==> f.data in epochs[f.epoch])
  }

  /** Nothing on the way to the receiver is older than the last accepted epoch. */
  ghost predicate DataOk(data: seq<Datagram>, a: Addr, b: Addr, accepted: nat, epochs: seq<seq<string>>) {
    && Sorted(data)
    && forall i | 0 <= i < |data| ::
        data[i].to == b && !data[i].frame.kind.ACK? && accepted <= data[i].frame.epoch + 1 &&
          Carried(data[i].frame, a, epochs)
  }

  /** A copy of the message accepted last. */
  ghost predicate IsCopy(f: Frame, a: Addr, accepted: nat, epochs: seq<seq<string>>) {
    f.kind.MESSAGE? && f.epoch + 1 == accepted && Carried(f, a, epochs)
  }

  ghost predicate ParkedOk(t: Table, a: Addr, accepted: nat, epochs: seq<seq<string>>) {
    forall i | 0 <= i < |t| && IsMessage(t[i]) :: IsCopy(t[i].value, a, accepted, epochs)
  }

  ghost predicate AckOk(d: Datagram, a: Addr, b: Addr, accepted: nat, open: int) {
    && d.to == a && d.frame.addr == b && d.frame.kind.ACK?
    && d.frame.bit == Parity(d.frame.epoch) && open <= d.frame.epoch + 1 <= accepted
  }

  /** Every ACK on the way is for an accepted epoch, the open one or the one before it. */
  ghost predicate AcksOk(acks: seq<Datagram>, a: Addr, b: Addr, accepted: nat, open: int) {
    Sorted(acks) && forall i | 0 <= i < |acks| :: AckOk(acks[i], a, b, accepted, open)
  }

  /** While a send is waiting, no parked ACK could be mistaken for the one it waits for. */
  ghost predicate SenderOk(s: Sender, epochs: seq<seq<string>>) {
    s.job.Some? ==>
      && s.job.value.epoch + 1 == |epochs|
      && s.job.value.payload in epochs[s.job.value.epoch]
      && forall i | 0 <= i < |s.table| :: !Matches(s.table[i], s.peer, ACK, s.bit)
  }

  ghost predicate ModeOk(r: Receiver, a: Addr, accepted: nat, delivered: nat, epochs: seq<seq<string>>) {
    match r.mode
    case Idle => delivered == accepted || HasPending(r.table)
    case Replying(m, expected, _) =>
      IsCopy(m, a, accepted, epochs) && delivered == if expected then accepted - 1 else accepted
    case Discarding => delivered == accepted
  }

  ghost predicate InOrder(delivered: seq<string>, epochs: seq<seq<string>>) {
    |delivered| <= |epochs| && forall i | 0 <= i < |delivered| :: delivered[i] in epochs[i]
  }

  ghost predicate Inv(s: State) {
    && Rhythm(s)
    && s.snd.peer == s.rcv.me
    && DataOk(s.data, s.snd.me, s.rcv.me, s.accepted, s.epochs)
    && ParkedOk(s.rcv.table, s.snd.me, s.accepted, s.epochs)
    && AcksOk(s.acks, s.snd.me, s.rcv.me, s.accepted, |s.epochs| - 1)
    && SenderOk(s.snd, s.epochs)
    && ModeOk(s.rcv, s.snd.me, s.accepted, |s.delivered|, s.epochs)
    && InOrder(s.delivered, s.epochs)
  }
}
