/** One pass of a node's event loop, in the order the program runs its steps. */
module EventLoop {
  import opened Base
  import opened NodeModel
  import opened NodeLaws
  import opened RingNodeClass

  /** A unicast message taken from the transport; `sent` tells whether the acknowledgement of an
      accept was confirmed in time. */
  datatype Incoming = Incoming(msg: Msg, sent: bool)

  /** What one pass of the loop finds: the time before the sleep and after it, and the input that has arrived. */
  datatype Input = Input(before: int, now: int, unicast: seq<Incoming>, broadcast: Option<Msg>, ip: nat,
    cli: Option<Token>)

  /** The unicast types and the broadcast types are those the two dispatchers know. */
  predicate IsUnicast(m: Msg) { m.TokenMsg? || m.JoinAccept? || m.JoinAck? || m.JoinAckAck? }

  predicate IsBroadcast(m: Msg) { m.JoinRequest? || m.JoinCommit? }

  predicate InputOk(x: Input) {
    && (forall i | 0 <= i < |x.unicast| :: IsUnicast(x.unicast[i].msg))
    && (x.broadcast.Some? ==> IsBroadcast(x.broadcast.value))
  }

  function Arrival(u: Incoming, now: int): Event { OnMessage(u.msg, u.sent, 0, now) }

  /** Each message is followed by a look whether the join under way is complete. */
  function Arrivals(us: seq<Incoming>, now: int): seq<Event> {
    if us == [] then [] else Arrivals(us[..|us| - 1], now) + [Arrival(us[|us| - 1], now), OnMaybeComplete]
  }

  lemma ArrivalsOneMore(us: seq<Incoming>, i: nat, now: int)
    requires i < |us|
    ensures Arrivals(us[..i + 1], now) == Arrivals(us[..i], now) + [Arrival(us[i], now), OnMaybeComplete]
  {
    assert us[..i + 1][..i] == us[..i];
  }

  /** The steps up to the input, on either side of the sleep. */
  function TimerEvents(before: int, now: int): seq<Event> {
    [OnAckTimer(before), OnPruneTimer(before), OnRequestTimer(now)]
  }

  function Others(x: Input): seq<Event> {
    (if x.broadcast.Some? then [OnMessage(x.broadcast.value, false, x.ip, x.now)] else [])
    + (if x.cli.Some? then [OnCliInput(x.cli.value)] else [])
  }

  function Rest(x: Input): seq<Event> { [OnMaybeComplete] + Others(x) }

  function WithoutToken(x: Input): seq<Event> {
    [OnInflightTimer(x.now)] + (Arrivals(x.unicast, x.now) + Rest(x))
  }

  function InputEvents(x: Input): seq<Event> { WithoutToken(x) + [OnUseToken(x.now)] }

  /** `es` is a pass: cut short when the join requests are used up, and ended by the return of the
      token's send when the token was forwarded. */
  ghost predicate IsPass(nd: Node, x: Input, es: seq<Event>, stopped: bool) {
    if stopped then es == TimerEvents(x.before, x.now)
    else
      var all := TimerEvents(x.before, x.now) + InputEvents(x);
      es == if ReactAll(nd, all).sending then all + [OnSendReturns] else all
  }

  lemma {:induction false} ReactOneMore(nd: Node, es: seq<Event>, e: Event)
    ensures ReactAll(nd, es + [e]) == React(ReactAll(nd, es), e)
    decreases |es|
  {
    if es == [] {
      assert ([] + [e])[1..] == [];
    } else {
      assert (es + [e])[1..] == es[1..] + [e];
      ReactOneMore(React(nd, es[0]), es[1..], e);
    }
  }

  lemma {:induction false} ScheduledOneMore(nd: Node, es: seq<Event>, e: Event)
    requires Schedulable(nd, es) && (e.OnSendReturns? <==> ReactAll(nd, es).sending)
    ensures Schedulable(nd, es + [e])
    decreases |es|
  {
    if es != [] {
      assert (es + [e])[1..] == es[1..] + [e];
      ScheduledOneMore(React(nd, es[0]), es[1..], e);
    }
  }

  /** Only using the token starts a send. */
  lemma OnlyUseTokenSends(nd: Node, e: Event)
    requires !nd.sending && !e.OnUseToken?
    ensures !React(nd, e).sending
  {
    if e.OnMessage? { NoMessageSends(nd, e.m, e.sent, e.ip, e.now); }
  }

  lemma NoMessageSends(nd: Node, m: Msg, sent: bool, ip: nat, now: int)
    requires !nd.sending
    ensures !ReactToMessage(nd, m, sent, ip, now).sending
  {
    match m
    case JoinAck(_, _) => NoAckSends(nd, m);
    case JoinCommit(_, _, _) => NoCommitSends(nd, m);
    case _ =>
  }

  lemma NoAckSends(nd: Node, m: Msg)
    requires !nd.sending && m.JoinAck?
    ensures !HandleAck(nd, m).0.sending
  {
  }

  lemma NoCommitSends(nd: Node, m: Msg)
    requires !nd.sending && m.JoinCommit?
    ensures !HandleCommit(nd, m).sending
  {
  }

  /** The packets a node sends on an event. */
  function Emits(nd: Node, e: Event): seq<Packet> {
    match e
    case OnRequestTimer(now) => RequestTick(nd, now).1
    case OnMessage(m, sent, _, now) => MessageEmits(nd, m, sent, now)
    case OnMaybeComplete => TryComplete(nd).1
    case OnInflightTimer(now) => InflightTick(nd, now).1
    case OnAckTimer(now) => AckSenderTick(nd, now).1
    case OnUseToken(now) => HandleToken(nd, now).1
    case _ => []
  }

  function MessageEmits(nd: Node, m: Msg, sent: bool, now: int): seq<Packet> {
    match m
    case JoinAccept(_, _, _, _) => HandleAccept(nd, m, sent, now).1
    case JoinAck(_, _) => HandleAck(nd, m).1
    case _ => []
  }

  function EmitsAll(nd: Node, es: seq<Event>): seq<Packet>
    decreases |es|
  {
    if es == [] then [] else Emits(nd, es[0]) + EmitsAll(React(nd, es[0]), es[1..])
  }

  lemma {:induction false} EmitsOneMore(nd: Node, es: seq<Event>, e: Event)
    ensures EmitsAll(nd, es + [e]) == EmitsAll(nd, es) + Emits(ReactAll(nd, es), e)
    decreases |es|
  {
    if es == [] {
      assert ([] + [e])[1..] == [];
    } else {
      assert (es + [e])[1..] == es[1..] + [e];
      EmitsOneMore(React(nd, es[0]), es[1..], e);
    }
  }

  /** The events of a pass so far, the node they have led to, and all that it has sent on the way. */
  ghost predicate Reached(was: Node, es: seq<Event>, nd: Node, out: seq<Packet>) {
    Schedulable(was, es) && ReactAll(was, es) == nd && EmitsAll(was, es) == out
  }

  lemma Reaches(was: Node, es: seq<Event>, nd: Node, out: seq<Packet>, e: Event)
    requires Reached(was, es, nd, out) && (e.OnSendReturns? <==> nd.sending)
    ensures Reached(was, es + [e], React(nd, e), out + Emits(nd, e))
  {
    ReactOneMore(was, es, e);
    ScheduledOneMore(was, es, e);
    EmitsOneMore(was, es, e);
  }

  lemma Grouped<T>(a: seq<T>, b: seq<T>, c: seq<T>)
    ensures a + b + c == a + (b + c)
  {
  }

  method Dispatch(node: RingNode, m: Msg, sent: bool, ip: nat, now: int) returns (out: seq<Packet>)
    requires node.Valid()
    modifies node, node.joins, node.joins.joins, node.joins.completed
    ensures node.Valid() && node.Snapshot() == ReactToMessage(old(node.Snapshot()), m, sent, ip, now)
    ensures out == MessageEmits(old(node.Snapshot()), m, sent, now)
  {
    out := [];
    match m
    case TokenMsg(t) => node.OnToken(t);
    case JoinAccept(_, _, _, _) => out := node.OnAccept(m, sent, now);
    case JoinAck(id, from) => out := node.OnAck(id, from);
    case JoinAckAck(id, to) => node.OnAckAck(id, to);
    case JoinRequest(r) => node.OnRequest(r, ip, now);
    case JoinCommit(_, _, _) => node.OnCommit(m);
  }

  /** A join request is due, and all tries are used up. */
  predicate AskedOut(nd: Node, now: int) {
    && !nd.joined && nd.request.retries >= JOIN_REQUEST_RETRIES
    && (nd.request.lastSent == 0 || now - nd.request.lastSent >= JOIN_REQUEST_TIMEOUT_S)
  }

  /** The steps of the timers that come before the input; not `ok` when the join requests are used up. */
  method RunTimers(node: RingNode, before: int, now: int) returns (out: seq<Packet>, ok: bool)
    requires node.Valid() && !node.sending
    modifies node, node.joins, node.joins.joins, node.joins.completed
    ensures node.Valid() && !node.sending
    ensures Reached(old(node.Snapshot()), TimerEvents(before, now), node.Snapshot(), out)
    ensures ok <==> !AskedOut(old(node.Snapshot()), now)
  {
    ghost var was := node.Snapshot();
    var e1, e2, e3 := OnAckTimer(before), OnPruneTimer(before), OnRequestTimer(now);
    Reaches(was, [], was, [], e1);
    OnlyUseTokenSends(was, e1);
    out := node.OnAckTimer(before);
    assert [] + [e1] == [e1] && [] + out == out;
    Reaches(was, [e1], node.Snapshot(), out, e2);
    node.OnPruneTimer(before);
    assert [e1] + [e2] == [e1, e2] && out + [] == out;
    Reaches(was, [e1, e2], node.Snapshot(), out, e3);
    assert [e1, e2] + [e3] == TimerEvents(before, now);
    var o;
    o, ok := node.OnRequestTimer(now);
    out := out + o;
  }

  /** Takes the messages off the transport one by one; `sent` is what the pass has sent before. */
  method RunArrivals(node: RingNode, us: seq<Incoming>, now: int, ghost was: Node, ghost es: seq<Event>,
    ghost sent: seq<Packet>)
    returns (out: seq<Packet>)
    requires node.Valid() && !node.sending && Reached(was, es, node.Snapshot(), sent)
    requires forall i | 0 <= i < |us| :: IsUnicast(us[i].msg)
    modifies node, node.joins, node.joins.joins, node.joins.completed
    ensures node.Valid() && !node.sending && Reached(was, es + Arrivals(us, now), node.Snapshot(), sent + out)
  {
    out := [];
    assert es + [] == es && sent + [] == sent;
    for i := 0 to |us|
      invariant node.Valid() && !node.sending
      invariant Reached(was, es + Arrivals(us[..i], now), node.Snapshot(), sent + out)
    {
      ghost var before := es + Arrivals(us[..i], now);
      var o := RunArrival(node, us[i], now, was, before, sent + out);
      Grouped(sent, out, o);
      out := out + o;
      ArrivalsOneMore(us, i, now);
      Grouped(es, Arrivals(us[..i], now), [Arrival(us[i], now), OnMaybeComplete]);
    }
    assert us[..|us|] == us;
  }

  method Hear(node: RingNode, m: Msg, confirmed: bool, ip: nat, now: int, ghost was: Node, ghost es: seq<Event>,
              ghost sent: seq<Packet>)
    returns (out: seq<Packet>)
    requires node.Valid() && !node.sending && Reached(was, es, node.Snapshot(), sent)
    modifies node, node.joins, node.joins.joins, node.joins.completed
    ensures node.Valid() && !node.sending
    ensures Reached(was, es + [OnMessage(m, confirmed, ip, now)], node.Snapshot(), sent + out)
  {
    ghost var e := OnMessage(m, confirmed, ip, now);
    Reaches(was, es, node.Snapshot(), sent, e);
    OnlyUseTokenSends(node.Snapshot(), e);
    out := Dispatch(node, m, confirmed, ip, now);
  }

  method RunArrival(node: RingNode, u: Incoming, now: int, ghost was: Node, ghost es: seq<Event>,
    ghost sent: seq<Packet>)
    returns (out: seq<Packet>)
    requires node.Valid() && !node.sending && Reached(was, es, node.Snapshot(), sent) && IsUnicast(u.msg)
    modifies node, node.joins, node.joins.joins, node.joins.completed
    ensures node.Valid() && !node.sending
    ensures Reached(was, es + [Arrival(u, now), OnMaybeComplete], node.Snapshot(), sent + out)
  {
    out := Hear(node, u.msg, u.sent, 0, now, was, es, sent);
    var o := LookComplete(node, was, es + [Arrival(u, now)], sent + out);
    Grouped(sent, out, o);
    out := out + o;
    assert es + [Arrival(u, now)] + [OnMaybeComplete] == es + [Arrival(u, now), OnMaybeComplete];
  }

  /** Looks whether the join under way is complete. */
  method LookComplete(node: RingNode, ghost was: Node, ghost es: seq<Event>, ghost sent: seq<Packet>)
    returns (out: seq<Packet>)
    requires node.Valid() && !node.sending && Reached(was, es, node.Snapshot(), sent)
    modifies node, node.joins, node.joins.joins, node.joins.completed
    ensures node.Valid() && !node.sending && Reached(was, es + [OnMaybeComplete], node.Snapshot(), sent + out)
  {
    Reaches(was, es, node.Snapshot(), sent, OnMaybeComplete);
    OnlyUseTokenSends(node.Snapshot(), OnMaybeComplete);
    out := node.MaybeComplete();
  }

  /** Uses the token if it is here; a send that this starts returns before the pass ends. */
  method RunToken(node: RingNode, now: int, ghost was: Node, ghost es: seq<Event>, ghost sent: seq<Packet>)
    returns (out: seq<Packet>)
    requires node.Valid() && !node.sending && Reached(was, es, node.Snapshot(), sent)
    modifies node, node.joins, node.joins.joins, node.joins.completed
    ensures node.Valid() && !node.sending
    ensures var all := es + [OnUseToken(now)];
      Reached(was, if ReactAll(was, all).sending then all + [OnSendReturns] else all, node.Snapshot(), sent + out)
  {
    Reaches(was, es, node.Snapshot(), sent, OnUseToken(now));
    out := node.HandleTokenIfReady(now);
    if node.sending {
      Reaches(was, es + [OnUseToken(now)], node.Snapshot(), sent + out, OnSendReturns);
      assert sent + out + [] == sent + out;
      node.SendReturned();
    }
  }

  /** A pass takes the node through exactly the steps of `es`, in the order of the event loop, and sends
      exactly what they send. */
  method Pass(node: RingNode, x: Input) returns (out: seq<Packet>, stopped: bool, ghost es: seq<Event>)
    requires node.Valid() && InputOk(x) && !node.sending
    modifies node, node.joins, node.joins.joins, node.joins.completed
    ensures node.Valid() && !node.sending
    ensures stopped <==> AskedOut(old(node.Snapshot()), x.now)
    ensures Reached(old(node.Snapshot()), es, node.Snapshot(), out)
    ensures IsPass(old(node.Snapshot()), x, es, stopped)
  {
    ghost var was := node.Snapshot();
    var o, ok := RunTimers(node, x.before, x.now);
    out, stopped, es := o, !ok, TimerEvents(x.before, x.now);
    if stopped { return; }
    o := RunInput(node, x, was, es, out);
    out, es := out + o, es + WithoutToken(x);
    o := RunToken(node, x.now, was, es, out);
    out, es := out + o, es + [OnUseToken(x.now)];
    assert es == TimerEvents(x.before, x.now) + InputEvents(x);
    if ReactAll(was, es).sending { es := es + [OnSendReturns]; }
  }

  method TickInflight(node: RingNode, now: int, ghost was: Node, ghost es: seq<Event>, ghost sent: seq<Packet>)
    returns (out: seq<Packet>)
    requires node.Valid() && !node.sending && Reached(was, es, node.Snapshot(), sent)
    modifies node, node.joins, node.joins.joins, node.joins.completed
    ensures node.Valid() && !node.sending && Reached(was, es + [OnInflightTimer(now)], node.Snapshot(), sent + out)
  {
    Reaches(was, es, node.Snapshot(), sent, OnInflightTimer(now));
    OnlyUseTokenSends(node.Snapshot(), OnInflightTimer(now));
    out := node.OnInflightTimer(now);
  }

  method RunInput(node: RingNode, x: Input, ghost was: Node, ghost es: seq<Event>, ghost sent: seq<Packet>)
    returns (out: seq<Packet>)
    requires node.Valid() && !node.sending && InputOk(x) && Reached(was, es, node.Snapshot(), sent)
    modifies node, node.joins, node.joins.joins, node.joins.completed
    ensures node.Valid() && !node.sending && Reached(was, es + WithoutToken(x), node.Snapshot(), sent + out)
  {
    out := TickInflight(node, x.now, was, es, sent);
    ghost var es1 := es + [OnInflightTimer(x.now)];
    var o := RunMessages(node, x, was, es1, sent + out);
    Grouped(sent, out, o);
    out := out + o;
    Grouped(es, [OnInflightTimer(x.now)], Arrivals(x.unicast, x.now) + Rest(x));
  }

  method RunMessages(node: RingNode, x: Input, ghost was: Node, ghost es: seq<Event>, ghost sent: seq<Packet>)
    returns (out: seq<Packet>)
    requires node.Valid() && !node.sending && InputOk(x) && Reached(was, es, node.Snapshot(), sent)
    modifies node, node.joins, node.joins.joins, node.joins.completed
    ensures node.Valid() && !node.sending
    ensures Reached(was, es + (Arrivals(x.unicast, x.now) + Rest(x)), node.Snapshot(), sent + out)
  {
    out := RunArrivals(node, x.unicast, x.now, was, es, sent);
    ghost var es1 := es + Arrivals(x.unicast, x.now);
    var o := RunRest(node, x, was, es1, sent + out);
    Grouped(sent, out, o);
    out := out + o;
    Grouped(es, Arrivals(x.unicast, x.now), Rest(x));
  }

  method RunRest(node: RingNode, x: Input, ghost was: Node, ghost es: seq<Event>, ghost sent: seq<Packet>)
    returns (out: seq<Packet>)
    requires node.Valid() && !node.sending && InputOk(x) && Reached(was, es, node.Snapshot(), sent)
    modifies node, node.joins, node.joins.joins, node.joins.completed
    ensures node.Valid() && !node.sending
    ensures Reached(was, es + Rest(x), node.Snapshot(), sent + out)
  {
    out := LookComplete(node, was, es, sent);
    var o := RunOtherInput(node, x, was, es + [OnMaybeComplete], sent + out);
    Grouped(sent, out, o);
    out := out + o;
    Grouped(es, [OnMaybeComplete], Others(x));
  }

  method RunOtherInput(node: RingNode, x: Input, ghost was: Node, ghost es: seq<Event>, ghost sent: seq<Packet>)
    returns (out: seq<Packet>)
    requires node.Valid() && !node.sending && InputOk(x) && Reached(was, es, node.Snapshot(), sent)
    modifies node, node.joins, node.joins.joins, node.joins.completed
    ensures node.Valid() && !node.sending && Reached(was, es + Others(x), node.Snapshot(), sent + out)
  {
    out := [];
    assert sent + [] == sent;
    ghost var es1 := es;
    if x.broadcast.Some? {
      var e := OnMessage(x.broadcast.value, false, x.ip, x.now);
      out := Hear(node, x.broadcast.value, false, x.ip, x.now, was, es, sent);
      es1 := es + [e];
    }
    if x.cli.Some? {
      Reaches(was, es1, node.Snapshot(), sent + out, OnCliInput(x.cli.value));
      assert sent + out + [] == sent + out;
      node.OnCliInput(x.cli.value);
      es1 := es1 + [OnCliInput(x.cli.value)];
    }
    assert es1 == es + Others(x);
  }

  /** So whatever arrives, a node keeps its local invariant through every pass, and once joined stays joined. */
  lemma PassKeepsLocalInv(was: Node, es: seq<Event>, nd: Node, out: seq<Packet>)
    requires LocalInv(was) && Reached(was, es, nd, out)
    ensures LocalInv(nd) && (was.joined ==> nd.joined)
  {
    LocalInvAlways(was, es);
  }
}
