/** What a pass of the event loop achieves, told from the node before and after, its input and what it sends. */
module PassLaws {
  import opened Base
  import opened JoinTable
  import opened JoinTableLaws
  import opened NodeModel
  import opened NodeLaws
  import opened EventLoop
  import opened JoinWait
  import opened NodeEffects
  import Delivery
  import RingHandlers

  /** A pass has taken the node from `was` to `nd`. */
  ghost predicate Passed(was: Node, x: Input, nd: Node, out: seq<Packet>) {
    && LocalInv(was) && !was.sending && InputOk(x)
    && exists es :: Reached(was, es, nd, out) && IsPass(was, x, es, false)
  }

  // ---------------------------------------------------------------------- parts of a pass

  lemma {:induction false} ReactsOn(nd: Node, a: seq<Event>, b: seq<Event>)
    ensures ReactAll(nd, a + b) == ReactAll(ReactAll(nd, a), b)
    decreases |a|
  {
    if a == [] {
      assert a + b == b;
    } else {
      assert (a + b)[1..] == a[1..] + b;
      ReactsOn(React(nd, a[0]), a[1..], b);
    }
  }

  lemma FirstEmits(nd: Node, es: seq<Event>, rest: seq<Event>)
    requires es != [] && rest == es[1..]
    ensures EmitsAll(nd, es) == Emits(nd, es[0]) + EmitsAll(React(nd, es[0]), rest)
    ensures ReactAll(nd, es) == ReactAll(React(nd, es[0]), rest)
  {
  }

  lemma {:induction false} EmitsOn(nd: Node, a: seq<Event>, b: seq<Event>)
    ensures EmitsAll(nd, a + b) == EmitsAll(nd, a) + EmitsAll(ReactAll(nd, a), b)
    decreases |a|
  {
    if a == [] {
      assert a + b == b;
    } else {
      var n := React(nd, a[0]);
      FirstEmits(nd, a + b, a[1..] + b);
      FirstEmits(nd, a, a[1..]);
      EmitsOn(n, a[1..], b);
      Grouped(Emits(nd, a[0]), EmitsAll(n, a[1..]), EmitsAll(ReactAll(n, a[1..]), b));
    }
  }

  /** The node as its input comes in. */
  function Ticked(was: Node, x: Input): Node {
    React(React(React(was, OnAckTimer(x.before)), OnPruneTimer(x.before)), OnRequestTimer(x.now))
  }

  function Offered(was: Node, x: Input): Node { React(Ticked(was, x), OnInflightTimer(x.now)) }

  function Heard(was: Node, x: Input): Node { ReactAll(Offered(was, x), Arrivals(x.unicast, x.now)) }

  /** The node as it looks for its token. */
  function Prepared(was: Node, x: Input): Node { ReactAll(React(Heard(was, x), OnMaybeComplete), Others(x)) }

  /** What the timers have sent by then. */
  function TimersSent(was: Node, x: Input): seq<Packet> {
    EmitsAll(was, TimerEvents(x.before, x.now)) + Emits(Ticked(was, x), OnInflightTimer(x.now))
  }

  function InputSent(was: Node, x: Input): seq<Packet> {
    EmitsAll(Offered(was, x), Arrivals(x.unicast, x.now) + Rest(x))
  }

  lemma OneEvent(nd: Node, e: Event)
    ensures ReactAll(nd, [e]) == React(nd, e) && EmitsAll(nd, [e]) == Emits(nd, e)
  {
    assert [e][1..] == [];
  }

  lemma MoreEvents(nd: Node, e: Event, es: seq<Event>)
    ensures ReactAll(nd, [e] + es) == ReactAll(React(nd, e), es)
    ensures EmitsAll(nd, [e] + es) == Emits(nd, e) + EmitsAll(React(nd, e), es)
  {
    assert ([e] + es)[1..] == es;
  }

  lemma TimersAre(was: Node, x: Input)
    ensures ReactAll(was, TimerEvents(x.before, x.now)) == Ticked(was, x)
    ensures EmitsAll(was, TimerEvents(x.before, x.now)) ==
      AckSenderTick(was, x.before).1
      + RequestTick(React(React(was, OnAckTimer(x.before)), OnPruneTimer(x.before)), x.now).1
  {
    var e1, e2, e3 := OnAckTimer(x.before), OnPruneTimer(x.before), OnRequestTimer(x.now);
    assert TimerEvents(x.before, x.now) == [e1] + ([e2] + [e3]);
    MoreEvents(was, e1, [e2] + [e3]);
    MoreEvents(React(was, e1), e2, [e3]);
    OneEvent(React(React(was, e1), e2), e3);
    assert [] + Emits(React(React(was, e1), e2), e3) == Emits(React(React(was, e1), e2), e3);
  }

  lemma InputIs(was: Node, x: Input)
    ensures ReactAll(Ticked(was, x), WithoutToken(x)) == Prepared(was, x)
    ensures EmitsAll(Ticked(was, x), WithoutToken(x)) ==
      Emits(Ticked(was, x), OnInflightTimer(x.now)) + InputSent(was, x)
  {
    MoreEvents(Ticked(was, x), OnInflightTimer(x.now), Arrivals(x.unicast, x.now) + Rest(x));
    ReactsOn(Offered(was, x), Arrivals(x.unicast, x.now), Rest(x));
    MoreEvents(Heard(was, x), OnMaybeComplete, Others(x));
  }

  /** All events of a pass up to the use of the token. */
  function Before(x: Input): seq<Event> { TimerEvents(x.before, x.now) + WithoutToken(x) }

  lemma BeforeIs(was: Node, x: Input)
    ensures ReactAll(was, Before(x)) == Prepared(was, x)
    ensures EmitsAll(was, Before(x)) == TimersSent(was, x) + InputSent(was, x)
  {
    var ts, us := TimerEvents(x.before, x.now), WithoutToken(x);
    ReactsOn(was, ts, us);
    EmitsOn(was, ts, us);
    TimersAre(was, x);
    InputIs(was, x);
    Grouped(EmitsAll(was, ts), Emits(Ticked(was, x), OnInflightTimer(x.now)), InputSent(was, x));
  }

  lemma TokenIs(was: Node, x: Input)
    ensures var all, (n, o) := Before(x) + [OnUseToken(x.now)], HandleToken(Prepared(was, x), x.now);
      && ReactAll(was, all) == n && EmitsAll(was, all) == TimersSent(was, x) + InputSent(was, x) + o
  {
    var t := OnUseToken(x.now);
    BeforeIs(was, x);
    ReactsOn(was, Before(x), [t]);
    EmitsOn(was, Before(x), [t]);
    OneEvent(Prepared(was, x), t);
  }

  lemma ReturnIs(was: Node, all: seq<Event>)
    ensures ReactAll(was, all + [OnSendReturns]) == EndForward(ReactAll(was, all))
    ensures EmitsAll(was, all + [OnSendReturns]) == EmitsAll(was, all)
  {
    ReactsOn(was, all, [OnSendReturns]);
    EmitsOn(was, all, [OnSendReturns]);
    OneEvent(ReactAll(was, all), OnSendReturns);
    assert EmitsAll(was, all) + [] == EmitsAll(was, all);
  }

  /** A pass is timers, input, and the use of the token, and what each of them sends. */
  lemma PassIs(was: Node, x: Input, nd: Node, out: seq<Packet>)
    requires Passed(was, x, nd, out)
    ensures var (n, o) := HandleToken(Prepared(was, x), x.now);
      && nd == (if n.sending then EndForward(n) else n) && out == TimersSent(was, x) + InputSent(was, x) + o
  {
    var es :| Reached(was, es, nd, out) && IsPass(was, x, es, false);
    Grouped(TimerEvents(x.before, x.now), WithoutToken(x), [OnUseToken(x.now)]);
    TokenIs(was, x);
    ReturnIs(was, Before(x) + [OnUseToken(x.now)]);
  }

  // --------------------------------------------------------------------- what the timers do

  /** The timers in front of the input touch neither the join under way nor the routes. */
  lemma TickedKeeps(was: Node, x: Input)
    ensures var n := Ticked(was, x);
      && n.current == was.current && n.prev == was.prev && n.next == was.next && n.inflight == was.inflight
      && n.joined == was.joined && n.haveToken == was.haveToken && n.tokenIn == was.tokenIn && n.sending == was.sending
  {
    var n1 := React(was, OnAckTimer(x.before));
    AcksWhenDue(was, x.before);
    PruneForgets(n1, x.before);
    AsksWhenDue(React(n1, OnPruneTimer(x.before)), x.now);
  }

  /** A join that waits, and was offered no less than a second ago, is offered again in the pass to whoever has
      not confirmed. */
  lemma OffersAreRepeated(was: Node, x: Input, nd: Node, out: seq<Packet>)
    requires Passed(was, x, nd, out) && was.inflight.active && !(was.inflight.gotPrev && was.inflight.gotJoiner)
    requires was.inflight.lastSent == 0 || x.now - was.inflight.lastSent >= JOIN_ACCEPT_TIMEOUT_S
    ensures var j := was.inflight.joiner;
      var offer := JoinAccept(was.inflight.requestId, Route(j.name, j.port), was.current, was.prev);
      && (!was.inflight.gotJoiner ==> Unicast(Route(j.name, j.port), offer) in out)
      && (!was.inflight.gotPrev ==> Unicast(was.prev, offer) in out)
  {
    PassIs(was, x, nd, out);
    TickedKeeps(was, x);
    OffersWhenDue(Ticked(was, x), x.now);
    var sent := Emits(Ticked(was, x), OnInflightTimer(x.now));
    assert forall p | p in sent :: p in TimersSent(was, x);
  }

  lemma TimersSentIs(was: Node, x: Input)
    ensures forall p | p in AckSenderTick(was, x.before).1 :: p in TimersSent(was, x)
    ensures forall p | p in RequestTick(React(React(was, OnAckTimer(x.before)), OnPruneTimer(x.before)), x.now).1 ::
      p in TimersSent(was, x)
  {
    TimersAre(was, x);
  }

  /** An acknowledgement not answered, with tries left, is repeated in the pass when a second has passed. */
  lemma AcksAreRepeated(was: Node, x: Input, nd: Node, out: seq<Packet>)
    requires Passed(was, x, nd, out) && Sending(was)
    requires was.ackSender.lastSent == 0 || x.before - was.ackSender.lastSent >= JOIN_ACK_RESEND_S
    ensures Unicast(was.ackSender.coord, JoinAck(was.ackSender.requestId, was.current.name)) in out
  {
    PassIs(was, x, nd, out);
    AcksWhenDue(was, x.before);
    TimersSentIs(was, x);
    var p := Unicast(was.ackSender.coord, JoinAck(was.ackSender.requestId, was.current.name));
    assert p in AckSenderTick(was, x.before).1;
  }

  /** A node that is no member asks again in the pass when ten seconds have passed. */
  lemma RequestsAreRepeated(was: Node, x: Input, nd: Node, out: seq<Packet>)
    requires Passed(was, x, nd, out) && !was.joined && was.request.retries < JOIN_REQUEST_RETRIES
    requires was.request.lastSent == 0 || x.now - was.request.lastSent >= JOIN_REQUEST_TIMEOUT_S
    ensures Broadcast(JoinRequest(Request(was.current.name, was.request.id, was.current.port))) in out
  {
    PassIs(was, x, nd, out);
    var n1 := React(was, OnAckTimer(x.before));
    AcksWhenDue(was, x.before);
    PruneForgets(n1, x.before);
    AsksWhenDue(React(n1, OnPruneTimer(x.before)), x.now);
    TimersSentIs(was, x);
    var p := Broadcast(JoinRequest(Request(was.current.name, was.request.id, was.current.port)));
    assert p in RequestTick(React(n1, OnPruneTimer(x.before)), x.now).1;
  }

  // ------------------------------------------------------------------------------ the token

  /** After a pass no token lies idle: it has gone on, unless a join is under way at its holder. */
  lemma TokenIsUsed(was: Node, x: Input, nd: Node, out: seq<Packet>)
    requires Passed(was, x, nd, out)
    ensures !TokenReady(nd)
  {
    PassIs(was, x, nd, out);
    UseLeavesNone(Prepared(was, x), x.now);
  }

  lemma UseLeavesNone(nd: Node, now: int)
    ensures var n := HandleToken(nd, now).0; !TokenReady(if n.sending then EndForward(n) else n)
  {
    if TokenReady(nd) && Used(nd.joins.joins) > 0 { var k := StartOffers(nd, now); }
    else if TokenReady(nd) { var t := ForwardSends(nd, now); }
  }

  // -------------------------------------------------------------------------------- the table

  /** No entry is older than the time to live. */
  ghost predicate Young(s: Slots, now: int) {
    forall i | 0 <= i < |s| && s[i].Some? :: now - s[i].value.lastSeen <= JOIN_PENDING_TTL_S
  }

  lemma FewerYoung(t: Slots, s: Slots, now: int)
    requires OnlyCleared(t, s) && Young(s, now)
    ensures Young(t, now)
  {
  }

  lemma MessageKeepsYoung(nd: Node, m: Msg, sent: bool, ip: nat, now: int, before: int)
    requires Young(nd.joins.joins, before) && (m.JoinRequest? ==> before <= now)
    ensures Young(ReactToMessage(nd, m, sent, ip, now).joins.joins, before)
  {
    var joins := ReactToMessage(nd, m, sent, ip, now).joins.joins;
    match m
    case TokenMsg(t) => TokenTaken(nd, t);
    case JoinAccept(_, _, _, _) => AcceptTable(nd, m, sent, now); FewerYoung(joins, nd.joins.joins, before);
    case JoinAck(id, from) => AckTable(nd, id, from); FewerYoung(joins, nd.joins.joins, before);
    case JoinAckAck(_, _) =>
    case JoinRequest(r) =>
    case JoinCommit(id, name, version) => CommitTable(nd, id, name, version); FewerYoung(joins, nd.joins.joins, before);
  }

  lemma AcceptTable(nd: Node, m: Msg, sent: bool, now: int)
    requires m.JoinAccept?
    ensures OnlyCleared(HandleAccept(nd, m, sent, now).0.joins.joins, nd.joins.joins)
  {
    OnlyClearedOps(nd.joins, m.newNode.name, m.requestId, 0, 0);
  }

  lemma CompleteTable(nd: Node)
    ensures OnlyCleared(TryComplete(nd).0.joins.joins, nd.joins.joins)
  {
    OnlyClearedOps(nd.joins, nd.inflight.joiner.name, 0, 0, 0);
  }

  lemma AckTable(nd: Node, id: nat, from: Name)
    ensures OnlyCleared(HandleAck(nd, JoinAck(id, from)).0.joins.joins, nd.joins.joins)
  {
    CompleteTable(Confirm(nd, from));
  }

  lemma CommitTable(nd: Node, id: nat, name: Name, version: nat)
    ensures OnlyCleared(HandleCommit(nd, JoinCommit(id, name, version)).joins.joins, nd.joins.joins)
  {
    CommitLearnt(nd, id, name, version);
    var nd1 := LearnCommit(nd, JoinCommit(id, name, version));
    OnlyClearedOps(nd1.joins, nd1.inflight.joiner.name, 0, 0, 0);
    CommitStopsAcks(if nd1.inflight.active && nd1.inflight.requestId == id then CompleteViaCommit(nd1) else nd1, id);
  }

  lemma UseTable(nd: Node, now: int)
    ensures OnlyCleared(HandleToken(nd, now).0.joins.joins, nd.joins.joins)
  {
    if TokenReady(nd) && Used(nd.joins.joins) > 0 { var k := StartOffers(nd, now); }
    else if TokenReady(nd) { var t := ForwardSends(nd, now); }
  }

  lemma EventKeepsYoung(nd: Node, e: Event, before: int)
    requires Young(nd.joins.joins, before) && (e.OnMessage? && e.m.JoinRequest? ==> before <= e.now)
    ensures Young(React(nd, e).joins.joins, before)
  {
    match e
    case OnMessage(m, sent, ip, now) => MessageKeepsYoung(nd, m, sent, ip, now, before);
    case OnMaybeComplete => CompleteTable(nd); FewerYoung(React(nd, e).joins.joins, nd.joins.joins, before);
    case OnInflightTimer(now) => CompleteTable(nd); FewerYoung(React(nd, e).joins.joins, nd.joins.joins, before);
    case OnPruneTimer(now) => PruneForgets(nd, now);
    case OnUseToken(now) => UseTable(nd, now); FewerYoung(React(nd, e).joins.joins, nd.joins.joins, before);
    case OnRequestTimer(now) => AsksWhenDue(nd, now);
    case OnAckTimer(now) => AcksWhenDue(nd, now);
    case OnInitialToken =>
    case OnSendReturns =>
    case OnCliInput(t) => InputWaits(nd, t);
  }

  lemma {:induction false} EventsKeepYoung(nd: Node, es: seq<Event>, before: int)
    requires Young(nd.joins.joins, before) && forall e | e in es :: e.OnMessage? && e.m.JoinRequest? ==> before <= e.now
    ensures Young(ReactAll(nd, es).joins.joins, before)
    decreases |es|
  {
    if es != [] {
      assert es[0] in es;
      EventKeepsYoung(nd, es[0], before);
      EventsKeepYoung(React(nd, es[0]), es[1..], before);
    }
  }

  lemma {:induction false} ArrivalsAt(us: seq<Incoming>, now: int)
    ensures forall e | e in Arrivals(us, now) && e.OnMessage? :: e.now == now
    decreases |us|
  {
    if us != [] { ArrivalsAt(us[..|us| - 1], now); }
  }

  lemma InputAt(x: Input)
    ensures forall e | e in WithoutToken(x) && e.OnMessage? :: e.now == x.now
  {
    ArrivalsAt(x.unicast, x.now);
  }

  lemma PrunedIsYoung(was: Node, x: Input)
    requires x.before <= x.now
    ensures Young(Ticked(was, x).joins.joins, x.before)
  {
    var n1 := React(was, OnAckTimer(x.before));
    PruneForgets(n1, x.before);
    EventKeepsYoung(React(n1, OnPruneTimer(x.before)), OnRequestTimer(x.now), x.before);
  }

  lemma PreparedIsYoung(was: Node, x: Input)
    requires x.before <= x.now
    ensures Young(Prepared(was, x).joins.joins, x.before)
  {
    PrunedIsYoung(was, x);
    InputAt(x);
    InputIs(was, x);
    EventsKeepYoung(Ticked(was, x), WithoutToken(x), x.before);
  }

  /** After a pass nothing is pending that was too old when it began. */
  lemma TableIsPruned(was: Node, x: Input, nd: Node, out: seq<Packet>)
    requires Passed(was, x, nd, out) && x.before <= x.now
    ensures Young(nd.joins.joins, x.before)
  {
    PassIs(was, x, nd, out);
    PreparedIsYoung(was, x);
    UseTable(Prepared(was, x), x.now);
    FewerYoung(nd.joins.joins, Prepared(was, x).joins.joins, x.before);
  }

  lemma EventKeepsSize(nd: Node, e: Event)
    ensures |React(nd, e).joins.joins| == |nd.joins.joins|
  {
    match e
    case OnMessage(m, sent, ip, now) => MessageKeepsSize(nd, m, sent, ip, now);
    case OnMaybeComplete => CompleteTable(nd);
    case OnInflightTimer(now) => CompleteTable(nd);
    case OnPruneTimer(now) => PruneForgets(nd, now);
    case OnUseToken(now) => UseTable(nd, now);
    case OnRequestTimer(now) => AsksWhenDue(nd, now);
    case OnAckTimer(now) => AcksWhenDue(nd, now);
    case OnInitialToken =>
    case OnSendReturns =>
    case OnCliInput(t) => InputWaits(nd, t);
  }

  lemma MessageKeepsSize(nd: Node, m: Msg, sent: bool, ip: nat, now: int)
    ensures |ReactToMessage(nd, m, sent, ip, now).joins.joins| == |nd.joins.joins|
  {
    match m
    case TokenMsg(t) => TokenTaken(nd, t);
    case JoinAccept(_, _, _, _) => AcceptTable(nd, m, sent, now);
    case JoinAck(id, from) => AckTable(nd, id, from);
    case JoinCommit(id, name, version) => CommitTable(nd, id, name, version);
    case _ =>
  }

  lemma {:induction false} EventsKeepSize(nd: Node, es: seq<Event>)
    ensures |ReactAll(nd, es).joins.joins| == |nd.joins.joins|
    decreases |es|
  {
    if es != [] {
      EventKeepsSize(nd, es[0]);
      EventsKeepSize(React(nd, es[0]), es[1..]);
    }
  }

  // ----------------------------------------------------------------------- broadcasts and input

  /** The node as it turns to the broadcasts and the user's input. */
  function Looked(was: Node, x: Input): Node { React(Heard(was, x), OnMaybeComplete) }

  /** The node once it has heard the broadcast. */
  function Told(was: Node, x: Input): Node {
    if x.broadcast.Some? then ReactToMessage(Looked(was, x), x.broadcast.value, false, x.ip, x.now) else Looked(was, x)
  }

  lemma OthersAre(was: Node, x: Input)
    ensures Prepared(was, x) == if x.cli.Some? then ReadCli(Told(was, x), x.cli.value) else Told(was, x)
  {
    var n := Looked(was, x);
    if x.broadcast.Some? {
      var e := OnMessage(x.broadcast.value, false, x.ip, x.now);
      OneEvent(n, e);
      if x.cli.Some? {
        MoreEvents(n, e, [OnCliInput(x.cli.value)]);
        OneEvent(React(n, e), OnCliInput(x.cli.value));
        assert Others(x) == [e] + [OnCliInput(x.cli.value)];
      } else {
        assert Others(x) == [e];
      }
    } else if x.cli.Some? {
      OneEvent(n, OnCliInput(x.cli.value));
      assert Others(x) == [OnCliInput(x.cli.value)];
    }
  }

  lemma SizeStays(was: Node, x: Input)
    ensures |Looked(was, x).joins.joins| == |was.joins.joins|
  {
    var es := TimerEvents(x.before, x.now) + ([OnInflightTimer(x.now)] + Arrivals(x.unicast, x.now));
    TimersAre(was, x);
    ReactsOn(was, TimerEvents(x.before, x.now), [OnInflightTimer(x.now)] + Arrivals(x.unicast, x.now));
    MoreEvents(Ticked(was, x), OnInflightTimer(x.now), Arrivals(x.unicast, x.now));
    EventsKeepSize(was, es);
    EventKeepsSize(Heard(was, x), OnMaybeComplete);
  }

  /** The name needs nothing more of this node: it is pending, in flight, done, its own, or there was no room. */
  ghost predicate Dealt(nd: Node, name: Name, room: nat) {
    || name == nd.current.name || (nd.inflight.active && nd.inflight.joiner.name == name)
    || InCache(nd.joins.completed, name) || Present(nd.joins.joins, name)
    || Used(nd.joins.joins) + room >= MAX_PENDING_JOINS
  }

  lemma RequestDealt(nd: Node, r: Request, ip: nat, now: int)
    requires |nd.joins.joins| == MAX_PENDING_JOINS
    ensures Dealt(HandleRequest(nd, r, ip, now), r.name, 0)
  {
    var k := RequestHeard(nd, r, ip, now);
    var nd' := HandleRequest(nd, r, ip, now);
    UsedBounds(nd.joins.joins);
    if Wanted(nd, r.name) && (exists i :: 0 <= i < |nd.joins.joins| && nd.joins.joins[i].None?) {
      assert Holds(nd'.joins.joins, k, r.name);
    }
  }

  lemma UseStaysDealt(nd: Node, now: int, name: Name)
    requires Dealt(nd, name, 0)
    ensures Dealt(HandleToken(nd, now).0, name, 1)
  {
    if TokenReady(nd) && Used(nd.joins.joins) > 0 {
      var k := StartOffers(nd, now);
      UsedUpdate(nd.joins.joins, k, None);
      if Present(nd.joins.joins, name) {
        var i: nat :| i < |nd.joins.joins| && Holds(nd.joins.joins, i, name);
        if i != k { assert Holds(nd.joins.joins[k := None], i, name); }
      }
    } else if TokenReady(nd) {
      var t := ForwardSends(nd, now);
    }
  }

  /** A join request heard in a pass is dealt with at its end: pending, started, known to be done, the node's own,
      or refused for want of room. */
  lemma RequestIsDealt(was: Node, x: Input, nd: Node, out: seq<Packet>)
    requires Passed(was, x, nd, out) && |was.joins.joins| == MAX_PENDING_JOINS
    requires x.broadcast.Some? && x.broadcast.value.JoinRequest?
    ensures Dealt(nd, x.broadcast.value.request.name, 1)
  {
    var r := x.broadcast.value.request;
    PassIs(was, x, nd, out);
    OthersAre(was, x);
    SizeStays(was, x);
    RequestDealt(Looked(was, x), r, x.ip, x.now);
    if x.cli.Some? { InputWaits(Told(was, x), x.cli.value); }
    UseStaysDealt(Prepared(was, x), x.now, r.name);
  }

  /** A commit heard in a pass is known at its end: its version has been seen, and its request is not acknowledged
      again. */
  lemma CommitIsKnown(was: Node, x: Input, nd: Node, out: seq<Packet>)
    requires Passed(was, x, nd, out) && x.broadcast.Some? && x.broadcast.value.JoinCommit?
    ensures nd.lastSeen >= x.broadcast.value.version
    ensures !(Sending(nd) && nd.ackSender.requestId == x.broadcast.value.requestId)
  {
    var m := x.broadcast.value;
    PassIs(was, x, nd, out);
    OthersAre(was, x);
    CommitHeardLaw(Looked(was, x), m.requestId, m.newName, m.version);
    if x.cli.Some? { InputWaits(Told(was, x), x.cli.value); }
    UseKeepsRest(Prepared(was, x), x.now);
  }

  lemma UseKeepsRest(nd: Node, now: int)
    ensures var n := HandleToken(nd, now).0;
      n.lastSeen == nd.lastSeen && n.ackSender == nd.ackSender && n.joined == nd.joined
  {
    if TokenReady(nd) && Used(nd.joins.joins) > 0 { var k := StartOffers(nd, now); }
    else if TokenReady(nd) { var t := ForwardSends(nd, now); }
  }

  // --------------------------------------------------------------------------- what arrives

  /** The events in front of the use of the token. */
  ghost predicate Plain(es: seq<Event>) {
    forall e | e in es :: !e.OnSendReturns? && !e.OnUseToken? && !e.OnInitialToken?
  }

  lemma {:induction false} ArrivalsSplit(us: seq<Incoming>, i: nat, now: int) returns (rest: seq<Event>)
    requires i < |us|
    ensures Arrivals(us, now) == Arrivals(us[..i], now) + [Arrival(us[i], now)] + rest
    decreases |us|
  {
    var last := |us| - 1;
    if i == last {
      rest := [OnMaybeComplete];
      assert Arrivals(us[..last], now) + [Arrival(us[last], now), OnMaybeComplete]
          == Arrivals(us[..last], now) + [Arrival(us[last], now)] + rest;
    } else {
      var rest1 := ArrivalsSplit(us[..last], i, now);
      assert us[..last][..i] == us[..i];
      rest := rest1 + [Arrival(us[last], now), OnMaybeComplete];
      Grouped(Arrivals(us[..i], now) + [Arrival(us[i], now)], rest1, [Arrival(us[last], now), OnMaybeComplete]);
    }
  }

  lemma {:induction false} ArrivalsPlain(us: seq<Incoming>, now: int)
    requires forall i | 0 <= i < |us| :: IsUnicast(us[i].msg)
    ensures forall e | e in Arrivals(us, now) ::
      e.OnMaybeComplete? || (e.OnMessage? && exists i :: 0 <= i < |us| && e == Arrival(us[i], now))
    decreases |us|
  {
    if us != [] {
      var last := |us| - 1;
      ArrivalsPlain(us[..last], now);
      forall e | e in Arrivals(us[..last], now) && e.OnMessage?
        ensures exists i :: 0 <= i < |us| && e == Arrival(us[i], now)
      {
        var i :| 0 <= i < |us[..last]| && e == Arrival(us[..last][i], now);
        assert us[..last][i] == us[i];
      }
      assert us[last] == us[|us| - 1];
    }
  }

  lemma BeforeIsPlain(x: Input)
    requires InputOk(x)
    ensures Plain(Before(x))
    ensures forall e | e in Before(x) && e.OnMessage? ::
      || (x.broadcast.Some? && e.m == x.broadcast.value)
      || exists i :: 0 <= i < |x.unicast| && e == Arrival(x.unicast[i], x.now)
  {
    ArrivalsPlain(x.unicast, x.now);
  }

  /** The moment the `i`-th message is heard. */
  lemma BeforeSplit(x: Input, i: nat) returns (a: seq<Event>, b: seq<Event>)
    requires InputOk(x) && i < |x.unicast|
    ensures Before(x) == a + [Arrival(x.unicast[i], x.now)] + b && Plain(a) && Plain(b)
    ensures forall e | e in a || e in b :: e in Before(x)
  {
    var rest := ArrivalsSplit(x.unicast, i, x.now);
    var ts, tick, us := TimerEvents(x.before, x.now), [OnInflightTimer(x.now)], Arrivals(x.unicast[..i], x.now);
    var e := [Arrival(x.unicast[i], x.now)];
    a, b := ts + (tick + us), rest + Rest(x);
    BeforeIsPlain(x);
    Joining(ts, tick, us, e, rest, Rest(x));
    forall d | d in a || d in b ensures d in Before(x) { assert d in a + e + b; }
  }

  lemma Joining(ts: seq<Event>, tick: seq<Event>, us: seq<Event>, e: seq<Event>, rest: seq<Event>, more: seq<Event>)
    ensures ts + (tick + ((us + e + rest) + more)) == ts + (tick + us) + e + (rest + more)
  {
  }

  lemma ThroughMessage(was: Node, x: Input, a: seq<Event>, e: Event, b: seq<Event>)
    requires Before(x) == a + [e] + b
    ensures Prepared(was, x) == ReactAll(React(ReactAll(was, a), e), b)
    ensures EmitsAll(was, Before(x)) ==
      EmitsAll(was, a) + Emits(ReactAll(was, a), e) + EmitsAll(React(ReactAll(was, a), e), b)
  {
    BeforeIs(was, x);
    ReactsOn(was, a + [e], b);
    ReactsOn(was, a, [e]);
    EmitsOn(was, a + [e], b);
    EmitsOn(was, a, [e]);
    OneEvent(ReactAll(was, a), e);
  }

  ghost predicate Fine(nd: Node) { LocalInv(nd) && !nd.sending }

  /** What no event takes away: identity, membership, and a member's token. */
  ghost predicate Keeps(nd: Node, n: Node) {
    && n.current == nd.current && n.request.id == nd.request.id && (nd.joined ==> n.joined)
    && (nd.joined && nd.haveToken ==> n.haveToken)
  }

  lemma EventKeeps(nd: Node, e: Event)
    requires Fine(nd) && !e.OnSendReturns? && !e.OnUseToken? && !e.OnInitialToken?
    ensures Fine(React(nd, e)) && Keeps(nd, React(nd, e)) && Steady(nd, React(nd, e))
  {
    ReactLaw(nd, e);
    OnlyUseTokenSends(nd, e);
    match e
    case OnMessage(m, sent, ip, now) => if nd.joined && nd.haveToken { MessageKeepsToken(nd, m, sent, ip, now); }
    case _ =>
  }

  lemma MessageKeepsToken(nd: Node, m: Msg, sent: bool, ip: nat, now: int)
    requires nd.joined && nd.haveToken
    ensures ReactToMessage(nd, m, sent, ip, now).haveToken
  {
    match m
    case TokenMsg(t) => TokenTaken(nd, t);
    case JoinAccept(_, _, _, _) => AcceptTaken(nd, m, sent, now);
    case JoinAck(id, from) => AckKeepsToken(nd, id, from);
    case JoinCommit(id, name, version) => CommitKeepsToken(nd, id, name, version);
    case _ =>
  }

  lemma AckKeepsToken(nd: Node, id: nat, from: Name)
    ensures HandleAck(nd, JoinAck(id, from)).0.haveToken == nd.haveToken
  {
    CompletionAnnounced(Confirm(nd, from));
  }

  lemma CommitKeepsToken(nd: Node, id: nat, name: Name, version: nat)
    ensures HandleCommit(nd, JoinCommit(id, name, version)).haveToken == nd.haveToken
  {
    CommitLearnt(nd, id, name, version);
    var nd1 := LearnCommit(nd, JoinCommit(id, name, version));
    CommitStopsAcks(if nd1.inflight.active && nd1.inflight.requestId == id then CompleteViaCommit(nd1) else nd1, id);
  }

  lemma {:induction false} EventsKeep(nd: Node, es: seq<Event>)
    requires Fine(nd) && Plain(es)
    ensures Fine(ReactAll(nd, es)) && Keeps(nd, ReactAll(nd, es))
    decreases |es|
  {
    if es != [] {
      assert es[0] in es;
      EventKeeps(nd, es[0]);
      EventsKeep(React(nd, es[0]), es[1..]);
    }
  }

  /** A node that takes the accept for its request in a pass is a member at its end. */
  lemma AcceptIsTaken(was: Node, x: Input, nd: Node, out: seq<Packet>, i: nat)
    requires Passed(was, x, nd, out) && i < |x.unicast| && x.unicast[i].msg.JoinAccept?
    requires x.unicast[i].msg.newNode.name == was.current.name && x.unicast[i].msg.requestId == was.request.id
    ensures nd.joined
  {
    PassIs(was, x, nd, out);
    var a, b := BeforeSplit(x, i);
    var e := Arrival(x.unicast[i], x.now);
    ThroughMessage(was, x, a, e, b);
    EventsKeep(was, a);
    var n := ReactAll(was, a);
    AcceptTaken(n, x.unicast[i].msg, x.unicast[i].sent, x.now);
    EventKeeps(n, e);
    EventsKeep(React(n, e), b);
    UseKeepsRest(Prepared(was, x), x.now);
  }

  /** A member that has the token, or gets it in the pass, sends one on in the pass or keeps it for a join. */
  lemma TokenIsNotLost(was: Node, x: Input, nd: Node, out: seq<Packet>)
    requires Passed(was, x, nd, out) && was.joined
    requires was.haveToken || exists i :: 0 <= i < |x.unicast| && x.unicast[i].msg.TokenMsg?
    ensures (nd.haveToken && nd.inflight.active) || exists p :: p in out && p.msg.TokenMsg?
  {
    PassIs(was, x, nd, out);
    TokenIsThere(was, x);
    UseKeepsToken(Prepared(was, x), x.now);
    assert forall p | p in HandleToken(Prepared(was, x), x.now).1 :: p in out;
  }

  lemma TokenIsThere(was: Node, x: Input)
    requires Fine(was) && InputOk(x) && was.joined
    requires was.haveToken || exists i :: 0 <= i < |x.unicast| && x.unicast[i].msg.TokenMsg?
    ensures Prepared(was, x).joined && Prepared(was, x).haveToken && !Prepared(was, x).sending
  {
    BeforeIsPlain(x);
    BeforeIs(was, x);
    EventsKeep(was, Before(x));
    if i :| 0 <= i < |x.unicast| && x.unicast[i].msg.TokenMsg? {
      var a, b := BeforeSplit(x, i);
      var e := Arrival(x.unicast[i], x.now);
      ThroughMessage(was, x, a, e, b);
      EventsKeep(was, a);
      TokenTaken(ReactAll(was, a), x.unicast[i].msg.token);
      EventKeeps(ReactAll(was, a), e);
      EventsKeep(React(ReactAll(was, a), e), b);
    }
  }

  lemma UseKeepsToken(nd: Node, now: int)
    requires nd.joined && nd.haveToken && !nd.sending
    ensures var (n, out) := HandleToken(nd, now);
      (!n.sending && n.haveToken && n.inflight.active) || exists p :: p in out && p.msg.TokenMsg?
  {
    if TokenReady(nd) && Used(nd.joins.joins) > 0 {
      var k := StartOffers(nd, now);
    } else if TokenReady(nd) {
      var t := ForwardSends(nd, now);
      assert HandleToken(nd, now).1[0] in HandleToken(nd, now).1;
    }
  }

  // ------------------------------------------------------------- acknowledgements that arrive

  /** What acknowledgement is under way does not change without an accept. */
  predicate SameAck(nd: Node, n: Node) { Sending(n) ==> Sending(nd) && n.ackSender.requestId == nd.ackSender.requestId }

  lemma EventSameAck(nd: Node, e: Event)
    requires !(e.OnMessage? && e.m.JoinAccept?)
    ensures SameAck(nd, React(nd, e))
  {
    match e
    case OnMessage(m, sent, ip, now) => MessageSameAck(nd, m, sent, ip, now);
    case OnAckTimer(now) => AcksWhenDue(nd, now);
    case OnMaybeComplete => CompletionAnnounced(nd);
    case OnInflightTimer(now) => CompletionAnnounced(nd);
    case OnUseToken(now) => UseKeepsRest(nd, now);
    case _ =>
  }

  lemma AckSameAck(nd: Node, id: nat, from: Name)
    ensures HandleAck(nd, JoinAck(id, from)).0.ackSender == nd.ackSender
  {
    CompletionAnnounced(Confirm(nd, from));
  }

  lemma RequestSameAck(nd: Node, r: Request, ip: nat, now: int)
    ensures HandleRequest(nd, r, ip, now).ackSender == nd.ackSender
  {
  }

  lemma MessageSameAck(nd: Node, m: Msg, sent: bool, ip: nat, now: int)
    requires !m.JoinAccept?
    ensures SameAck(nd, ReactToMessage(nd, m, sent, ip, now))
  {
    match m
    case TokenMsg(t) => TokenTaken(nd, t);
    case JoinAck(id, from) => AckSameAck(nd, id, from);
    case JoinAckAck(id, to) => AnswerHeard(nd, id, to);
    case JoinRequest(r) => RequestSameAck(nd, r, ip, now);
    case JoinCommit(id, name, version) => CommitHeardLaw(nd, id, name, version);
  }

  lemma {:induction false} EventsSameAck(nd: Node, es: seq<Event>)
    requires forall e | e in es :: !(e.OnMessage? && e.m.JoinAccept?)
    ensures SameAck(nd, ReactAll(nd, es))
    decreases |es|
  {
    if es != [] {
      assert es[0] in es;
      EventSameAck(nd, es[0]);
      EventsSameAck(React(nd, es[0]), es[1..]);
    }
  }

  /** An answer to the acknowledgement under way that arrives in a pass ends it, unless the pass brings another
      accept to acknowledge. */
  lemma AnswerIsHeard(was: Node, x: Input, nd: Node, out: seq<Packet>, i: nat)
    requires Passed(was, x, nd, out) && i < |x.unicast|
    requires x.unicast[i].msg == JoinAckAck(was.ackSender.requestId, was.current.name)
    requires forall j | 0 <= j < |x.unicast| :: !x.unicast[j].msg.JoinAccept?
    ensures !Sending(nd)
  {
    PassIs(was, x, nd, out);
    BeforeIsPlain(x);
    var a, b := BeforeSplit(x, i);
    var e := Arrival(x.unicast[i], x.now);
    ThroughMessage(was, x, a, e, b);
    EventsKeep(was, a);
    EventsSameAck(was, a);
    var n := ReactAll(was, a);
    AnswerHeard(n, was.ackSender.requestId, was.current.name);
    EventsSameAck(React(n, e), b);
    UseKeepsRest(Prepared(was, x), x.now);
  }

  /** A commit of request `id` is announced. */
  ghost predicate Announced(out: seq<Packet>, id: nat) {
    exists p :: p in out && p.Broadcast? && p.msg.JoinCommit? && p.msg.requestId == id
  }

  /** The join of `nd` is still under way in `n`, with what was confirmed. */
  predicate SameJoining(nd: Node, n: Node) {
    && n.inflight.active && n.inflight.requestId == nd.inflight.requestId && n.inflight.joiner == nd.inflight.joiner
    && (nd.inflight.gotJoiner ==> n.inflight.gotJoiner) && (nd.inflight.gotPrev ==> n.inflight.gotPrev)
  }

  lemma CompleteAnnounces(nd: Node)
    requires nd.inflight.active
    ensures var (n, out) := TryComplete(nd); SameJoining(nd, n) || Announced(out, nd.inflight.requestId)
  {
    CompletionAnnounced(nd);
    var out := TryComplete(nd).1;
    if out != [] { assert out[0] in out; }
  }

  lemma AckAnnounces(nd: Node, id: nat, from: Name)
    requires nd.inflight.active
    ensures var (n, out) := HandleAck(nd, JoinAck(id, from));
      || Announced(out, nd.inflight.requestId)
      || (SameJoining(nd, n)
          && (id == nd.inflight.requestId && from == nd.inflight.joiner.name ==> n.inflight.gotJoiner))
  {
    RingHandlers.AckShape(nd, JoinAck(id, from));
    AckAnswered(nd, id, from);
    var out := HandleAck(nd, JoinAck(id, from)).1;
    if out != [] { assert out[0] in out; }
  }

  lemma EventJoining(nd: Node, e: Event)
    requires nd.inflight.active && !e.OnSendReturns? && !e.OnUseToken? && !e.OnInitialToken?
    requires !(e.OnMessage? && e.m.JoinCommit? && e.m.requestId == nd.inflight.requestId)
    ensures SameJoining(nd, React(nd, e)) || Announced(Emits(nd, e), nd.inflight.requestId)
  {
    match e
    case OnMessage(m, sent, ip, now) => MessageJoining(nd, m, sent, ip, now);
    case OnMaybeComplete => CompleteAnnounces(nd);
    case OnInflightTimer(now) => TickJoining(nd, now);
    case OnPruneTimer(now) => PruneForgets(nd, now);
    case OnAckTimer(now) => AcksWhenDue(nd, now);
    case OnRequestTimer(now) => AsksWhenDue(nd, now);
    case OnCliInput(t) => InputWaits(nd, t);
  }

  lemma TickJoining(nd: Node, now: int)
    requires nd.inflight.active
    ensures var (n, out) := InflightTick(nd, now); SameJoining(nd, n) || Announced(out, nd.inflight.requestId)
  {
    CompleteAnnounces(nd);
    if !(nd.inflight.gotPrev && nd.inflight.gotJoiner) { OffersWhenDue(nd, now); }
  }

  lemma MessageJoining(nd: Node, m: Msg, sent: bool, ip: nat, now: int)
    requires nd.inflight.active && !(m.JoinCommit? && m.requestId == nd.inflight.requestId)
    ensures || SameJoining(nd, ReactToMessage(nd, m, sent, ip, now))
            || Announced(MessageEmits(nd, m, sent, now), nd.inflight.requestId)
  {
    match m
    case TokenMsg(t) => TokenTaken(nd, t);
    case JoinAccept(_, _, _, _) => AcceptTaken(nd, m, sent, now); AcceptInflight(nd, m, sent, now);
    case JoinAck(id, from) => AckAnnounces(nd, id, from);
    case JoinAckAck(id, to) => AnswerHeard(nd, id, to);
    case JoinRequest(r) =>
    case JoinCommit(id, name, version) => CommitHeardLaw(nd, id, name, version);
  }

  lemma AcceptInflight(nd: Node, m: Msg, sent: bool, now: int)
    requires m.JoinAccept?
    ensures HandleAccept(nd, m, sent, now).0.inflight == nd.inflight
  {
  }

  lemma {:induction false} EventsJoining(nd: Node, es: seq<Event>)
    requires nd.inflight.active && Plain(es)
    requires forall e | e in es :: !(e.OnMessage? && e.m.JoinCommit? && e.m.requestId == nd.inflight.requestId)
    ensures SameJoining(nd, ReactAll(nd, es)) || Announced(EmitsAll(nd, es), nd.inflight.requestId)
    decreases |es|
  {
    if es != [] {
      assert es[0] in es;
      EventJoining(nd, es[0]);
      if SameJoining(nd, React(nd, es[0])) {
        EventsJoining(React(nd, es[0]), es[1..]);
        StillAnnounced(Emits(nd, es[0]), EmitsAll(React(nd, es[0]), es[1..]), nd.inflight.requestId);
      } else {
        StillAnnounced(Emits(nd, es[0]), EmitsAll(React(nd, es[0]), es[1..]), nd.inflight.requestId);
      }
    }
  }

  lemma StillAnnounced(a: seq<Packet>, b: seq<Packet>, id: nat)
    ensures Announced(a, id) || Announced(b, id) ==> Announced(a + b, id)
  {
    if Announced(a, id) {
      var p :| p in a && p.Broadcast? && p.msg.JoinCommit? && p.msg.requestId == id;
      assert p in a + b;
    }
    if Announced(b, id) {
      var p :| p in b && p.Broadcast? && p.msg.JoinCommit? && p.msg.requestId == id;
      assert p in a + b;
    }
  }

  /** An acknowledgement by the joiner that arrives in a pass is known at its end, or the join is over and has
      been announced. */
  lemma JoinerIsHeard(was: Node, x: Input, nd: Node, out: seq<Packet>, i: nat)
    requires Passed(was, x, nd, out) && was.inflight.active && i < |x.unicast|
    requires x.unicast[i].msg == JoinAck(was.inflight.requestId, was.inflight.joiner.name)
    requires !(x.broadcast.Some? && x.broadcast.value.JoinCommit? &&
      x.broadcast.value.requestId == was.inflight.requestId)
    ensures (SameJoining(was, nd) && nd.inflight.gotJoiner) || Announced(out, was.inflight.requestId)
  {
    var id := was.inflight.requestId;
    PassIs(was, x, nd, out);
    BeforeIsPlain(x);
    var a, b := BeforeSplit(x, i);
    var e := Arrival(x.unicast[i], x.now);
    ThroughMessage(was, x, a, e, b);
    JoinerHeardBefore(was, a, e, b, id);
    BeforeIs(was, x);
    StillAnnounced(EmitsAll(was, Before(x)), HandleToken(Prepared(was, x), x.now).1, id);
  }

  lemma JoinerHeardBefore(was: Node, a: seq<Event>, e: Event, b: seq<Event>, id: nat)
    requires was.inflight.active && was.inflight.requestId == id && Plain(a) && Plain(b)
    requires e.OnMessage? && e.m == JoinAck(id, was.inflight.joiner.name)
    requires forall d | d in a || d in b :: !(d.OnMessage? && d.m.JoinCommit? && d.m.requestId == id)
    ensures var n := ReactAll(React(ReactAll(was, a), e), b);
      || (SameJoining(was, n) && n.inflight.gotJoiner)
      || Announced(EmitsAll(was, a) + Emits(ReactAll(was, a), e) + EmitsAll(React(ReactAll(was, a), e), b), id)
  {
    var n1 := ReactAll(was, a);
    var n2 := React(n1, e);
    EventsJoining(was, a);
    StillAnnounced(EmitsAll(was, a), Emits(n1, e), id);
    StillAnnounced(EmitsAll(was, a) + Emits(n1, e), EmitsAll(n2, b), id);
    if SameJoining(was, n1) {
      AckAnnounces(n1, id, was.inflight.joiner.name);
      if SameJoining(n1, n2) { EventsJoining(n2, b); }
    }
  }

  // --------------------------------------------------------------------------- user input

  /** The token at hand once the messages are in. */
  function TokenAtHand(t: Token, us: seq<Incoming>): Token {
    if us == [] then t
    else if us[|us| - 1].msg.TokenMsg? then us[|us| - 1].msg.token
    else TokenAtHand(t, us[..|us| - 1])
  }

  lemma {:induction false} ArrivalsToken(nd: Node, us: seq<Incoming>, now: int)
    ensures ReactAll(nd, Arrivals(us, now)).tokenIn.isEmpty == TokenAtHand(nd.tokenIn, us).isEmpty
    decreases |us|
  {
    if us != [] {
      var last := |us| - 1;
      var n, e := ReactAll(nd, Arrivals(us[..last], now)), Arrival(us[last], now);
      ArrivalsToken(nd, us[..last], now);
      ReactsOn(nd, Arrivals(us[..last], now), [e, OnMaybeComplete]);
      ArrivalToken(n, us[last], now);
    }
  }

  lemma ArrivalToken(nd: Node, u: Incoming, now: int)
    ensures ReactAll(nd, [Arrival(u, now), OnMaybeComplete]).tokenIn.isEmpty
         == (if u.msg.TokenMsg? then u.msg.token else nd.tokenIn).isEmpty
  {
    var e := Arrival(u, now);
    assert [e] + [OnMaybeComplete] == [e, OnMaybeComplete];
    MoreEvents(nd, e, [OnMaybeComplete]);
    OneEvent(React(nd, e), OnMaybeComplete);
    Delivery.TokenContentsStay(React(nd, e), OnMaybeComplete);
    if u.msg.TokenMsg? { TokenTaken(nd, u.msg.token); } else { Delivery.TokenContentsStay(nd, e); }
  }

  lemma ToldToken(was: Node, x: Input)
    requires InputOk(x)
    ensures Told(was, x).tokenIn.isEmpty == TokenAtHand(was.tokenIn, x.unicast).isEmpty
  {
    TickedKeeps(was, x);
    Delivery.TokenContentsStay(Ticked(was, x), OnInflightTimer(x.now));
    ArrivalsToken(Offered(was, x), x.unicast, x.now);
    SameAtHand(was.tokenIn, Offered(was, x).tokenIn, x.unicast);
    Delivery.TokenContentsStay(Heard(was, x), OnMaybeComplete);
    if x.broadcast.Some? {
      Delivery.TokenContentsStay(Looked(was, x), OnMessage(x.broadcast.value, false, x.ip, x.now));
    }
  }

  lemma {:induction false} SameAtHand(t: Token, u: Token, us: seq<Incoming>)
    requires t.isEmpty == u.isEmpty
    ensures TokenAtHand(t, us).isEmpty == TokenAtHand(u, us).isEmpty
    decreases |us|
  {
    if us != [] { SameAtHand(t, u, us[..|us| - 1]); }
  }

  /** The input `t` leaves on a token, as it was read. */
  ghost predicate Leaves(out: seq<Packet>, t: Token) {
    exists p :: p in out && p.msg.TokenMsg? && p.msg.token == t.(version := p.msg.token.version)
  }

  /** Input read in a pass in which the token at hand is empty leaves with it in the same pass, or waits as it was
      read. */
  lemma InputIsTaken(was: Node, x: Input, nd: Node, out: seq<Packet>)
    requires Passed(was, x, nd, out) && x.cli.Some?
    ensures TokenAtHand(was.tokenIn, x.unicast).isEmpty ==>
      Leaves(out, x.cli.value) || (nd.haveCli && nd.cliPending == x.cli.value)
  {
    PassIs(was, x, nd, out);
    OthersAre(was, x);
    ToldToken(was, x);
    InputWaits(Told(was, x), x.cli.value);
    UseLetsLeave(Prepared(was, x), x.now);
    assert forall p | p in HandleToken(Prepared(was, x), x.now).1 :: p in out;
  }

  lemma UseLetsLeave(nd: Node, now: int)
    ensures var (n, out) := HandleToken(nd, now);
      && (n.haveCli ==> nd.haveCli && n.cliPending == nd.cliPending)
      && (nd.haveCli && !n.haveCli ==> Leaves(out, nd.cliPending))
  {
    if TokenReady(nd) && Used(nd.joins.joins) > 0 {
      var k := StartOffers(nd, now);
    } else if TokenReady(nd) {
      var t := ForwardSends(nd, now);
      assert HandleToken(nd, now).1[0] in HandleToken(nd, now).1;
    }
  }
}
