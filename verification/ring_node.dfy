/** A node as the program keeps it: fields that the handlers overwrite in place. Each method is
    proved to make of the node's state what the function of the same step in `NodeModel` says. */
module RingNodeClass {
  import opened Base
  import opened JoinTable
  import opened JoinTableLaws
  import opened JoinStateClass
  import opened NodeModel

  class RingNode {
    const current: Route
    var prev: Route
    var next: Route
    var joined: bool
    var lastSeen: nat
    const joins: JoinTableState
    var inflight: Inflight
    var ackSender: AckSender
    var request: RequestTimer
    var tokenIn: Token
    var haveToken: bool
    var cliPending: Token
    var haveCli: bool
    var sending: bool

    ghost predicate Valid()
      reads this, joins, joins.joins, joins.completed
    {
      joins.Valid()
    }

    /** The state of the node as a value. */
    ghost function Snapshot(): Node
      reads this, joins, joins.joins, joins.completed
      requires Valid()
    {
      Node(current, prev, next, joined, lastSeen, joins.Model(), inflight, ackSender, request,
           tokenIn, haveToken, cliPending, haveCli, sending)
    }

    constructor (current: Route, prev: Route, next: Route, joined: bool, requestId: nat)
      ensures Valid() && fresh(joins) && fresh(joins.joins) && fresh(joins.completed)
      ensures Snapshot() == Node(current, prev, next, joined, 0, EmptyState(),
                                 Inflight(false, 0, PendingJoin(0, "", 0, 0, 0), "", false, false, 0, 0),
                                 AckSender(false, 0, Route("", 0), 0, 0, false), RequestTimer(requestId, 0, 0),
                                 ZERO_TOKEN, false, ZERO_TOKEN, false, false)
    {
      this.current, this.prev, this.next, this.joined := current, prev, next, joined;
      lastSeen := 0;
      joins := new JoinTableState();
      inflight := Inflight(false, 0, PendingJoin(0, "", 0, 0, 0), "", false, false, 0, 0);
      ackSender := AckSender(false, 0, Route("", 0), 0, 0, false);
      request := RequestTimer(requestId, 0, 0);
      tokenIn, haveToken, cliPending, haveCli, sending := ZERO_TOKEN, false, ZERO_TOKEN, false, false;
    }

    // --------------------------------------------------------- coordinator

    method StartJoin(pending: PendingJoin)
      requires Valid()
      modifies this`inflight
      ensures Valid() && Snapshot() == StartInflight(old(Snapshot()), pending)
    {
      inflight := Inflight(true, pending.requestId, pending, prev.name, false, false, 0, 0);
      if inflight.expectedPrev == current.name {
        inflight := inflight.(gotPrev := true);
      }
    }

    method MaybeComplete() returns (out: seq<Packet>)
      requires Valid()
      modifies this, joins, joins.joins, joins.completed
      ensures Valid() && (Snapshot(), out) == TryComplete(old(Snapshot()))
    {
      if !inflight.active || !(inflight.gotPrev && inflight.gotJoiner) {
        return [];
      }
      var prevIsSelf := inflight.expectedPrev == current.name;
      prev := Route(inflight.joiner.name, inflight.joiner.port);
      if prevIsSelf {
        next := Route(inflight.joiner.name, inflight.joiner.port);
      }
      lastSeen := (lastSeen + 1) % U32_SIZE;
      tokenIn := tokenIn.(version := lastSeen);
      RecordJoiner();
      inflight := inflight.(active := false, gotPrev := false, gotJoiner := false, retries := 0);
      out := [Broadcast(JoinCommit(inflight.requestId, inflight.joiner.name, lastSeen))];
    }

    method RecordJoiner()
      requires Valid()
      modifies joins, joins.joins, joins.completed
      ensures Valid()
      ensures joins.Model() == RecordCompleted(Remove(old(joins.Model()), inflight.joiner.name).0,
                                               inflight.joiner.requestId, inflight.joiner.name)
    {
      var _ := joins.RemovePending(inflight.joiner.name);
      joins.RecordCompletedJoin(inflight.joiner.requestId, inflight.joiner.name);
    }

    method OnInflightTimer(now: int) returns (out: seq<Packet>)
      requires Valid()
      modifies this, joins, joins.joins, joins.completed
      ensures Valid() && (Snapshot(), out) == InflightTick(old(Snapshot()), now)
    {
      if !inflight.active {
        return [];
      }
      if inflight.gotPrev && inflight.gotJoiner {
        out := MaybeComplete();
        return;
      }
      if inflight.lastSent != 0 && now - inflight.lastSent < JOIN_ACCEPT_TIMEOUT_S {
        return [];
      }
      if inflight.retries >= JOIN_ACCEPT_RETRIES {
        inflight := inflight.(retries := 0, lastSent := 0);
      }
      var accept := JoinAccept(inflight.requestId, Route(inflight.joiner.name, inflight.joiner.port), current, prev);
      out := [];
      if !inflight.gotJoiner {
        out := out + [Unicast(Route(inflight.joiner.name, inflight.joiner.port), accept)];
      }
      if !inflight.gotPrev {
        out := out + [Unicast(prev, accept)];
      }
      assert out == (if inflight.gotJoiner then [] else [Unicast(JoinerRoute(inflight.joiner), accept)])
                    + (if inflight.gotPrev then [] else [Unicast(prev, accept)]);
      inflight := inflight.(lastSent := now, retries := inflight.retries + 1);
    }

    method OnAck(requestId: nat, from: Name) returns (out: seq<Packet>)
      requires Valid()
      modifies this, joins, joins.joins, joins.completed
      ensures Valid() && (Snapshot(), out) == HandleAck(old(Snapshot()), JoinAck(requestId, from))
    {
      out := [];
      if inflight.active && inflight.requestId == requestId {
        ghost var was := Snapshot();
        if from == inflight.expectedPrev || from == prev.name {
          inflight := inflight.(gotPrev := true);
        }
        if from == inflight.joiner.name {
          inflight := inflight.(gotJoiner := true);
        }
        assert Snapshot() == Confirm(was, from);
        out := MaybeComplete();
      }
      var dst: Route;
      if inflight.active && from == inflight.joiner.name {
        dst := Route(from, inflight.joiner.port);
      } else if from == prev.name {
        dst := Route(from, prev.port);
      } else {
        return;
      }
      var ack := Unicast(dst, JoinAckAck(requestId, from));
      out := out + [ack, ack, ack];
    }

    // ---------------------------------------------- predecessor and joiner

    method ApplyAcceptIfRelevant(m: Msg) returns (did: bool)
      requires Valid() && m.JoinAccept?
      modifies this`prev, this`next, this`joined, this`request
      ensures Valid() && (Snapshot(), did) == ApplyAccept(old(Snapshot()), m)
    {
      if current.name == m.newNode.name {
        if joined || m.requestId != request.id {
          return false;
        }
        prev, next := m.prev, m.before;
        joined := true;
        request := request.(lastSent := 0, retries := 0);
        return true;
      }
      if current.name == m.prev.name {
        if next.name != m.before.name {
          return false;
        }
        next := m.newNode;
        joined := true;
        return true;
      }
      did := false;
    }

    method OnAccept(m: Msg, sent: bool, now: int) returns (out: seq<Packet>)
      requires Valid() && m.JoinAccept?
      modifies this, joins, joins.joins, joins.completed
      ensures Valid() && (Snapshot(), out) == HandleAccept(old(Snapshot()), m, sent, now)
    {
      joins.MarkCompleted(m.newNode.name, m.requestId);
      var did := ApplyAcceptIfRelevant(m);
      if !did {
        return [];
      }
      StartAcks(m.requestId, m.before, sent, now);
      out := [Unicast(m.before, JoinAck(m.requestId, current.name))];
    }

    method StartAcks(requestId: nat, coord: Route, sent: bool, now: int)
      modifies this`ackSender
      ensures ackSender == AckSender(true, requestId, coord, if sent then now else 0, if sent then 1 else 0, false)
    {
      ackSender := AckSender(true, requestId, coord, 0, 0, false);
      if sent {
        ackSender := ackSender.(lastSent := now, retries := 1);
      }
    }

    method OnAckAck(requestId: nat, to: Name)
      requires Valid()
      modifies this`ackSender
      ensures Valid() && Snapshot() == HandleAckAck(old(Snapshot()), JoinAckAck(requestId, to))
    {
      if to != current.name {
        return;
      }
      if ackSender.active && ackSender.requestId == requestId {
        ackSender := ackSender.(gotAckAck := true);
      }
    }

    method OnAckTimer(now: int) returns (out: seq<Packet>)
      requires Valid()
      modifies this`ackSender
      ensures Valid() && (Snapshot(), out) == AckSenderTick(old(Snapshot()), now)
    {
      if !ackSender.active {
        return [];
      }
      if ackSender.gotAckAck {
        ackSender := ackSender.(active := false);
        return [];
      }
      if ackSender.lastSent != 0 && now - ackSender.lastSent < JOIN_ACK_RESEND_S {
        return [];
      }
      if ackSender.retries >= JOIN_ACK_MAX_RETRIES {
        ackSender := ackSender.(active := false);
        return [];
      }
      out := [Unicast(ackSender.coord, JoinAck(ackSender.requestId, current.name))];
      ackSender := ackSender.(lastSent := now, retries := ackSender.retries + 1);
    }

    // ------------------------------------------------------------ broadcast

    method OnRequestTimer(now: int) returns (out: seq<Packet>, ok: bool)
      requires Valid()
      modifies this`request
      ensures Valid() && (Snapshot(), out, ok) == RequestTick(old(Snapshot()), now)
    {
      if joined {
        return [], true;
      }
      if request.lastSent != 0 && now - request.lastSent < JOIN_REQUEST_TIMEOUT_S {
        return [], true;
      }
      if request.retries >= JOIN_REQUEST_RETRIES {
        return [], false;
      }
      out, ok := [Broadcast(JoinRequest(Request(current.name, request.id, current.port)))], true;
      request := request.(lastSent := now, retries := request.retries + 1);
    }

    method OnRequest(r: Request, ip: nat, now: int)
      requires Valid()
      modifies joins`count, joins.joins
      ensures Valid() && Snapshot() == HandleRequest(old(Snapshot()), r, ip, now)
    {
      if r.name == current.name {
        return;
      }
      if inflight.active && inflight.joiner.name == r.name {
        return;
      }
      var known := joins.IsCompletedJoin(r);
      if known {
        return;
      }
      var _ := joins.AddPending(r, ip, now);
    }

    method OnCommit(m: Msg)
      requires Valid() && m.JoinCommit?
      modifies this, joins, joins.joins, joins.completed
      ensures Valid() && Snapshot() == HandleCommit(old(Snapshot()), m)
    {
      LearnOfCommit(m);
      if inflight.active && inflight.requestId == m.requestId {
        FinishViaCommit();
      }
      if ackSender.active && ackSender.requestId == m.requestId {
        ackSender := ackSender.(active := false, gotAckAck := true);
      }
    }

    method LearnOfCommit(m: Msg)
      requires Valid() && m.JoinCommit?
      modifies this`lastSeen, joins, joins.joins, joins.completed
      ensures Valid() && Snapshot() == LearnCommit(old(Snapshot()), m)
    {
      joins.MarkCompleted(m.newName, m.requestId);
      if m.version > lastSeen {
        lastSeen := m.version;
        DropPending();
      }
    }

    method FinishViaCommit()
      requires Valid()
      modifies this`prev, this`inflight, this`tokenIn, joins, joins.joins, joins.completed
      ensures Valid() && Snapshot() == CompleteViaCommit(old(Snapshot()))
    {
      prev := Route(inflight.joiner.name, inflight.joiner.port);
      RecordJoiner();
      inflight := inflight.(active := false, gotPrev := false, gotJoiner := false, retries := 0);
      tokenIn := tokenIn.(version := lastSeen);
    }

    method DropPending()
      requires Valid()
      modifies joins`count, joins.joins
      ensures Valid() && Snapshot() == old(Snapshot()).(joins := ClearPending(old(Snapshot()).joins))
    {
      var pendingBefore := joins.count;
      if pendingBefore > 0 {
        var _ := joins.DropOldest(pendingBefore);
      }
    }

    method OnPruneTimer(now: int)
      requires Valid()
      modifies joins`count, joins.joins
      ensures Valid() && Snapshot() == PruneTick(old(Snapshot()), now)
    {
      joins.PruneJoins(now, JOIN_PENDING_TTL_S);
    }

    // ---------------------------------------------------------------- token

    method UpdateTopology() returns (advanced: bool)
      requires Valid()
      modifies this`lastSeen, joins`count, joins.joins
      ensures Valid() && advanced == (tokenIn.version > old(lastSeen))
      ensures Snapshot() == if !advanced then old(Snapshot()) else
                old(Snapshot()).(lastSeen := tokenIn.version, joins := ClearPending(old(Snapshot()).joins))
    {
      if tokenIn.version <= lastSeen {
        return false;
      }
      DropPending();
      lastSeen := tokenIn.version;
      advanced := true;
    }

    method OnToken(t: Token)
      requires Valid()
      modifies this, joins, joins.joins
      ensures Valid() && Snapshot() == ReceiveToken(old(Snapshot()), t)
    {
      tokenIn := t;
      if joined {
        var advanced := UpdateTopology();
        if advanced {
          DropAllEmpties(old(joins.Model()));
          DropPending();
        }
        haveToken := true;
      }
    }

    method SendInitialToken()
      requires Valid()
      modifies this`tokenIn, this`haveToken
      ensures Valid() && Snapshot() == InitialToken(old(Snapshot()))
    {
      if !joined || haveToken {
        return;
      }
      tokenIn := Token("", "", "", lastSeen, true);
      haveToken := true;
    }

    /** The token leaves; the node blocks until the send returns. */
    method RingOnToken() returns (out: seq<Packet>)
      requires Valid()
      modifies this`haveCli, this`cliPending, this`sending
      ensures Valid() && (Snapshot(), out) == BeginForward(old(Snapshot()))
    {
      var token := tokenIn;
      if !token.isEmpty {
        if token.receiver == current.name {
          token := token.(isEmpty := true, data := "", sender := "", receiver := "");
        }
      }
      if haveCli && token.isEmpty {
        token := cliPending;
        token := token.(version := lastSeen);
        haveCli := false;
        cliPending := cliPending.(isEmpty := true, data := "", sender := "", receiver := "");
      }
      sending := true;
      out := [Unicast(next, TokenMsg(token))];
    }

    method SendReturned()
      requires Valid()
      modifies this`sending, this`haveToken, this`tokenIn
      ensures Valid() && Snapshot() == EndForward(old(Snapshot()))
    {
      sending := false;
      haveToken := false;
      tokenIn := ZERO_TOKEN;
    }

    method SendFailed()
      requires Valid()
      modifies this`sending
      ensures Valid() && Snapshot() == AbandonForward(old(Snapshot()))
    {
      sending := false;
    }

    method HandleTokenIfReady(now: int) returns (out: seq<Packet>)
      requires Valid()
      modifies this, joins, joins.joins, joins.completed
      ensures Valid() && (Snapshot(), out) == HandleToken(old(Snapshot()), now)
    {
      if !joined || !haveToken {
        return [];
      }
      if inflight.active {
        return [];
      }
      if joins.count > 0 {
        var e := joins.PopOldest();
        if e.Some? {
          StartJoin(e.value);
          out := OnInflightTimer(now);
          return;
        }
        return [];
      }
      out := RingOnToken();
    }

    method OnCliInput(t: Token)
      requires Valid()
      modifies this`cliPending, this`haveCli
      ensures Valid() && Snapshot() == ReadCli(old(Snapshot()), t)
    {
      if !tokenIn.isEmpty {
        return;
      }
      cliPending := t;
      haveCli := true;
    }

    // --------------------------------------------------------------- timers

    /** Only reads: the sleep of the event loop, from a running minimum of the armed deadlines. */
    method SleepTime(rudpPending: bool, now: int) returns (seconds: int)
      requires Valid()
      ensures seconds == SelectTimeout(Snapshot(), rudpPending, now)
    {
      if inflight.active && inflight.gotPrev && inflight.gotJoiner {
        return 0;
      }
      if rudpPending {
        return 0;
      }
      if haveToken && joined && !inflight.active {
        return 0;
      }
      var nextDeadline := 0;
      if !joined {
        nextDeadline := DueAt(request.lastSent, JOIN_REQUEST_TIMEOUT_S, now);
      }
      if inflight.active && !(inflight.gotPrev && inflight.gotJoiner) {
        nextDeadline := Earlier(nextDeadline, DueAt(inflight.lastSent, JOIN_ACCEPT_TIMEOUT_S, now));
      }
      if joins.count > 0 {
        nextDeadline := Earlier(nextDeadline, now + 1);
      }
      if ackSender.active && !ackSender.gotAckAck {
        nextDeadline := Earlier(nextDeadline, DueAt(ackSender.lastSent, JOIN_ACK_RESEND_S, now));
      }
      assert nextDeadline == NextDeadline(Snapshot(), now);
      if nextDeadline == 0 {
        return SELECT_TIMEOUT_S;
      }
      if nextDeadline <= now {
        return 0;
      }
      seconds := nextDeadline - now;
    }
  }
}
