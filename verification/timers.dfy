/** The event loop never sleeps past a deadline, and a timer that is due acts. */
module Timers {
  import opened Base
  import opened JoinTable
  import opened NodeModel

  /** The deadlines of the three timers, while they are armed. */
  function RequestDue(nd: Node, now: int): Option<int> {
    if nd.joined then None else Some(DueAt(nd.request.lastSent, JOIN_REQUEST_TIMEOUT_S, now))
  }

  function AcceptDue(nd: Node, now: int): Option<int> {
    if nd.inflight.active && !(nd.inflight.gotPrev && nd.inflight.gotJoiner)
    then Some(DueAt(nd.inflight.lastSent, JOIN_ACCEPT_TIMEOUT_S, now)) else None
  }

  function AckDue(nd: Node, now: int): Option<int> {
    if nd.ackSender.active && !nd.ackSender.gotAckAck
    then Some(DueAt(nd.ackSender.lastSent, JOIN_ACK_RESEND_S, now)) else None
  }

  /** A join can be completed, a message is parked, or the token can be used. */
  predicate WorkAtHand(nd: Node, rudpPending: bool) {
    var f := nd.inflight;
    || (f.active && f.gotPrev && f.gotJoiner) || rudpPending || (nd.joined && nd.haveToken && !f.active)
  }

  /** Clock readings are positive, so a deadline of 0 can stand for none. */
  ghost predicate ClockOk(nd: Node, now: int) {
    now > 0 && nd.request.lastSent >= 0 && nd.inflight.lastSent >= 0 && nd.ackSender.lastSent >= 0
  }

  ghost predicate WakesInTime(seconds: int, due: Option<int>, now: int) {
    due.Some? ==> seconds <= 0 || now + seconds <= due.value
  }

  /** The sleep ends no later than any armed deadline, is never negative, and is at most ten
      seconds when nothing is armed or waiting. */
  lemma SleepsNoLonger(nd: Node, rudpPending: bool, now: int)
    requires ClockOk(nd, now)
    ensures var seconds := SelectTimeout(nd, rudpPending, now);
      && seconds >= 0
      && WakesInTime(seconds, RequestDue(nd, now), now)
      && WakesInTime(seconds, AcceptDue(nd, now), now)
      && WakesInTime(seconds, AckDue(nd, now), now)
      && (WorkAtHand(nd, rudpPending) ==> seconds == 0)
      && (Used(nd.joins.joins) > 0 ==> seconds <= 1)
  {
  }

  /** The sleep is also no shorter than needed: it ends now, at a deadline, or for a full
      second with joins pending, or after ten. */
  lemma SleepsForAReason(nd: Node, rudpPending: bool, now: int)
    requires ClockOk(nd, now) && !WorkAtHand(nd, rudpPending)
    ensures var seconds, pending := SelectTimeout(nd, rudpPending, now), Used(nd.joins.joins) > 0;
      || (exists due :: due in [RequestDue(nd, now), AcceptDue(nd, now), AckDue(nd, now)] && due.Some?
                        && seconds == (if due.value <= now then 0 else due.value - now))
      || (pending && seconds == 1)
      || (RequestDue(nd, now).None? && AcceptDue(nd, now).None? && AckDue(nd, now).None? && !pending
          && seconds == SELECT_TIMEOUT_S)
  {
    var dues := [RequestDue(nd, now), AcceptDue(nd, now), AckDue(nd, now)];
    assert dues[0] in dues && dues[1] in dues && dues[2] in dues;
  }

  /** The request timer acts exactly when due: it then moves its deadline on, or stops the node. */
  lemma RequestTimerActs(nd: Node, now: int)
    requires ClockOk(nd, now) && RequestDue(nd, now).Some?
    ensures var (nd', out, ok) := RequestTick(nd, now);
      if RequestDue(nd, now).value <= now
      then !ok || (out != [] && RequestDue(nd', now).Some? && RequestDue(nd', now).value > now)
      else ok && out == [] && nd' == nd
  {
  }

  /** The accept timer acts exactly when due, and then moves its deadline on. */
  lemma AcceptTimerActs(nd: Node, now: int)
    requires ClockOk(nd, now) && AcceptDue(nd, now).Some?
    ensures var (nd', out) := InflightTick(nd, now);
      if AcceptDue(nd, now).value <= now
      then out != [] && AcceptDue(nd', now).Some? && AcceptDue(nd', now).value > now
      else out == [] && nd' == nd
  {
  }

  /** The acknowledgement timer acts exactly when due, and then moves its deadline on or disarms. */
  lemma AckTimerActs(nd: Node, now: int)
    requires ClockOk(nd, now) && AckDue(nd, now).Some?
    ensures var (nd', out) := AckSenderTick(nd, now);
      if AckDue(nd, now).value <= now
      then AckDue(nd', now).None? || (out != [] && AckDue(nd', now).value > now)
      else out == [] && nd' == nd
  {
  }
}
