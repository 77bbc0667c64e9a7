/** The table of pending joins and the cache of completed ones, as values. */
module JoinTable {
  import opened Base

  datatype Request = Request(name: Name, requestId: nat, port: nat)

  datatype PendingJoin = PendingJoin(requestId: nat, name: Name, port: nat, ip: nat, lastSeen: int)

  datatype CompletedJoin = CompletedJoin(requestId: nat, name: Name)

  type Slots = seq<Option<PendingJoin>>

  /** `joins` keeps its holes; `completed` is the filled part of the cache, oldest first. */
  datatype JoinState = JoinState(joins: Slots, completed: seq<CompletedJoin>)

  ghost predicate WellFormed(st: JoinState) {
    && |st.joins| == MAX_PENDING_JOINS
    && |st.completed| <= MAX_PENDING_JOINS
    && DistinctNames(st.completed)
  }

  function EmptyState(): JoinState { JoinState(seq(MAX_PENDING_JOINS, _ => None), []) }

  // ---------------------------------------------------------------- slots

  /** The number of used slots. */
  function Used(s: Slots): nat {
    if s == [] then 0
    else Used(s[..|s| - 1]) + (if s[|s| - 1].Some? then 1 else 0)
  }

  predicate Holds(s: Slots, i: nat, name: Name)
    requires i < |s|
  {
    s[i].Some? && s[i].value.name == name
  }

  /** First slot at or after `i` that is free or already holds `name`; |s| if there is none. */
  function FirstFit(s: Slots, name: Name, i: nat): (k: nat)
    requires i <= |s|
    ensures i <= k <= |s|
    ensures k < |s| ==> s[k].None? || s[k].value.name == name
    ensures forall j | i <= j < k :: s[j].Some? && s[j].value.name != name
    decreases |s| - i
  {
    if i == |s| || s[i].None? || s[i].value.name == name then i else FirstFit(s, name, i + 1)
  }

  /** First slot at or after `i` that holds `name`; |s| if there is none. */
  function Find(s: Slots, name: Name, i: nat): (k: nat)
    requires i <= |s|
    ensures i <= k <= |s|
    ensures k < |s| ==> Holds(s, k, name)
    ensures forall j | i <= j < k :: !Holds(s, j, name)
    decreases |s| - i
  {
    if i == |s| || Holds(s, i, name) then i else Find(s, name, i + 1)
  }

  /** The slot a pop takes: least `lastSeen`, lowest slot on ties. */
  ghost predicate IsOldest(s: Slots, k: nat) {
    && k < |s| && s[k].Some?
    && forall j | 0 <= j < |s| && s[j].Some? ::
         s[k].value.lastSeen <= s[j].value.lastSeen && (j < k ==> s[k].value.lastSeen < s[j].value.lastSeen)
  }

  function Oldest(s: Slots): (k: Option<nat>)
    ensures k.Some? ==> IsOldest(s, k.value)
    ensures k.None? ==> forall j | 0 <= j < |s| :: s[j].None?
  {
    if s == [] then None
    else
      var last := |s| - 1;
      var k := Oldest(s[..last]);
      if s[last].Some? && (k.None? || s[last].value.lastSeen < s[k.value].value.lastSeen) then Some(last) else k
  }

  // ----------------------------------------------------------- operations

  function Add(st: JoinState, r: Request, ip: nat, now: int): (res: (JoinState, bool)) {
    var i := FirstFit(st.joins, r.name, 0);
    if Used(st.joins) >= MAX_PENDING_JOINS || i == |st.joins| then (st, false)
    else (st.(joins := st.joins[i := Some(PendingJoin(r.requestId, r.name, r.port, ip, now))]), true)
  }

  function Remove(st: JoinState, name: Name): (res: (JoinState, bool)) {
    var i := Find(st.joins, name, 0);
    if i == |st.joins| then (st, false) else (st.(joins := st.joins[i := None]), true)
  }

  function Pop(st: JoinState): (res: (JoinState, Option<PendingJoin>)) {
    match Oldest(st.joins)
    case None => (st, None)
    case Some(k) => (st.(joins := st.joins[k := None]), st.joins[k])
  }

  /** Pops up to `n` entries; the second component lists them in the order they came out. */
  function Drop(st: JoinState, n: nat): (res: (JoinState, seq<PendingJoin>))
    ensures |res.1| <= n
    decreases n
  {
    if n == 0 then (st, [])
    else
      var (st1, e) := Pop(st);
      if e.None? then (st, [])
      else
        var (st2, rest) := Drop(st1, n - 1);
        (st2, [e.value] + rest)
  }

  predicate Expired(e: Option<PendingJoin>, now: int, ttl: int) {
    e.Some? && now - e.value.lastSeen > ttl
  }

  function Prune(st: JoinState, now: int, ttl: int): JoinState {
    st.(joins := seq(|st.joins|, i requires 0 <= i < |st.joins| =>
      if Expired(st.joins[i], now, ttl) then None else st.joins[i]))
  }

  // ------------------------------------------------------- completed cache

  ghost predicate DistinctNames(c: seq<CompletedJoin>) {
    forall i, j | 0 <= i < j < |c| :: c[i].name != c[j].name
  }

  function FindCompleted(c: seq<CompletedJoin>, name: Name, i: nat): (k: nat)
    requires i <= |c|
    ensures i <= k <= |c|
    ensures k < |c| ==> c[k].name == name
    ensures forall j | i <= j < k :: c[j].name != name
    decreases |c| - i
  {
    if i == |c| || c[i].name == name then i else FindCompleted(c, name, i + 1)
  }

  predicate IsCompleted(c: seq<CompletedJoin>, name: Name) {
    FindCompleted(c, name, 0) < |c|
  }

  function Record(c: seq<CompletedJoin>, requestId: nat, name: Name): seq<CompletedJoin> {
    var i := FindCompleted(c, name, 0);
    if i < |c| then c[i := CompletedJoin(requestId, name)]
    else if |c| >= MAX_PENDING_JOINS then c[1..] + [CompletedJoin(requestId, name)]
    else c + [CompletedJoin(requestId, name)]
  }

  function RecordCompleted(st: JoinState, requestId: nat, name: Name): JoinState {
    st.(completed := Record(st.completed, requestId, name))
  }

  function MarkCompletedAndPrunePending(st: JoinState, name: Name, requestId: nat): JoinState {
    Remove(RecordCompleted(st, requestId, name), name).0
  }
}
