/** What the pending table and the completed cache guarantee over their operations. */
module JoinTableLaws {
  import opened Base
  import opened JoinTable
  import opened SlotBags

  // ------------------------------------------------------ slot accounting

  function Weight(e: Option<PendingJoin>): nat { if e.Some? then 1 else 0 }

  lemma {:induction false} UsedUpdate(s: Slots, i: nat, e: Option<PendingJoin>)
    requires i < |s|
    ensures Used(s[i := e]) == Used(s) - Weight(s[i]) + Weight(e)
  {
    var last := |s| - 1;
    if i == last {
      assert s[i := e][..last] == s[..last];
    } else {
      assert s[i := e][..last] == s[..last][i := e];
      UsedUpdate(s[..last], i, e);
    }
  }

  /** The count is bounded by the table size, which it reaches only when no slot is free. */
  lemma {:induction false} UsedBounds(s: Slots)
    ensures Used(s) <= |s|
    ensures Used(s) == |s| <==> forall i | 0 <= i < |s| :: s[i].Some?
    ensures Used(s) == 0 <==> forall i | 0 <= i < |s| :: s[i].None?
  {
    if s != [] {
      var last := |s| - 1;
      UsedBounds(s[..last]);
      assert forall i | 0 <= i < last :: s[..last][i] == s[i];
    }
  }

  /** Adding fails exactly when the table is full on entry; the scan never runs off the end. */
  lemma AddAccounting(st: JoinState, r: Request, ip: nat, now: int)
    requires WellFormed(st)
    ensures var (st', ok) := Add(st, r, ip, now);
      && WellFormed(st')
      && (ok <==> Used(st.joins) < MAX_PENDING_JOINS)
      && (Used(st.joins) < MAX_PENDING_JOINS ==> FirstFit(st.joins, r.name, 0) < |st.joins|)
      && (!ok ==> st' == st)
      && (ok ==> var k := FirstFit(st.joins, r.name, 0);
                 && Used(st'.joins) == Used(st.joins) + 1 - Weight(st.joins[k])
                 && st'.joins[k] == Some(PendingJoin(r.requestId, r.name, r.port, ip, now))
                 && forall j | 0 <= j < |st.joins| && j != k :: st'.joins[j] == st.joins[j])
  {
    UsedBounds(st.joins);
    var k := FirstFit(st.joins, r.name, 0);
    if k < |st.joins| {
      UsedUpdate(st.joins, k, Some(PendingJoin(r.requestId, r.name, r.port, ip, now)));
    }
  }

  lemma RemoveAccounting(st: JoinState, name: Name)
    ensures var (st', ok) := Remove(st, name);
      && (ok <==> exists j: nat | j < |st.joins| :: Holds(st.joins, j, name))
      && Used(st'.joins) == Used(st.joins) - (if ok then 1 else 0)
  {
    var k := Find(st.joins, name, 0);
    if k < |st.joins| {
      UsedUpdate(st.joins, k, None);
      assert Holds(st.joins, k, name);
    }
  }

  /** A positive count means the pop succeeds, and it takes one entry away. */
  lemma PopAccounting(st: JoinState)
    ensures var (st', e) := Pop(st);
      && (e.Some? <==> Used(st.joins) > 0)
      && Used(st'.joins) == Used(st.joins) - Weight(e)
  {
    UsedBounds(st.joins);
    var k := Oldest(st.joins);
    if k.Some? {
      UsedUpdate(st.joins, k.value, None);
      assert st.joins[k.value].Some?;
    }
  }

  // ------------------------------------------------------------ uniqueness

  ghost predicate UniqueNames(s: Slots) {
    forall i, j | 0 <= i < j < |s| && s[i].Some? && s[j].Some? :: s[i].value.name != s[j].value.name
  }

  /** A free slot that the scan of `Add` meets before the slot already holding `name`. */
  ghost predicate HoleBeforeEntry(s: Slots, name: Name) {
    exists i, j :: 0 <= i < j < |s| && s[i].None? && Holds(s, j, name)
  }

  /** `Add` keeps the names unique exactly when no hole comes before an entry it should refresh. */
  lemma AddKeepsNamesUnique(st: JoinState, r: Request, ip: nat, now: int)
    requires WellFormed(st) && UniqueNames(st.joins)
    ensures UniqueNames(Add(st, r, ip, now).0.joins) <==>
              !(Used(st.joins) < MAX_PENDING_JOINS && HoleBeforeEntry(st.joins, r.name))
  {
    AddAccounting(st, r, ip, now);
    var s := st.joins;
    var (st', ok) := Add(st, r, ip, now);
    var k := FirstFit(s, r.name, 0);
    if ok && HoleBeforeEntry(s, r.name) {
      var i, j :| 0 <= i < j < |s| && s[i].None? && Holds(s, j, r.name);
      assert k <= i;
      assert st'.joins[j].value.name == st'.joins[k].value.name;
    }
    if ok && !UniqueNames(st'.joins) {
      var a, b :| 0 <= a < b < |s| && st'.joins[a].Some? && st'.joins[b].Some?
                  && st'.joins[a].value.name == st'.joins[b].value.name;
      assert s[k].None? && Holds(s, b, r.name);
    }
  }

  /** The claim "a name is pending at most once" is false of the code: from an empty table, two requests
      and the removal of the first leave a hole in front of the second, which a repeated request then fills. */
  lemma DuplicateNameExists(a: Request, r: Request, ip: nat, now: int)
    requires a.name != r.name
    ensures var st := Remove(Add(Add(EmptyState(), a, ip, now).0, r, ip, now).0, a.name).0;
      && WellFormed(st) && UniqueNames(st.joins) && !UniqueNames(Add(st, r, ip, now).0.joins)
  {
    var st0 := EmptyState();
    UsedBounds(st0.joins);
    AddAccounting(st0, a, ip, now);
    var st1 := Add(st0, a, ip, now).0;
    AddAccounting(st1, r, ip, now);
    var st2 := Add(st1, r, ip, now).0;
    assert FirstFit(st0.joins, a.name, 0) == 0;
    assert FirstFit(st1.joins, r.name, 0) == 1;
    var st := Remove(st2, a.name).0;
    assert Find(st2.joins, a.name, 0) == 0;
    RemoveAccounting(st2, a.name);
    AddKeepsNamesUnique(st, r, ip, now);
    assert st.joins[0].None? && Holds(st.joins, 1, r.name);
  }

  /** `t` is `s` with some entries taken out. */
  ghost predicate OnlyCleared(t: Slots, s: Slots) {
    |t| == |s| && forall i | 0 <= i < |s| && t[i].Some? :: t[i] == s[i]
  }

  lemma OnlyClearedOps(st: JoinState, name: Name, requestId: nat, now: int, ttl: int)
    ensures OnlyCleared(Remove(st, name).0.joins, st.joins)
    ensures OnlyCleared(MarkCompletedAndPrunePending(st, name, requestId).joins, st.joins)
    ensures OnlyCleared(Prune(st, now, ttl).joins, st.joins)
    ensures OnlyCleared(Pop(st).0.joins, st.joins)
  {
  }

  // ------------------------------------------------- two entries of one name

  ghost predicate Present(s: Slots, name: Name) { exists i: nat :: i < |s| && Holds(s, i, name) }

  ghost predicate Twice(s: Slots, name: Name) {
    exists i: nat, j: nat :: i < j < |s| && Holds(s, i, name) && Holds(s, j, name)
  }

  ghost predicate Thrice(s: Slots, name: Name) {
    exists i: nat, j: nat, k: nat :: i < j < k < |s| && Holds(s, i, name) && Holds(s, j, name) && Holds(s, k, name)
  }

  ghost predicate AtMostTwo(s: Slots) { forall name :: !Thrice(s, name) }

  /** A free slot that the scan of `Add` meets before two entries of `name`. */
  ghost predicate HoleBeforeTwo(s: Slots, name: Name) {
    exists i: nat, j: nat, k: nat :: i < j < k < |s| && s[i].None? && Holds(s, j, name) && Holds(s, k, name)
  }

  lemma ClearedHasFewer(t: Slots, s: Slots, name: Name)
    requires OnlyCleared(t, s)
    ensures Twice(t, name) ==> Twice(s, name)
    ensures Thrice(t, name) ==> Thrice(s, name)
  {
    if Twice(t, name) {
      var i: nat, j: nat :| i < j < |t| && Holds(t, i, name) && Holds(t, j, name);
      assert Holds(s, i, name) && Holds(s, j, name);
    }
    if Thrice(t, name) {
      var i: nat, j: nat, k: nat :| i < j < k < |t| && Holds(t, i, name) && Holds(t, j, name) && Holds(t, k, name);
      assert Holds(s, i, name) && Holds(s, j, name) && Holds(s, k, name);
    }
  }

  /** Writing an entry changes nothing for other names. */
  lemma WriteElsewhere(s: Slots, k: nat, e: PendingJoin, name: Name)
    requires k < |s| && (s[k].Some? ==> s[k].value.name == e.name) && name != e.name
    ensures Twice(s[k := Some(e)], name) ==> Twice(s, name)
    ensures Thrice(s[k := Some(e)], name) ==> Thrice(s, name)
  {
    assert forall i: nat | i < |s| && Holds(s[k := Some(e)], i, name) :: Holds(s, i, name);
    var t := s[k := Some(e)];
    if Twice(t, name) {
      var i: nat, j: nat :| i < j < |t| && Holds(t, i, name) && Holds(t, j, name);
      assert Holds(s, i, name) && Holds(s, j, name);
    }
    if Thrice(t, name) {
      var a: nat, b: nat, c: nat :| a < b < c < |t| && Holds(t, a, name) && Holds(t, b, name) && Holds(t, c, name);
      assert Holds(s, a, name) && Holds(s, b, name) && Holds(s, c, name);
    }
  }

  /** `Add` keeps every name at two entries at most exactly when no hole comes before two of its name. */
  lemma AddKeepsAtMostTwo(st: JoinState, r: Request, ip: nat, now: int)
    requires WellFormed(st) && AtMostTwo(st.joins)
    ensures AtMostTwo(Add(st, r, ip, now).0.joins) <==>
              !(Used(st.joins) < MAX_PENDING_JOINS && HoleBeforeTwo(st.joins, r.name))
  {
    AddAccounting(st, r, ip, now);
    var s, k, t := st.joins, FirstFit(st.joins, r.name, 0), Add(st, r, ip, now).0.joins;
    if Used(s) < MAX_PENDING_JOINS {
      var e := PendingJoin(r.requestId, r.name, r.port, ip, now);
      forall name | name != r.name ensures !Thrice(t, name) { WriteElsewhere(s, k, e, name); }
      AddedThird(s, k, e);
    }
  }

  lemma AddedThird(s: Slots, k: nat, e: PendingJoin)
    requires k == FirstFit(s, e.name, 0) < |s| && !Thrice(s, e.name)
    ensures Thrice(s[k := Some(e)], e.name) <==> HoleBeforeTwo(s, e.name)
  {
    var t := s[k := Some(e)];
    if HoleBeforeTwo(s, e.name) {
      var h: nat, i: nat, j: nat :| h < i < j < |s| && s[h].None? && Holds(s, i, e.name) && Holds(s, j, e.name);
      assert k <= h;
      assert Holds(t, k, e.name) && Holds(t, i, e.name) && Holds(t, j, e.name);
    }
    if Thrice(t, e.name) {
      var a: nat, b: nat, c: nat :| a < b < c < |t| && Holds(t, a, e.name) && Holds(t, b, e.name) &&
        Holds(t, c, e.name);
      assert k <= a;
      assert Holds(s, b, e.name) && Holds(s, c, e.name);
      assert k < a ==> Holds(s, a, e.name);
      assert s[k].Some? ==> Holds(s, k, e.name);
    }
  }

  /** One removal takes a name out of the table if and only if it was there once at most. */
  lemma RemoveTakesNameOut(st: JoinState, name: Name)
    ensures Present(Remove(st, name).0.joins, name) <==> Twice(st.joins, name)
  {
    var s, t, k := st.joins, Remove(st, name).0.joins, Find(st.joins, name, 0);
    if Twice(s, name) {
      var i: nat, j: nat :| i < j < |s| && Holds(s, i, name) && Holds(s, j, name);
      assert Holds(t, j, name);
    }
    if Present(t, name) {
      var j: nat :| j < |t| && Holds(t, j, name);
      assert Holds(s, k, name) && Holds(s, j, name) && k < j;
    }
  }

  /** Marking a name completed puts it in the cache and takes one pending entry of it out. */
  lemma MarkAccounting(st: JoinState, name: Name, requestId: nat)
    requires WellFormed(st)
    ensures var st' := MarkCompletedAndPrunePending(st, name, requestId);
      && InCache(st'.completed, name) && OnlyCleared(st'.joins, st.joins)
      && Used(st'.joins) == Used(st.joins) - (if Present(st.joins, name) then 1 else 0)
      && (Present(st'.joins, name) <==> Twice(st.joins, name))
  {
    var st1 := RecordCompleted(st, requestId, name);
    RecordKeepsCache(st.completed, requestId, name);
    OnlyClearedOps(st, name, requestId, 0, 0);
    RemoveAccounting(st1, name);
    RemoveTakesNameOut(st1, name);
  }

  /** The pop takes one entry of its name. */
  lemma PopTakesOne(st: JoinState)
    requires Pop(st).1.Some?
    ensures Twice(Pop(st).0.joins, Pop(st).1.value.name) <==> Thrice(st.joins, Pop(st).1.value.name)
  {
    var s, t, k, name := st.joins, Pop(st).0.joins, Oldest(st.joins).value, Pop(st).1.value.name;
    assert forall i: nat | i < |s| :: Holds(t, i, name) <==> i != k && Holds(s, i, name);
    if Twice(t, name) {
      var i: nat, j: nat :| i < j < |t| && Holds(t, i, name) && Holds(t, j, name);
      assert Holds(s, i, name) && Holds(s, j, name) && Holds(s, k, name);
      assert k < i < j || i < k < j || i < j < k;
    }
    if Thrice(s, name) {
      var a: nat, b: nat, c: nat :| a < b < c < |s| && Holds(s, a, name) && Holds(s, b, name) && Holds(s, c, name);
      assert a != k ==> Holds(t, a, name);
      assert b != k ==> Holds(t, b, name);
      assert c != k ==> Holds(t, c, name);
    }
  }

  /** The start of a join takes one entry and its completion another: one is left if and only if there were
      three. */
  lemma ThirdCopyStays(st: JoinState)
    requires Pop(st).1.Some?
    ensures var (st1, e) := Pop(st);
      Present(Remove(st1, e.value.name).0.joins, e.value.name) <==> Thrice(st.joins, e.value.name)
  {
    PopTakesOne(st);
    RemoveTakesNameOut(Pop(st).0, Pop(st).1.value.name);
  }

  // ---------------------------------------------------------- oldest first

  /** Pop order: earlier `lastSeen` first, lower slot first on ties. */
  ghost predicate Before(s: Slots, a: nat, b: nat)
    requires a < |s| && b < |s| && s[a].Some? && s[b].Some?
  {
    s[a].value.lastSeen < s[b].value.lastSeen || (s[a].value.lastSeen == s[b].value.lastSeen && a < b)
  }

  lemma OldestIsFirst(s: Slots, k: nat, j: nat)
    requires IsOldest(s, k) && j < |s| && s[j].Some? && j != k
    ensures Before(s, k, j)
  {
  }

  lemma DropOneMore(st: JoinState, n: nat)
    requires n > 0 && Pop(st).1.Some?
    ensures var (st1, e) := Pop(st);
      Drop(st, n) == (Drop(st1, n - 1).0, [e.value] + Drop(st1, n - 1).1)
  {
  }

  /** `t` is `s` without the slots `at`, which held `removed`, in pop order, before all that is left. */
  ghost predicate TakenFirst(s: Slots, t: Slots, removed: seq<PendingJoin>, at: seq<nat>) {
    && |at| == |removed| && |t| == |s|
    && (forall i | 0 <= i < |at| :: at[i] < |s| && s[at[i]] == Some(removed[i]))
    && (forall i, j | 0 <= i < j < |at| :: Before(s, at[i], at[j]))
    && (forall j | 0 <= j < |s| :: t[j] == if j in at then None else s[j])
    && (forall i, j: nat | 0 <= i < |at| && j < |s| && t[j].Some? :: Before(s, at[i], j))
  }

  lemma TakenOneMore(s: Slots, k: nat, t: Slots, removed: seq<PendingJoin>, at: seq<nat>)
    requires IsOldest(s, k) && TakenFirst(s[k := None], t, removed, at)
    ensures TakenFirst(s, t, [s[k].value] + removed, [k] + at)
  {
    var s1 := s[k := None];
    forall j: nat | j < |s| && s1[j].Some? ensures j != k && s[j] == s1[j] && Before(s, k, j) {
      OldestIsFirst(s, k, j);
    }
    forall i | 0 <= i < |at| ensures s1[at[i]].Some? {}
  }

  /** Dropping `n` entries takes exactly the min(n, count) first in pop order, in
      that order, and leaves every other slot alone. `at` lists the slots taken. */
  lemma {:induction false} DropTakesOldest(st: JoinState, n: nat) returns (at: seq<nat>)
    ensures var (st', removed) := Drop(st, n);
      && TakenFirst(st.joins, st'.joins, removed, at) && st'.completed == st.completed
      && |removed| == (if n < Used(st.joins) then n else Used(st.joins))
    decreases n
  {
    PopAccounting(st);
    var (st1, e) := Pop(st);
    if n == 0 || e.None? {
      at := [];
    } else {
      var rest := DropTakesOldest(st1, n - 1);
      at := [Oldest(st.joins).value] + rest;
      DropOneMore(st, n);
      TakenOneMore(st.joins, Oldest(st.joins).value, Drop(st1, n - 1).0.joins, Drop(st1, n - 1).1, rest);
    }
  }

  /** The entries of the table, slots forgotten. */
  ghost function Entries(s: Slots): multiset<PendingJoin> { Bag(s) }

  lemma PopConserves(st: JoinState)
    requires Pop(st).1.Some?
    ensures Entries(st.joins) == Entries(Pop(st).0.joins) + multiset{Pop(st).1.value}
  {
    Cleared(st.joins, Oldest(st.joins).value);
  }

  /** What was taken from `s` together with what `t` still holds is what `s` held. */
  ghost predicate Conserved(s: Slots, t: Slots, removed: seq<PendingJoin>) {
    Entries(s) == Entries(t) + multiset(removed)
  }

  lemma ConservedMore(s: Slots, s1: Slots, t: Slots, e: PendingJoin, rest: seq<PendingJoin>)
    requires Entries(s) == Entries(s1) + multiset{e} && Conserved(s1, t, rest)
    ensures Conserved(s, t, [e] + rest)
  {
    assert multiset([e] + rest) == multiset{e} + multiset(rest);
  }

  lemma ConservedNone(s: Slots)
    ensures Conserved(s, s, [])
  {
  }

  lemma DropConservesMore(st: JoinState, n: nat)
    requires n > 0 && Pop(st).1.Some?
    requires Conserved(Pop(st).0.joins, Drop(Pop(st).0, n - 1).0.joins, Drop(Pop(st).0, n - 1).1)
    ensures Conserved(st.joins, Drop(st, n).0.joins, Drop(st, n).1)
  {
    var (st1, e) := Pop(st);
    var (st2, rest) := Drop(st1, n - 1);
    PopConserves(st);
    DropOneMore(st, n);
    ConservedMore(st.joins, st1.joins, st2.joins, e.value, rest);
  }

  /** Removed and kept entries together are the entries there were. */
  lemma {:induction false} DropConserves(st: JoinState, n: nat)
    ensures Conserved(st.joins, Drop(st, n).0.joins, Drop(st, n).1)
    decreases n
  {
    if n == 0 || Pop(st).1.None? {
      ConservedNone(st.joins);
    } else {
      DropConserves(Pop(st).0, n - 1);
      DropConservesMore(st, n);
    }
  }

  /** Dropping as many entries as are pending, as a version advance does, empties the table. */
  lemma DropAllEmpties(st: JoinState)
    ensures var (st', removed) := Drop(st, Used(st.joins));
      && |removed| == Used(st.joins) && Used(st'.joins) == 0
      && |st'.joins| == |st.joins| && st'.completed == st.completed
      && forall j | 0 <= j < |st.joins| :: st'.joins[j].None?
  {
    var at := DropTakesOldest(st, Used(st.joins));
    UsedAfterDrop(st, Used(st.joins));
    UsedBounds(Drop(st, Used(st.joins)).0.joins);
  }

  lemma {:induction false} UsedAfterDrop(st: JoinState, n: nat)
    ensures var (st', removed) := Drop(st, n); Used(st'.joins) == Used(st.joins) - |removed|
    decreases n
  {
    PopAccounting(st);
    var (st1, e) := Pop(st);
    if n > 0 && e.Some? { UsedAfterDrop(st1, n - 1); }
  }

  // ------------------------------------------------------- completed cache

  ghost predicate InCache(c: seq<CompletedJoin>, name: Name) {
    exists i :: 0 <= i < |c| && c[i].name == name
  }

  lemma IsCompletedMeansInCache(c: seq<CompletedJoin>, name: Name)
    ensures IsCompleted(c, name) <==> InCache(c, name)
  {
  }

  /** Recording keeps names distinct and the cache bounded. A known name only changes its id;
      an unknown one goes to the end, pushing out the oldest when the cache is full. */
  lemma RecordKeepsCache(c: seq<CompletedJoin>, requestId: nat, name: Name)
    requires DistinctNames(c) && |c| <= MAX_PENDING_JOINS
    ensures var c' := Record(c, requestId, name);
      && DistinctNames(c') && |c'| <= MAX_PENDING_JOINS && InCache(c', name)
      && (InCache(c, name) ==> |c'| == |c| && forall i | 0 <= i < |c| ::
            c'[i] == if c[i].name == name then CompletedJoin(requestId, name) else c[i])
      && (!InCache(c, name) ==>
            c' == (if |c| == MAX_PENDING_JOINS then c[1..] else c) + [CompletedJoin(requestId, name)])
  {
    var i, c' := FindCompleted(c, name, 0), Record(c, requestId, name);
    if i < |c| {
      assert c'[i].name == name;
    } else {
      assert c'[|c'| - 1].name == name;
    }
  }

  function RecordAll(c: seq<CompletedJoin>, later: seq<CompletedJoin>): seq<CompletedJoin>
    decreases |later|
  {
    if later == [] then c else RecordAll(Record(c, later[0].requestId, later[0].name), later[1..])
  }

  /** An entry at index `i` of the cache survives as long as the recordings before it is pushed out. */
  lemma {:induction false} SurvivesRecordings(c: seq<CompletedJoin>, i: nat, later: seq<CompletedJoin>)
    requires DistinctNames(c) && |c| <= MAX_PENDING_JOINS
    requires i < |c| && |later| <= i + MAX_PENDING_JOINS - |c|
    ensures InCache(RecordAll(c, later), c[i].name)
    decreases |later|
  {
    if later == [] {
      assert c[i].name == c[i].name;
    } else {
      var r := later[0];
      RecordKeepsCache(c, r.requestId, r.name);
      var c1 := Record(c, r.requestId, r.name);
      var i1 := if !InCache(c, r.name) && |c| == MAX_PENDING_JOINS then i - 1 else i;
      assert c1[i1].name == c[i].name;
      SurvivesRecordings(c1, i1, later[1..]);
    }
  }

  /** A newly recorded name is still reported completed after any 31 further recordings. */
  lemma NewNameSurvives31(c: seq<CompletedJoin>, requestId: nat, name: Name, later: seq<CompletedJoin>)
    requires DistinctNames(c) && |c| <= MAX_PENDING_JOINS
    requires !IsCompleted(c, name) && |later| <= 31
    ensures IsCompleted(RecordAll(Record(c, requestId, name), later), name)
  {
    RecordKeepsCache(c, requestId, name);
    var c1 := Record(c, requestId, name);
    SurvivesRecordings(c1, |c1| - 1, later);
    IsCompletedMeansInCache(RecordAll(c1, later), name);
  }

  /** Thirty-two recordings of other, new names do push it out: 31 is the exact bound. */
  lemma {:induction false} PushedOut(c: seq<CompletedJoin>, i: nat, later: seq<CompletedJoin>)
    requires DistinctNames(c) && |c| <= MAX_PENDING_JOINS
    requires i < |c| && |later| > i + MAX_PENDING_JOINS - |c|
    requires DistinctNames(later)
    requires forall a, b | 0 <= a < |later| && 0 <= b < |c| :: later[a].name != c[b].name
    ensures !InCache(RecordAll(c, later), c[i].name)
    decreases |later|
  {
    var r := later[0];
    RecordKeepsCache(c, r.requestId, r.name);
    assert !InCache(c, r.name);
    var c1 := Record(c, r.requestId, r.name);
    if |c| == MAX_PENDING_JOINS && i == 0 {
      StaysOut(c1, c[i].name, later[1..]);
    } else {
      var i1 := if |c| == MAX_PENDING_JOINS then i - 1 else i;
      assert c1[i1].name == c[i].name;
      PushedOut(c1, i1, later[1..]);
    }
  }

  lemma {:induction false} StaysOut(c: seq<CompletedJoin>, name: Name, later: seq<CompletedJoin>)
    requires DistinctNames(c) && |c| <= MAX_PENDING_JOINS
    requires !InCache(c, name) && forall a | 0 <= a < |later| :: later[a].name != name
    ensures !InCache(RecordAll(c, later), name)
    decreases |later|
  {
    if later != [] {
      RecordKeepsCache(c, later[0].requestId, later[0].name);
      StaysOut(Record(c, later[0].requestId, later[0].name), name, later[1..]);
    }
  }
}
