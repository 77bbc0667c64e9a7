/** The join table as the program keeps it: a fixed slot array with a count and an
    in-place cache, each method proved against the operation of `JoinTable`. */
module JoinStateClass {
  import opened Base
  import opened JoinTable
  import opened JoinTableLaws

  class JoinTableState {
    const joins: array<Option<PendingJoin>>
    var count: nat
    const completed: array<CompletedJoin>
    var completedCount: nat

    /** `count` is the number of used slots, and the filled cache holds distinct names. */
    ghost predicate Valid()
      reads this, joins, completed
    {
      && joins.Length == MAX_PENDING_JOINS && completed.Length == MAX_PENDING_JOINS
      && completedCount <= MAX_PENDING_JOINS
      && count == Used(joins[..])
      && DistinctNames(completed[..completedCount])
    }

    ghost function Model(): (st: JoinState)
      reads this, joins, completed
      requires Valid()
      ensures WellFormed(st)
    {
      JoinState(joins[..], completed[..completedCount])
    }

    constructor ()
      ensures Valid() && fresh(joins) && fresh(completed)
      ensures Model() == EmptyState()
    {
      joins := new Option<PendingJoin>[MAX_PENDING_JOINS](_ => None);
      completed := new CompletedJoin[MAX_PENDING_JOINS](_ => CompletedJoin(0, ""));
      count, completedCount := 0, 0;
      new;
      UsedBounds(joins[..]);
    }

    method AddPending(r: Request, ip: nat, now: int) returns (ok: bool)
      requires Valid()
      modifies this`count, joins
      ensures Valid()
      ensures (Model(), ok) == Add(old(Model()), r, ip, now)
      ensures ok <==> old(count) < MAX_PENDING_JOINS
    {
      AddAccounting(Model(), r, ip, now);
      if count >= MAX_PENDING_JOINS {
        return false;
      }
      ghost var before := joins[..];
      var i := 0;
      while i < MAX_PENDING_JOINS
        invariant 0 <= i <= MAX_PENDING_JOINS
        invariant joins[..] == before && count == Used(before)
        invariant FirstFit(before, r.name, 0) == FirstFit(before, r.name, i)
      {
        if joins[i].Some? && joins[i].value.name == r.name {
          joins[i] := Some(PendingJoin(r.requestId, joins[i].value.name, r.port, ip, now));
          UsedUpdate(before, i, joins[i]);
          assert joins[..] == before[i := joins[i]];
          return true;
        }
        if joins[i].None? {
          joins[i] := Some(PendingJoin(r.requestId, r.name, r.port, ip, now));
          count := count + 1;
          UsedUpdate(before, i, joins[i]);
          assert joins[..] == before[i := joins[i]];
          return true;
        }
        i := i + 1;
      }
      assert false;
    }

    method RemovePending(name: Name) returns (ok: bool)
      requires Valid()
      modifies this`count, joins
      ensures Valid()
      ensures (Model(), ok) == Remove(old(Model()), name)
    {
      ghost var before := joins[..];
      var i := 0;
      while i < MAX_PENDING_JOINS
        invariant 0 <= i <= MAX_PENDING_JOINS
        invariant joins[..] == before && count == Used(before)
        invariant Find(before, name, 0) == Find(before, name, i)
      {
        if joins[i].Some? && joins[i].value.name == name {
          UsedBounds(before);
          UsedUpdate(before, i, None);
          joins[i] := None;
          count := count - 1;
          assert joins[..] == before[i := None];
          return true;
        }
        i := i + 1;
      }
      ok := false;
    }

    method PopOldest() returns (e: Option<PendingJoin>)
      requires Valid()
      modifies this`count, joins
      ensures Valid()
      ensures (Model(), e) == Pop(old(Model()))
      ensures e.Some? <==> old(count) > 0
      ensures count == old(count) - Weight(e)
    {
      PopAccounting(Model());
      ghost var before := joins[..];
      var oldest: Option<nat> := None;
      var oldestTime := 0;
      var i := 0;
      while i < MAX_PENDING_JOINS
        invariant 0 <= i <= MAX_PENDING_JOINS
        invariant oldest == Oldest(before[..i])
        invariant oldest.Some? ==> oldestTime == before[oldest.value].value.lastSeen
      {
        assert before[..i + 1][..i] == before[..i];
        if joins[i].Some? && (oldest.None? || joins[i].value.lastSeen < oldestTime) {
          oldestTime := joins[i].value.lastSeen;
          oldest := Some(i);
        }
        i := i + 1;
      }
      assert before[..MAX_PENDING_JOINS] == before;
      if oldest.None? {
        return None;
      }
      e := joins[oldest.value];
      UsedUpdate(before, oldest.value, None);
      joins[oldest.value] := None;
      count := count - 1;
      assert joins[..] == before[oldest.value := None];
    }

    method DropOldest(maxRemove: nat) returns (removed: nat)
      requires Valid()
      modifies this`count, joins
      ensures Valid()
      ensures Model() == Drop(old(Model()), maxRemove).0
      ensures removed == |Drop(old(Model()), maxRemove).1|
      ensures removed == if maxRemove < old(count) then maxRemove else old(count)
    {
      removed := 0;
      ghost var all := Drop(Model(), maxRemove);
      ghost var at := DropTakesOldest(Model(), maxRemove);
      while removed < maxRemove
        invariant 0 <= removed <= maxRemove
        invariant Valid()
        invariant all.0 == Drop(Model(), maxRemove - removed).0
        invariant |all.1| == removed + |Drop(Model(), maxRemove - removed).1|
      {
        var e := PopOldest();
        if e.None? {
          break;
        }
        removed := removed + 1;
      }
    }

    /** Only reads: tells whether the name of `r` is in the cache. */
    method IsCompletedJoin(r: Request) returns (found: bool)
      requires Valid()
      ensures found <==> IsCompleted(Model().completed, r.name)
    {
      var i := 0;
      while i < completedCount
        invariant 0 <= i <= completedCount
        invariant FindCompleted(completed[..completedCount], r.name, 0)
                  == FindCompleted(completed[..completedCount], r.name, i)
      {
        if completed[i].name == r.name {
          return true;
        }
        i := i + 1;
      }
      found := false;
    }

    method RecordCompletedJoin(requestId: nat, name: Name)
      requires Valid()
      modifies this`completedCount, completed
      ensures Valid()
      ensures Model() == RecordCompleted(old(Model()), requestId, name)
    {
      ghost var c := completed[..completedCount];
      RecordKeepsCache(c, requestId, name);
      var i := 0;
      while i < completedCount
        invariant 0 <= i <= completedCount
        invariant FindCompleted(c, name, 0) == FindCompleted(c, name, i)
        invariant completed[..completedCount] == c && completedCount == old(completedCount)
      {
        if completed[i].name == name {
          completed[i] := CompletedJoin(requestId, completed[i].name);
          assert completed[..completedCount] == c[i := CompletedJoin(requestId, name)];
          return;
        }
        i := i + 1;
      }
      var idx := completedCount;
      if idx >= MAX_PENDING_JOINS {
        i := 1;
        while i < completedCount
          invariant 1 <= i <= completedCount == old(completedCount) == MAX_PENDING_JOINS == |c|
          invariant forall j | 0 <= j < i - 1 :: completed[j] == c[j + 1]
          invariant forall j | i - 1 <= j < |c| :: j >= i ==> completed[j] == c[j]
          invariant i == 1 ==> completed[0] == c[0]
        {
          completed[i - 1] := completed[i];
          i := i + 1;
        }
        idx := completedCount - 1;
      } else {
        completedCount := completedCount + 1;
      }
      completed[idx] := CompletedJoin(requestId, name);
      assert completed[..completedCount] == Record(c, requestId, name);
    }

    method PruneJoins(now: int, ttl: int)
      requires Valid()
      modifies this`count, joins
      ensures Valid()
      ensures Model() == Prune(old(Model()), now, ttl)
    {
      ghost var before := joins[..];
      var i := 0;
      while i < MAX_PENDING_JOINS
        invariant 0 <= i <= MAX_PENDING_JOINS
        invariant count == Used(joins[..])
        invariant forall j | 0 <= j < MAX_PENDING_JOINS ::
                    joins[j] == if j < i && Expired(before[j], now, ttl) then None else before[j]
      {
        if joins[i].Some? && now - joins[i].value.lastSeen > ttl {
          UsedUpdate(joins[..], i, None);
          assert joins[..][i := None] == joins[..i] + [None] + joins[i + 1..];
          joins[i] := None;
          count := count - 1;
        }
        i := i + 1;
      }
      assert joins[..] == Prune(old(Model()), now, ttl).joins;
    }

    method MarkCompleted(name: Name, requestId: nat)
      requires Valid()
      modifies this, joins, completed
      ensures Valid()
      ensures Model() == MarkCompletedAndPrunePending(old(Model()), name, requestId)
    {
      RecordCompletedJoin(requestId, name);
      var _ := RemovePending(name);
    }
  }
}
