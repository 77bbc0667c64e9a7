/** The bag of what a table's slots hold. */
module SlotBags {
  import opened Base

  ghost function BagUpTo<T>(t: seq<Option<T>>, n: nat): multiset<T>
    requires n <= |t|
  {
    if n == 0 then multiset{}
    else BagUpTo(t, n - 1) + (if t[n - 1].Some? then multiset{t[n - 1].value} else multiset{})
  }

  /** The contents of the slots, places forgotten. */
  ghost function Bag<T>(t: seq<Option<T>>): multiset<T> { BagUpTo(t, |t|) }

  ghost function Is<T>(e: Option<T>, x: T): nat { if e == Some(x) then 1 else 0 }

  ghost function CountUpTo<T>(t: seq<Option<T>>, x: T, n: nat): nat
    requires n <= |t|
  {
    if n == 0 then 0 else CountUpTo(t, x, n - 1) + Is(t[n - 1], x)
  }

  lemma LastSlot<T>(t: seq<Option<T>>, n: nat, x: T)
    requires 0 < n <= |t|
    ensures BagUpTo(t, n)[x] == BagUpTo(t, n - 1)[x] + Is(t[n - 1], x)
  {
  }

  lemma {:induction false} BagCounts<T>(t: seq<Option<T>>, x: T, n: nat)
    requires n <= |t|
    ensures BagUpTo(t, n)[x] == CountUpTo(t, x, n)
  {
    if n > 0 {
      LastSlot(t, n, x);
      BagCounts(t, x, n - 1);
    }
  }

  lemma {:induction false} CountAt<T>(t: seq<Option<T>>, k: nat, e: Option<T>, x: T, n: nat)
    requires k < |t| && n <= |t|
    ensures CountUpTo(t[k := e], x, n) + (if k < n then Is(t[k], x) else 0)
         == CountUpTo(t, x, n) + (if k < n then Is(e, x) else 0)
  {
    if n > 0 { CountAt(t, k, e, x, n - 1); }
  }

  /** Writing a slot swaps its old contents for its new ones. */
  lemma BagAt<T(!new)>(t: seq<Option<T>>, k: nat, e: Option<T>)
    requires k < |t|
    ensures forall x :: Bag(t[k := e])[x] + Is(t[k], x) == Bag(t)[x] + Is(e, x)
  {
    forall x ensures Bag(t[k := e])[x] + Is(t[k], x) == Bag(t)[x] + Is(e, x) {
      CountAt(t, k, e, x, |t|);
      BagCounts(t, x, |t|);
      BagCounts(t[k := e], x, |t|);
    }
  }

  lemma Filled<T(!new)>(t: seq<Option<T>>, k: nat, x: T)
    requires k < |t| && t[k].None?
    ensures Bag(t[k := Some(x)]) == Bag(t) + multiset{x}
  {
    BagAt(t, k, Some(x));
  }

  lemma Cleared<T(!new)>(t: seq<Option<T>>, k: nat)
    requires k < |t| && t[k].Some?
    ensures Bag(t) == Bag(t[k := None]) + multiset{t[k].value}
  {
    BagAt(t, k, None);
  }

  lemma Replaced<T(!new)>(t: seq<Option<T>>, k: nat, x: T)
    requires k < |t| && t[k].Some?
    ensures Bag(t[k := Some(x)]) + multiset{t[k].value} == Bag(t) + multiset{x}
  {
    BagAt(t, k, Some(x));
  }

  lemma {:induction false} CountPositive<T>(t: seq<Option<T>>, x: T, n: nat)
    requires n <= |t|
    ensures CountUpTo(t, x, n) > 0 <==> exists i :: 0 <= i < n && t[i] == Some(x)
  {
    if n > 0 { CountPositive(t, x, n - 1); }
  }

  lemma {:induction false} BagSize<T>(t: seq<Option<T>>, n: nat)
    requires n <= |t|
    ensures |BagUpTo(t, n)| <= n
  {
    if n > 0 { BagSize(t, n - 1); }
  }

  /** Something is in the bag exactly when a slot holds it; the bag is no larger than the table. */
  lemma InBag<T>(t: seq<Option<T>>, x: T)
    ensures x in Bag(t) <==> Some(x) in t
    ensures |Bag(t)| <= |t|
  {
    CountPositive(t, x, |t|);
    BagCounts(t, x, |t|);
    BagSize(t, |t|);
  }
}
