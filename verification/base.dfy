/** Names, options and the constants of the ring shared by every layer. */
module Base {

  datatype Option<+T> = None | Some(value: T)

  /** A node name. Names are NUL-free and shorter than 32 bytes, so comparing
      the fixed-size buffers is comparing the names. */
  type Name = string

  const MAX_PENDING_JOINS := 32

  /** Versions are unsigned 32-bit counters. */
  const U32_SIZE := 0x1_0000_0000

  /** First empty place of a table at or after `i`; its length if there is none. */
  function FirstFree<T>(t: seq<Option<T>>, i: nat): (k: nat)
    requires i <= |t|
    ensures i <= k <= |t|
    ensures k < |t| ==> t[k].None?
    ensures forall j | i <= j < k :: t[j].Some?
    decreases |t| - i
  {
    if i == |t| || t[i].None? then i else FirstFree(t, i + 1)
  }

  /** `n` steps of `f`, which gives nothing where there is no next step, lead from `x` to `y`. */
  predicate Iterates<T(==)>(f: T -> Option<T>, x: T, n: nat, y: T) {
    if n == 0 then y == x else f(x).Some? && Iterates(f, f(x).value, n - 1, y)
  }

  lemma {:induction false} IteratesOn<T>(f: T -> Option<T>, x: T, m: nat, y: T, n: nat, z: T)
    requires Iterates(f, x, m, y) && Iterates(f, y, n, z)
    ensures Iterates(f, x, m + n, z)
    decreases m
  {
    if m > 0 { IteratesOn(f, f(x).value, m - 1, y, n, z); }
  }
}
