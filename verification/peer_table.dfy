/** The table that keeps a pair of alternating bits for each peer. */
module PeerBits {
  import opened Base
  import opened ParkedFrames

  const MAX_RUDP_PEERS := 32

  datatype Bits = Bits(send: Bit, expected: Bit)

  datatype Peer = Peer(addr: Addr, bits: Bits)

  type Peers = seq<Option<Peer>>

  predicate At(e: Option<Peer>, addr: Addr) { e.Some? && e.value.addr == addr }

  function Lookup(t: Peers, addr: Addr, i: nat): (k: nat)
    requires i <= |t|
    ensures i <= k <= |t|
    ensures k < |t| ==> At(t[k], addr)
    ensures forall j | i <= j < k :: !At(t[j], addr)
    decreases |t| - i
  {
    if i == |t| || At(t[i], addr) then i else Lookup(t, addr, i + 1)
  }

  /** The table after the call, and the slot found; the table's length stands for a null result. */
  function Get(t: Peers, addr: Addr, create: bool): (Peers, nat) {
    var k := Lookup(t, addr, 0);
    if k < |t| || !create then (t, k)
    else
      var free := FirstFree(t, 0);
      if free < |t| then (t[free := Some(Peer(addr, Bits(0, 0)))], free) else (t, free)
  }

  function Other(b: Bit): Bit { 1 - b }

  function FlipSend(t: Peers, k: nat): Peers
    requires k < |t| && t[k].Some?
  {
    var p := t[k].value;
    t[k := Some(p.(bits := p.bits.(send := Other(p.bits.send))))]
  }

  function FlipExpected(t: Peers, k: nat): Peers
    requires k < |t| && t[k].Some?
  {
    var p := t[k].value;
    t[k := Some(p.(bits := p.bits.(expected := Other(p.bits.expected))))]
  }

  // -------------------------------------------- what traffic does to the table

  /** A send that was acknowledged or not, a receive that was accepted or a duplicate. */
  datatype Traffic = Sent(addr: Addr, acknowledged: bool) | Received(addr: Addr, expected: bool)

  function Carry(t: Peers, x: Traffic): Peers {
    var (u, k) := Get(t, x.addr, true);
    if k == |t| then u
    else match x
      case Sent(_, acknowledged) => if acknowledged then FlipSend(u, k) else u
      case Received(_, expected) => if expected then FlipExpected(u, k) else u
  }

  function CarryAll(t: Peers, xs: seq<Traffic>): Peers
    decreases |xs|
  {
    if xs == [] then t else CarryAll(Carry(t, xs[0]), xs[1..])
  }

  // ------------------------------------- the same on a partial map of bounded size

  function Entry(m: map<Addr, Bits>, addr: Addr, capacity: nat): map<Addr, Bits> {
    if addr in m || |m| >= capacity then m else m[addr := Bits(0, 0)]
  }

  function CarryMap(m: map<Addr, Bits>, x: Traffic, capacity: nat): map<Addr, Bits> {
    var n := Entry(m, x.addr, capacity);
    if x.addr !in n then n
    else match x
      case Sent(a, acknowledged) => if acknowledged then n[a := n[a].(send := Other(n[a].send))] else n
      case Received(a, expected) => if expected then n[a := n[a].(expected := Other(n[a].expected))] else n
  }

  function CarryMapAll(m: map<Addr, Bits>, xs: seq<Traffic>, capacity: nat): map<Addr, Bits>
    decreases |xs|
  {
    if xs == [] then m else CarryMapAll(CarryMap(m, xs[0], capacity), xs[1..], capacity)
  }

  ghost predicate UniqueAddrs(t: Peers) {
    forall i, j | 0 <= i < j < |t| && t[i].Some? :: !At(t[j], t[i].value.addr)
  }

  function AsMap(t: Peers): map<Addr, Bits> {
    if t == [] then map[]
    else
      var m, e := AsMap(t[..|t| - 1]), t[|t| - 1];
      if e.Some? then m[e.value.addr := e.value.bits] else m
  }

  /** What the map holds for an address is what the address's slot holds. */
  lemma {:induction false} MapHolds(t: Peers, addr: Addr)
    requires UniqueAddrs(t)
    ensures var k := Lookup(t, addr, 0);
      && (addr in AsMap(t) <==> k < |t|)
      && (k < |t| ==> AsMap(t)[addr] == t[k].value.bits)
  {
    if t != [] {
      var last := |t| - 1;
      var p := t[..last];
      assert forall i | 0 <= i < last :: t[i] == p[i];
      MapHolds(p, addr);
      var k, l := Lookup(t, addr, 0), Lookup(p, addr, 0);
      if l < last {
        assert At(t[l], addr);
        assert k == l;
        assert !At(t[last], addr);
      } else {
        assert k >= last;
      }
    }
  }

  function UsedPeers(t: Peers): nat {
    if t == [] then 0 else UsedPeers(t[..|t| - 1]) + if t[|t| - 1].Some? then 1 else 0
  }

  lemma {:induction false} MapSize(t: Peers)
    requires UniqueAddrs(t)
    ensures |AsMap(t)| == UsedPeers(t)
  {
    if t != [] {
      var last := |t| - 1;
      var p, e := t[..last], t[last];
      assert forall i | 0 <= i < last :: t[i] == p[i];
      MapSize(p);
      if e.Some? {
        MapHolds(p, e.value.addr);
        assert forall i | 0 <= i < last && p[i].Some? :: p[i].value.addr != e.value.addr;
        assert AsMap(t).Keys == AsMap(p).Keys + {e.value.addr};
        assert |AsMap(t)| == |AsMap(t).Keys|;
        assert |AsMap(p)| == |AsMap(p).Keys|;
      }
    }
  }

  lemma {:induction false} UsedOfAll(t: Peers)
    ensures UsedPeers(t) <= |t|
    ensures UsedPeers(t) == |t| <==> forall i | 0 <= i < |t| :: t[i].Some?
  {
    if t != [] {
      var last := |t| - 1;
      var p := t[..last];
      assert forall i | 0 <= i < last :: t[i] == p[i];
      UsedOfAll(p);
    }
  }

  lemma LookupIs(t: Peers, addr: Addr, k: nat)
    requires UniqueAddrs(t) && k < |t| && At(t[k], addr)
    ensures Lookup(t, addr, 0) == k
  {
  }

  /** The slot written for `addr` is its own, or a free one while it has none. */
  ghost predicate Writable(t: Peers, k: nat, addr: Addr) {
    k < |t| && (At(t[k], addr) || (t[k].None? && Lookup(t, addr, 0) == |t|))
  }

  lemma LookupAfter(t: Peers, k: nat, addr: Addr, bits: Bits, a: Addr)
    requires UniqueAddrs(t) && Writable(t, k, addr)
    ensures var u := t[k := Some(Peer(addr, bits))];
      && UniqueAddrs(u)
      && Lookup(u, a, 0) == if a == addr then k else Lookup(t, a, 0)
  {
    var u := t[k := Some(Peer(addr, bits))];
    forall j | 0 <= j < |t| ensures At(u[j], a) == (if a == addr then j == k else At(t[j], a)) {
    }
    var l := Lookup(t, a, 0);
    if a != addr && l < |t| { assert At(u[l], a); }
    if a == addr { assert At(u[k], a); }
  }

  /** Writing an entry is a map update. */
  lemma WriteIsUpdate(t: Peers, k: nat, addr: Addr, bits: Bits)
    requires UniqueAddrs(t) && Writable(t, k, addr)
    ensures UniqueAddrs(t[k := Some(Peer(addr, bits))])
    ensures AsMap(t[k := Some(Peer(addr, bits))]) == AsMap(t)[addr := bits]
  {
    var u := t[k := Some(Peer(addr, bits))];
    LookupAfter(t, k, addr, bits, addr);
    var m, n := AsMap(t)[addr := bits], AsMap(u);
    forall a ensures (a in m <==> a in n) && (a in m ==> m[a] == n[a]) {
      LookupAfter(t, k, addr, bits, a);
      MapHolds(t, a);
      MapHolds(u, a);
    }
    assert m.Keys == n.Keys;
  }

  /** `Get` finds the address, or makes an entry with both bits 0, or fails just when the table is full. */
  lemma GetLaw(t: Peers, addr: Addr)
    requires UniqueAddrs(t)
    ensures var (u, k) := Get(t, addr, true);
      && |u| == |t| && UniqueAddrs(u)
      && AsMap(u) == Entry(AsMap(t), addr, |t|)
      && (k < |t| <==> addr in AsMap(u))
      && (k < |t| ==> At(u[k], addr) && u[k].value.bits == AsMap(u)[addr])
      && forall i | 0 <= i < |t| && t[i].Some? :: u[i] == t[i]
    ensures var (u, k) := Get(t, addr, false);
      u == t && (k < |t| <==> addr in AsMap(t)) && (k < |t| ==> At(t[k], addr))
  {
    MapHolds(t, addr);
    MapSize(t);
    UsedOfAll(t);
    var (u, k) := Get(t, addr, true);
    if k < |t| {
      if Lookup(t, addr, 0) == |t| { WriteIsUpdate(t, k, addr, Bits(0, 0)); }
      LookupIs(u, addr, k);
    }
    MapHolds(u, addr);
  }

  lemma CarryRefines(t: Peers, x: Traffic)
    requires UniqueAddrs(t)
    ensures |Carry(t, x)| == |t| && UniqueAddrs(Carry(t, x))
    ensures AsMap(Carry(t, x)) == CarryMap(AsMap(t), x, |t|)
    ensures forall i | 0 <= i < |t| && t[i].Some? :: At(Carry(t, x)[i], t[i].value.addr)
  {
    GetLaw(t, x.addr);
    var (u, k) := Get(t, x.addr, true);
    if k < |t| {
      var b := u[k].value.bits;
      WriteIsUpdate(u, k, x.addr, b.(send := Other(b.send)));
      WriteIsUpdate(u, k, x.addr, b.(expected := Other(b.expected)));
    }
  }

  /** Under any traffic the table is the bounded map: addresses stay unique and no entry moves or vanishes. */
  lemma {:induction false} TableIsMap(t: Peers, xs: seq<Traffic>)
    requires UniqueAddrs(t)
    ensures |CarryAll(t, xs)| == |t| && UniqueAddrs(CarryAll(t, xs))
    ensures AsMap(CarryAll(t, xs)) == CarryMapAll(AsMap(t), xs, |t|)
    ensures forall i | 0 <= i < |t| && t[i].Some? :: At(CarryAll(t, xs)[i], t[i].value.addr)
    decreases |xs|
  {
    if xs != [] {
      CarryRefines(t, xs[0]);
      TableIsMap(Carry(t, xs[0]), xs[1..]);
    }
  }

  lemma {:induction false} MapUntouched(m: map<Addr, Bits>, xs: seq<Traffic>, capacity: nat, addr: Addr)
    requires addr in m && forall x | x in xs :: x.addr != addr
    ensures addr in CarryMapAll(m, xs, capacity) && CarryMapAll(m, xs, capacity)[addr] == m[addr]
    decreases |xs|
  {
    if xs != [] {
      assert xs[0] in xs;
      MapUntouched(CarryMap(m, xs[0], capacity), xs[1..], capacity, addr);
    }
  }

  /** Traffic with other peers never changes this peer's bits, nor where they are kept. */
  lemma OthersUntouched(t: Peers, xs: seq<Traffic>, k: nat)
    requires UniqueAddrs(t) && k < |t| && t[k].Some?
    requires forall x | x in xs :: x.addr != t[k].value.addr
    ensures |CarryAll(t, xs)| == |t| && CarryAll(t, xs)[k] == t[k]
  {
    var addr := t[k].value.addr;
    TableIsMap(t, xs);
    LookupIs(t, addr, k);
    MapHolds(t, addr);
    MapUntouched(AsMap(t), xs, |t|, addr);
    LookupIs(CarryAll(t, xs), addr, k);
    MapHolds(CarryAll(t, xs), addr);
  }

  /** A full table stays full with the same addresses: no send to another one, nor a receive from it, can
      ever begin again. */
  lemma FullForEver(t: Peers, xs: seq<Traffic>, addr: Addr)
    requires UniqueAddrs(t) && forall i | 0 <= i < |t| :: t[i].Some?
    ensures Lookup(t, addr, 0) == |t| <==> Get(CarryAll(t, xs), addr, true).1 == |t|
    ensures Get(CarryAll(t, xs), addr, true).0 == CarryAll(t, xs)
  {
    var u := CarryAll(t, xs);
    TableIsMap(t, xs);
    assert forall i | 0 <= i < |t| :: At(u[i], t[i].value.addr);
    var k := Lookup(t, addr, 0);
    if k < |t| { LookupIs(u, addr, k); }
    assert FirstFree(u, 0) == |u|;
  }

  // ------------------------------------------------- the table, in place

  class PeerTable {
    const slots: array<Option<Peer>>

    ghost predicate Valid()
      reads this, slots
    {
      slots.Length == MAX_RUDP_PEERS && UniqueAddrs(slots[..])
    }

    constructor ()
      ensures Valid() && fresh(slots) && forall i | 0 <= i < slots.Length :: slots[i].None?
    {
      slots := new Option<Peer>[MAX_RUDP_PEERS](_ => None);
    }

    /** The slot for `addr`, or the length of the table where the source returns a null pointer. */
    method GetPeer(addr: Addr, create: bool) returns (k: nat)
      requires Valid()
      modifies slots
      ensures Valid() && (slots[..], k) == Get(old(slots[..]), addr, create)
      ensures k <= slots.Length && (k < slots.Length ==> At(slots[k], addr))
    {
      ghost var t := slots[..];
      GetLaw(t, addr);
      k := 0;
      while k < slots.Length
        invariant 0 <= k <= slots.Length && slots[..] == t
        invariant Lookup(t, addr, 0) == Lookup(t, addr, k)
      {
        if slots[k].Some? && slots[k].value.addr == addr { return; }
        k := k + 1;
      }
      if !create { return; }
      k := 0;
      while k < slots.Length
        invariant 0 <= k <= slots.Length && slots[..] == t
        invariant FirstFree(t, 0) == FirstFree(t, k)
      {
        if slots[k].None? {
          slots[k] := Some(Peer(addr, Bits(0, 0)));
          assert slots[..] == t[k := Some(Peer(addr, Bits(0, 0)))];
          return;
        }
        k := k + 1;
      }
    }

    method ToggleSend(k: nat)
      requires Valid() && k < slots.Length && slots[k].Some?
      modifies slots
      ensures Valid() && slots[..] == FlipSend(old(slots[..]), k)
    {
      ghost var t := slots[..];
      var p := slots[k].value;
      slots[k] := Some(p.(bits := p.bits.(send := 1 - p.bits.send)));
      assert slots[..] == FlipSend(t, k);
    }

    method ToggleExpected(k: nat)
      requires Valid() && k < slots.Length && slots[k].Some?
      modifies slots
      ensures Valid() && slots[..] == FlipExpected(old(slots[..]), k)
    {
      ghost var t := slots[..];
      var p := slots[k].value;
      slots[k] := Some(p.(bits := p.bits.(expected := 1 - p.bits.expected)));
      assert slots[..] == FlipExpected(t, k);
    }
  }
}
