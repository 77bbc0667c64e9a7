/** The table of frames read from the socket while waiting for something else. */
module ParkedFrames {
  import opened Base
  import opened SlotBags

  const MAX_RUDP_PENDING := 256

  datatype Addr = Addr(family: nat, port: nat, ip: nat)

  datatype Kind = MESSAGE | ACK | ACK_ACK

  type Bit = b: nat | b < 2

  /** `epoch` records which send the frame belongs to; it is not on the wire and nothing compares it. */
  datatype Frame = Frame(addr: Addr, kind: Kind, bit: Bit, data: string, epoch: nat)

  type Table = seq<Option<Frame>>

  predicate IsMessage(e: Option<Frame>) { e.Some? && e.value.kind.MESSAGE? }

  predicate Matches(e: Option<Frame>, addr: Addr, kind: Kind, bit: Bit) {
    e.Some? && e.value.addr == addr && e.value.kind == kind && e.value.bit == bit
  }

  function FirstMatch(t: Table, addr: Addr, kind: Kind, bit: Bit, i: nat): (k: nat)
    requires i <= |t|
    ensures i <= k <= |t|
    ensures k < |t| ==> Matches(t[k], addr, kind, bit)
    ensures forall j | i <= j < k :: !Matches(t[j], addr, kind, bit)
    decreases |t| - i
  {
    if i == |t| || Matches(t[i], addr, kind, bit) then i else FirstMatch(t, addr, kind, bit, i + 1)
  }

  function FirstMessage(t: Table, i: nat): (k: nat)
    requires i <= |t|
    ensures i <= k <= |t|
    ensures k < |t| ==> IsMessage(t[k])
    ensures forall j | i <= j < k :: !IsMessage(t[j])
    decreases |t| - i
  {
    if i == |t| || IsMessage(t[i]) then i else FirstMessage(t, i + 1)
  }

  predicate HasPending(t: Table) { FirstMessage(t, 0) < |t| }

  function TakeAt(t: Table, k: nat): (Table, Option<Frame>)
    requires k <= |t|
  {
    if k == |t| then (t, None) else (t[k := None], t[k])
  }

  function TakeFrame(t: Table, addr: Addr, kind: Kind, bit: Bit): (Table, Option<Frame>) {
    TakeAt(t, FirstMatch(t, addr, kind, bit, 0))
  }

  function TakeMessage(t: Table): (Table, Option<Frame>) { TakeAt(t, FirstMessage(t, 0)) }

  /** A frame that is no MESSAGE replaces its twin; anything else takes the first free slot, if any. */
  function Store(t: Table, f: Frame): (Table, bool) {
    var twin := FirstMatch(t, f.addr, f.kind, f.bit, 0);
    if !f.kind.MESSAGE? && twin < |t| then (t[twin := Some(f)], true)
    else
      var free := FirstFree(t, 0);
      if free < |t| then (t[free := Some(f)], true) else (t, false)
  }

  predicate Dropped(e: Option<Frame>, addr: Addr, kind: Kind) {
    e.Some? && e.value.addr == addr && e.value.kind == kind
  }

  function DropPeer(t: Table, addr: Addr, kind: Kind): Table {
    seq(|t|, i requires 0 <= i < |t| => if Dropped(t[i], addr, kind) then None else t[i])
  }

  // ------------------------------------------------------------------ laws

  /** The frames parked, slots forgotten. */
  ghost function Frames(t: Table): multiset<Frame> { Bag(t) }

  /** A take removes exactly the frame it returns, which matches; it fails only when none does. */
  lemma TakeLaw(t: Table, addr: Addr, kind: Kind, bit: Bit)
    ensures var (t', e) := TakeFrame(t, addr, kind, bit);
      && |t'| == |t|
      && (e.Some? ==> Matches(e, addr, kind, bit) && Frames(t) == Frames(t') + multiset{e.value})
      && (e.None? ==> t' == t && forall f | f in Frames(t) :: !Matches(Some(f), addr, kind, bit))
  {
    var k := FirstMatch(t, addr, kind, bit, 0);
    if k < |t| { Cleared(t, k); }
    else {
      forall f | f in Frames(t) ensures !Matches(Some(f), addr, kind, bit) { InBag(t, f); }
    }
  }

  /** `HasPending` is true exactly when taking a message succeeds, which removes exactly that message. */
  lemma TakeMessageLaw(t: Table)
    ensures var (t', e) := TakeMessage(t);
      && |t'| == |t|
      && (HasPending(t) <==> e.Some?)
      && (e.Some? ==> IsMessage(e) && Frames(t) == Frames(t') + multiset{e.value})
      && (e.None? ==> t' == t && forall f | f in Frames(t) :: !f.kind.MESSAGE?)
  {
    var k := FirstMessage(t, 0);
    if k < |t| { Cleared(t, k); }
    else {
      forall f | f in Frames(t) ensures !f.kind.MESSAGE? { InBag(t, f); }
    }
  }

  /** A store adds the frame, or puts it in place of its twin; no message is ever displaced.
      It fails only when the table is full and holds no twin to replace. */
  lemma StoreLaw(t: Table, f: Frame)
    ensures var (t', ok) := Store(t, f);
      var twin := FirstMatch(t, f.addr, f.kind, f.bit, 0);
      && |t'| == |t|
      && (ok && !f.kind.MESSAGE? && twin < |t| ==> Frames(t') + multiset{t[twin].value} == Frames(t) + multiset{f})
      && (ok && (f.kind.MESSAGE? || twin == |t|) ==> Frames(t') == Frames(t) + multiset{f})
      && (!ok <==> (forall i | 0 <= i < |t| :: t[i].Some?) && (f.kind.MESSAGE? || twin == |t|))
      && (!ok ==> t' == t)
      && (forall i | 0 <= i < |t| && IsMessage(t[i]) :: t'[i] == t[i])
  {
    var twin, free := FirstMatch(t, f.addr, f.kind, f.bit, 0), FirstFree(t, 0);
    if !f.kind.MESSAGE? && twin < |t| { Replaced(t, twin, f); }
    else if free < |t| { Filled(t, free, f); }
  }

  lemma {:induction false} DropUpTo(t: Table, addr: Addr, kind: Kind, f: Frame, n: nat)
    requires n <= |t|
    ensures CountUpTo(DropPeer(t, addr, kind), f, n) == if f.addr == addr && f.kind == kind then 0
      else CountUpTo(t, f, n)
  {
    if n > 0 { DropUpTo(t, addr, kind, f, n - 1); }
  }

  /** Dropping takes out exactly the frames of that peer and kind. */
  lemma DropLaw(t: Table, addr: Addr, kind: Kind, f: Frame)
    ensures Frames(DropPeer(t, addr, kind))[f] == if f.addr == addr && f.kind == kind then 0 else Frames(t)[f]
  {
    DropUpTo(t, addr, kind, f, |t|);
    BagCounts(t, f, |t|);
    BagCounts(DropPeer(t, addr, kind), f, |t|);
  }

  /** Two parked frames that are no MESSAGE never share peer, kind and bit. */
  ghost predicate NoTwins(t: Table) {
    forall i, j | 0 <= i < j < |t| && t[i].Some? && !t[i].value.kind.MESSAGE? ::
      !Matches(t[j], t[i].value.addr, t[i].value.kind, t[i].value.bit)
  }

  datatype TableOp =
    | OpStore(frame: Frame)
    | OpTake(addr: Addr, kind: Kind, bit: Bit)
    | OpTakeMessage
    | OpDrop(addr: Addr, kind: Kind)

  function Perform(t: Table, op: TableOp): Table {
    match op
    case OpStore(f) => Store(t, f).0
    case OpTake(addr, kind, bit) => TakeFrame(t, addr, kind, bit).0
    case OpTakeMessage => TakeMessage(t).0
    case OpDrop(addr, kind) => DropPeer(t, addr, kind)
  }

  function PerformAll(t: Table, ops: seq<TableOp>): Table
    decreases |ops|
  {
    if ops == [] then t else PerformAll(Perform(t, ops[0]), ops[1..])
  }

  lemma StoreKeepsNoTwins(t: Table, f: Frame)
    requires NoTwins(t)
    ensures NoTwins(Store(t, f).0)
  {
  }

  lemma PerformKeepsNoTwins(t: Table, op: TableOp)
    requires NoTwins(t)
    ensures NoTwins(Perform(t, op)) && |Perform(t, op)| == |t|
  {
    if op.OpStore? { StoreKeepsNoTwins(t, op.frame); }
  }

  /** Under any sequence of operations there are no twins, and never more frames than slots. */
  lemma {:induction false} TableInvariant(t: Table, ops: seq<TableOp>)
    requires NoTwins(t)
    ensures NoTwins(PerformAll(t, ops)) && |PerformAll(t, ops)| == |t| && |Frames(PerformAll(t, ops))| <= |t|
    decreases |ops|
  {
    if ops == [] {
      InBag(t, Frame(Addr(0, 0, 0), ACK, 0, "", 0));
    } else {
      PerformKeepsNoTwins(t, ops[0]);
      TableInvariant(Perform(t, ops[0]), ops[1..]);
    }
  }

  // ------------------------------------------------- the table, in place

  class ParkedTable {
    const slots: array<Option<Frame>>

    ghost predicate Valid()
      reads this, slots
    {
      slots.Length == MAX_RUDP_PENDING && NoTwins(slots[..])
    }

    constructor ()
      ensures Valid() && fresh(slots) && forall i | 0 <= i < slots.Length :: slots[i].None?
    {
      slots := new Option<Frame>[MAX_RUDP_PENDING](_ => None);
    }

    /** Only reads. */
    method HasPendingMessage() returns (found: bool)
      requires Valid()
      ensures found == HasPending(slots[..])
    {
      var i := 0;
      while i < slots.Length
        invariant 0 <= i <= slots.Length
        invariant FirstMessage(slots[..], 0) == FirstMessage(slots[..], i)
      {
        if slots[i].Some? && slots[i].value.kind.MESSAGE? {
          return true;
        }
        i := i + 1;
      }
      found := false;
    }

    method TakePending(addr: Addr, kind: Kind, bit: Bit) returns (e: Option<Frame>)
      requires Valid()
      modifies slots
      ensures Valid() && (slots[..], e) == TakeFrame(old(slots[..]), addr, kind, bit)
    {
      ghost var t := slots[..];
      var i := 0;
      while i < slots.Length
        invariant 0 <= i <= slots.Length && slots[..] == t
        invariant FirstMatch(t, addr, kind, bit, 0) == FirstMatch(t, addr, kind, bit, i)
      {
        if slots[i].Some? && slots[i].value.kind == kind && slots[i].value.bit == bit && slots[i].value.addr == addr {
          e := slots[i];
          slots[i] := None;
          assert slots[..] == t[i := None];
          return;
        }
        i := i + 1;
      }
      e := None;
    }

    method TakePendingMessage() returns (e: Option<Frame>)
      requires Valid()
      modifies slots
      ensures Valid() && (slots[..], e) == TakeMessage(old(slots[..]))
    {
      ghost var t := slots[..];
      var i := 0;
      while i < slots.Length
        invariant 0 <= i <= slots.Length && slots[..] == t
        invariant FirstMessage(t, 0) == FirstMessage(t, i)
      {
        if slots[i].Some? && slots[i].value.kind.MESSAGE? {
          e := slots[i];
          slots[i] := None;
          assert slots[..] == t[i := None];
          return;
        }
        i := i + 1;
      }
      e := None;
    }

    method StorePending(f: Frame) returns (ok: bool)
      requires Valid()
      modifies slots
      ensures Valid() && (slots[..], ok) == Store(old(slots[..]), f)
    {
      ghost var t := slots[..];
      StoreKeepsNoTwins(t, f);
      var i := 0;
      if !f.kind.MESSAGE? {
        while i < slots.Length
          invariant 0 <= i <= slots.Length && slots[..] == t
          invariant FirstMatch(t, f.addr, f.kind, f.bit, 0) == FirstMatch(t, f.addr, f.kind, f.bit, i)
        {
          if slots[i].Some? && slots[i].value.addr == f.addr && slots[i].value.kind == f.kind &&
            slots[i].value.bit == f.bit {
            slots[i] := Some(f);
            assert slots[..] == t[i := Some(f)];
            return true;
          }
          i := i + 1;
        }
      }
      i := 0;
      while i < slots.Length
        invariant 0 <= i <= slots.Length && slots[..] == t
        invariant FirstFree(t, 0) == FirstFree(t, i)
      {
        if slots[i].None? {
          slots[i] := Some(f);
          assert slots[..] == t[i := Some(f)];
          return true;
        }
        i := i + 1;
      }
      ok := false;
    }

    method DropPeerFrames(addr: Addr, kind: Kind)
      requires Valid()
      modifies slots
      ensures Valid() && slots[..] == DropPeer(old(slots[..]), addr, kind)
    {
      ghost var t := slots[..];
      var i := 0;
      while i < slots.Length
        invariant 0 <= i <= slots.Length == |t|
        invariant forall j | 0 <= j < |t| :: slots[j] == if j < i && Dropped(t[j], addr, kind) then None else t[j]
      {
        if slots[i].Some? && slots[i].value.addr == addr && slots[i].value.kind == kind {
          slots[i] := None;
        }
        i := i + 1;
      }
      assert slots[..] == DropPeer(t, addr, kind);
    }
  }
}
