/** The bounded queue as one thread uses it: an array of sequenced cells, proved to be a FIFO
    of at most capacity elements. */
module LockFreeQueues {
  import opened Bits
  import opened Ring
  import opened QueueProtocol

  // ---------- the ring as a value ----------

  /** With no operation in flight, positions [d, e) are published and [e, d + c) are free. */
  ghost predicate RingOk<T>(cells: seq<Cell<T>>, d: nat, e: nat) {
    && |cells| >= 2
    && d <= e <= d + |cells|
    && (forall p: nat :: d <= p < e ==> cells[Slot(p, |cells|)].sequence == p + 1)
    && (forall p: nat :: e <= p < d + |cells| ==> cells[Slot(p, |cells|)].sequence == p)
  }

  ghost function Window<T>(cells: seq<Cell<T>>, d: nat, e: nat): (s: seq<T>)
    requires |cells| > 0 && d <= e
    ensures |s| == e - d
    ensures forall i :: 0 <= i < e - d ==> s[i] == cells[Slot(d + i, |cells|)].data
    decreases e - d
  {
    if d == e then [] else [cells[Slot(d, |cells|)].data] + Window(cells, d + 1, e)
  }

  /** What the cell at the enqueue position and the one at the dequeue position show. */
  lemma Heads<T>(cells: seq<Cell<T>>, d: nat, e: nat)
    requires RingOk(cells, d, e)
    ensures var x := cells[Slot(e, |cells|)].sequence; if e < d + |cells| then x == e else x < e
    ensures var x := cells[Slot(d, |cells|)].sequence; if d < e then x == d + 1 else x < d + 1
  {
    SlotOfNext(d, |cells|);
  }

  lemma Push<T>(cells: seq<Cell<T>>, d: nat, e: nat, v: T)
    requires RingOk(cells, d, e) && e < d + |cells|
    ensures var cells' := cells[Slot(e, |cells|) := Cell(e + 1, v)];
            RingOk(cells', d, e + 1) && Window(cells', d, e + 1) == Window(cells, d, e) + [v]
  {
    OtherSlots(d, e, |cells|);
    var cells' := cells[Slot(e, |cells|) := Cell(e + 1, v)];
    assert Window(cells', d, e + 1) == Window(cells, d, e) + [v];
  }

  lemma Pop<T>(cells: seq<Cell<T>>, d: nat, e: nat, leftover: T)
    requires RingOk(cells, d, e) && d < e
    ensures var cells' := cells[Slot(d, |cells|) := Cell(d + |cells|, leftover)];
            RingOk(cells', d + 1, e)
            && Window(cells, d, e) == [cells[Slot(d, |cells|)].data] + Window(cells', d + 1, e)
  {
    SlotOfNext(d, |cells|);
    OtherSlots(d, d, |cells|);
    var cells' := cells[Slot(d, |cells|) := Cell(d + |cells|, leftover)];
    assert Window(cells', d + 1, e) == Window(cells, d + 1, e);
  }

  /** No two positions of one window share a cell. */
  lemma OtherSlots(lo: nat, pos: nat, c: nat)
    requires c > 0 && lo <= pos < lo + c
    ensures forall p: nat :: lo <= p < lo + c && p != pos ==> Slot(p, c) != Slot(pos, c)
  {
    forall p: nat | lo <= p < lo + c && p != pos
      ensures Slot(p, c) != Slot(pos, c)
    {
      if p < pos { SlotDistinct(p, pos, c); } else { SlotDistinct(pos, p, c); }
    }
  }

  // ---------- the class ----------

  class LockFreeQueue<T(0)> {
    const capacity: nat
    const mask: nat
    const buffer: array<Cell<T>>
    var enqueuePos: nat
    var dequeuePos: nat
    ghost const bits: nat

    ghost predicate Valid()
      reads this, buffer
    {
      && capacity == Pow2(bits) && mask == capacity - 1 && buffer.Length == capacity
      && RingOk(buffer[..], dequeuePos, enqueuePos)
    }

    ghost function Contents(): (s: seq<T>)
      requires Valid()
      reads this, buffer
      ensures |s| <= capacity
    {
      Window(buffer[..], dequeuePos, enqueuePos)
    }

    constructor (requested: nat)
      requires requested < WORD
      ensures Valid() && Contents() == [] && fresh(buffer)
      ensures 2 <= requested <= Bits.HALF ==> IsLeastPow2(capacity, requested)
      ensures requested < 2 || requested > Bits.HALF ==> capacity == 2
    {
      var size, k := RingSize(requested);
      capacity, mask, bits := size, size - 1, k;
      var dummy: T := *;
      buffer := new Cell<T>[size](i => Cell(0, dummy));
      enqueuePos, dequeuePos := 0, 0;
      new;
      var i := 0;
      while i < capacity
        invariant 0 <= i <= capacity && enqueuePos == dequeuePos == 0
        invariant forall j :: 0 <= j < i ==> buffer[j].sequence == j
      {
        buffer[i] := buffer[i].(sequence := i);
        i := i + 1;
      }
      Fresh(buffer[..]);
    }

    static lemma Fresh(cells: seq<Cell<T>>)
      requires |cells| >= 2 && forall j :: 0 <= j < |cells| ==> cells[j].sequence == j
      ensures RingOk(cells, 0, 0)
    {
      assert forall p: nat :: 0 <= p < |cells| ==> Slot(p, |cells|) == p;
    }

    static method RingSize(requested: nat) returns (size: nat, ghost k: nat)
      requires requested < WORD
      ensures size == Pow2(k) && size >= 2
      ensures 2 <= requested <= Bits.HALF ==> IsLeastPow2(size, requested)
      ensures requested < 2 || requested > Bits.HALF ==> size == 2
    {
      size := RoundUpPowerOf2(if requested < 2 then 2 else requested);
      k :| 1 <= k <= 63 && size == Pow2(k);
      assert Pow2(1) == 2;
      if k > 1 { Pow2Mono(1, k); }
      if requested < 2 { assert IsLeastPow2(size, 2); }
    }

    /** spurious counts how often the weak compare-and-swap fails without cause. */
    method TryEnqueue(value: T, spurious: nat) returns (ok: bool)
      requires Valid()
      modifies `enqueuePos, buffer
      ensures Valid()
      ensures ok <==> |old(Contents())| < capacity
      ensures Contents() == if ok then old(Contents()) + [value] else old(Contents())
    {
      hide Window;
      var pos := enqueuePos;
      var left := spurious;
      ghost var cells := buffer[..];
      Heads(cells, dequeuePos, pos);
      MaskIsMod(pos, bits);
      while true
        invariant pos == enqueuePos && unchanged(this) && unchanged(buffer)
        decreases left
      {
        var cell := buffer[And(pos, mask)];
        var diff: int := cell.sequence - pos;
        if diff == 0 {
          if left == 0 {
            enqueuePos := pos + 1;
            break;
          }
          left := left - 1;
          pos := enqueuePos;
        } else if diff < 0 {
          return false;
        } else {
          assert false;
        }
      }
      var i := And(pos, mask);
      buffer[i] := buffer[i].(data := value);
      buffer[i] := buffer[i].(sequence := pos + 1);
      ok := true;
      Push(cells, dequeuePos, pos, value);
      assert buffer[..] == cells[Slot(pos, capacity) := Cell(pos + 1, value)];
    }

    method TryDequeue(spurious: nat) returns (ok: bool, value: T)
      requires Valid()
      modifies `dequeuePos, buffer
      ensures Valid()
      ensures ok <==> old(Contents()) != []
      ensures ok ==> old(Contents()) == [value] + Contents()
      ensures !ok ==> Contents() == old(Contents())
    {
      hide Window, RingOk;
      value := *;
      var pos := dequeuePos;
      var left := spurious;
      ghost var cells := buffer[..];
      Heads(cells, pos, enqueuePos);
      MaskIsMod(pos, bits);
      while true
        invariant pos == dequeuePos && unchanged(this) && unchanged(buffer)
        decreases left
      {
        var cell := buffer[And(pos, mask)];
        var diff: int := cell.sequence - (pos + 1);
        if diff == 0 {
          if left == 0 {
            dequeuePos := pos + 1;
            break;
          }
          left := left - 1;
          pos := dequeuePos;
        } else if diff < 0 {
          return false, value;
        } else {
          assert false;
        }
      }
      var i := And(pos, mask);
      value := buffer[i].data;
      var leftover: T := *;
      buffer[i] := buffer[i].(data := leftover);
      buffer[i] := buffer[i].(sequence := pos + mask + 1);
      ok := true;
      Pop(cells, pos, enqueuePos, leftover);
      assert buffer[..] == cells[Slot(pos, capacity) := Cell(pos + capacity, leftover)];
    }
  }
}
