/** The abstract bounded queue: what one atomic attempt on the lock-free queue may do.
    An item is claimed first and becomes ready when its producer publishes it; a taken
    position stays in releasing until its consumer hands the cell back. */
module FifoSpec {

  datatype Item<V> = Item(value: V, ready: bool)

  /** taken is the number of items ever removed, so items[i] has position taken + i. */
  datatype Fifo<V> = Fifo(items: seq<Item<V>>, taken: nat, releasing: set<nat>)
  {
    function Tail(): nat { taken + |items| }

    predicate CanClaim(capacity: nat) {
      |items| < capacity && (Tail() >= capacity ==> Tail() - capacity !in releasing)
    }

    predicate CanTake() { items != [] && items[0].ready }

    function Claim(v: V): Fifo<V> { this.(items := items + [Item(v, false)]) }

    function Publish(pos: nat): Fifo<V> {
      if taken <= pos < Tail() then this.(items := items[pos - taken := items[pos - taken].(ready := true)])
      else this
    }

    function Take(): Fifo<V>
      requires items != []
    {
      Fifo(items[1..], taken + 1, releasing + {taken})
    }

    function Release(pos: nat): Fifo<V> { this.(releasing := releasing - {pos}) }

    function Values(): (vs: seq<V>)
      ensures |vs| == |items|
    {
      seq(|items|, i requires 0 <= i < |items| => items[i].value)
    }
  }

  /** What one step of an implementation does to the abstract queue. Full and Empty are the
      refusals of an attempt; Skip is a step nobody can see. */
  datatype Op<V> = Claim(v: V) | Publish(pos: nat) | Take(v: V) | Release(pos: nat) | Full | Empty | Skip

  predicate CanDo<V(==)>(f: Fifo<V>, op: Op<V>, capacity: nat) {
    match op
    case Claim(_) => f.CanClaim(capacity)
    case Publish(pos) => f.taken <= pos < f.Tail() && !f.items[pos - f.taken].ready
    case Take(v) => f.CanTake() && f.items[0].value == v
    case Release(pos) => pos in f.releasing
    case Full => !f.CanClaim(capacity)
    case Empty => !f.CanTake()
    case Skip => true
  }

  function Do<V(==)>(f: Fifo<V>, op: Op<V>, capacity: nat): Fifo<V>
    requires CanDo(f, op, capacity)
  {
    match op
    case Claim(v) => f.Claim(v)
    case Publish(pos) => f.Publish(pos)
    case Take(_) => f.Take()
    case Release(pos) => f.Release(pos)
    case _ => f
  }

  ghost predicate CanReplay<V>(f: Fifo<V>, ops: seq<Op<V>>, capacity: nat)
    decreases |ops|
  {
    ops == [] || (CanDo(f, ops[0], capacity) && CanReplay(Do(f, ops[0], capacity), ops[1..], capacity))
  }

  ghost function Replay<V>(f: Fifo<V>, ops: seq<Op<V>>, capacity: nat): Fifo<V>
    requires CanReplay(f, ops, capacity)
    decreases |ops|
  {
    if ops == [] then f else Replay(Do(f, ops[0], capacity), ops[1..], capacity)
  }

  lemma ReplayCons<V>(f: Fifo<V>, op: Op<V>, ops: seq<Op<V>>, capacity: nat)
    requires CanDo(f, op, capacity) && CanReplay(Do(f, op, capacity), ops, capacity)
    ensures CanReplay(f, [op] + ops, capacity)
    ensures Replay(f, [op] + ops, capacity) == Replay(Do(f, op, capacity), ops, capacity)
    ensures Claimed([op] + ops) == (if op.Claim? then [op.v] else []) + Claimed(ops)
    ensures Taken([op] + ops) == (if op.Take? then [op.v] else []) + Taken(ops)
  {
    assert ([op] + ops)[1..] == ops;
  }

  /** The values claimed, and the values taken, in the order in which it happened. */
  ghost function Claimed<V>(ops: seq<Op<V>>): seq<V> {
    if ops == [] then [] else (if ops[0].Claim? then [ops[0].v] else []) + Claimed(ops[1..])
  }

  ghost function Taken<V>(ops: seq<Op<V>>): seq<V> {
    if ops == [] then [] else (if ops[0].Take? then [ops[0].v] else []) + Taken(ops[1..])
  }

  /** First in, first out: what was queued and what is claimed later comes out in that order. */
  lemma {:induction false} FirstInFirstOut<V>(f: Fifo<V>, ops: seq<Op<V>>, capacity: nat)
    requires CanReplay(f, ops, capacity)
    ensures f.Values() + Claimed(ops) == Taken(ops) + Replay(f, ops, capacity).Values()
    ensures |f.items| <= capacity ==> |Replay(f, ops, capacity).items| <= capacity
    decreases |ops|
  {
    if ops != [] {
      var f' := Do(f, ops[0], capacity);
      FirstInFirstOut(f', ops[1..], capacity);
      var rest := Replay(f, ops, capacity).Values();
      if ops[0].Claim? {
        assert f.Values() + Claimed(ops) == f'.Values() + Claimed(ops[1..]);
      } else if ops[0].Take? {
        assert f.Values() == [ops[0].v] + f'.Values();
        assert f.Values() + Claimed(ops) == [ops[0].v] + (f'.Values() + Claimed(ops[1..]));
        assert Taken(ops) + rest == [ops[0].v] + (Taken(ops[1..]) + rest);
      } else {
        assert f.Values() == f'.Values();
        assert Claimed(ops) == Claimed(ops[1..]) && Taken(ops) == Taken(ops[1..]);
      }
    }
  }

  function NewFifo<V>(): Fifo<V> { Fifo([], 0, {}) }
}
