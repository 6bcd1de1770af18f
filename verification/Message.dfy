/** Messages with intrusive reference counts, the handles that hold them, and the pool that
    recycles them. */
module Messages {
  import opened Seqs
  import opened LockFreeQueues

  datatype Recycler = NoRecycler | ToPool

  datatype Callback = NoCallback | OnDrop(id: nat)

  /** life counts how often the object was made ready, ends how often it was recycled or deleted. */
  class Message {
    var refCount: int
    var recycler: Recycler
    var onDrop: Callback
    var topicId: nat
    var data: nat
    ghost var life: nat
    ghost var ends: nat
    ghost var deleted: bool

    constructor (topicId: nat, data: nat)
      ensures refCount == 0 && recycler == NoRecycler && onDrop == NoCallback && this.topicId == topicId && this.data == data
      ensures life == 1 && ends == 0 && !deleted
    {
      refCount, recycler, onDrop, this.topicId, this.data := 0, NoRecycler, NoCallback, topicId, data;
      life, ends, deleted := 1, 0, false;
    }

    /** Between being made ready and being recycled or deleted. */
    ghost predicate InUse()
      reads this
    {
      ends + 1 == life && !deleted
    }

    method AddRef()
      modifies `refCount
      ensures refCount == old(refCount) + 1
    {
      refCount := refCount + 1;
    }

    method ReleaseRef() returns (zero: bool)
      modifies `refCount
      ensures refCount == old(refCount) - 1
      ensures zero <==> refCount == 0
    {
      zero := refCount == 1;
      refCount := refCount - 1;
    }

    /** Runs and clears the callback, so that it cannot run twice. */
    method NotifyDrop() returns (ran: seq<nat>)
      modifies `onDrop
      ensures onDrop == NoCallback
      ensures ran == if old(onDrop).OnDrop? then [old(onDrop).id] else []
    {
      ran := [];
      if onDrop.OnDrop? {
        var cb := onDrop;
        onDrop := NoCallback;
        ran := [cb.id];
      }
    }

    /** Makes a pooled object ready for use again. */
    method Reset(topicId: nat, data: nat)
      requires ends == life && !deleted
      modifies this
      ensures refCount == 0 && recycler == NoRecycler && onDrop == NoCallback && this.topicId == topicId && this.data == data
      ensures InUse() && ends == old(ends)
    {
      refCount, recycler, onDrop, this.topicId, this.data := 0, NoRecycler, NoCallback, topicId, data;
      life := life + 1;
    }
  }

  class ObjectPool {
    const freelist: LockFreeQueue<Message?>

    ghost predicate Valid()
      reads freelist, freelist.buffer
    {
      freelist.Valid()
    }

    ghost function Free(): seq<Message?>
      requires Valid()
      reads freelist, freelist.buffer
    {
      freelist.Contents()
    }

    constructor (capacity: nat)
      requires capacity < 0x1_0000_0000_0000_0000
      ensures Valid() && Free() == [] && fresh(freelist) && fresh(freelist.buffer)
    {
      freelist := new LockFreeQueue<Message?>(capacity);
    }

    /** The oldest recycled object, or null. */
    method Acquire() returns (p: Message?)
      requires Valid()
      modifies freelist, freelist.buffer
      ensures Valid()
      ensures if old(Free()) == [] then p == null && Free() == [] else old(Free()) == [p] + Free()
    {
      var ok, q := freelist.TryDequeue(0);
      p := if ok then q else null;
    }

    /** Keeps the object, or deletes it when the pool is full. */
    method Release(p: Message)
      requires Valid()
      modifies freelist, freelist.buffer, p`deleted
      ensures Valid()
      ensures if |old(Free())| < freelist.capacity then Free() == old(Free()) + [p] && p.deleted == old(p.deleted)
              else Free() == old(Free()) && p.deleted
    {
      var ok := freelist.TryEnqueue(p, 0);
      if !ok {
        p.deleted := true;
      }
    }
  }

  // ---------- who holds what ----------

  /** What each live handle points to. */
  type Points = map<MessagePtr, Message?>

  ghost function Holders(points: Points, m: Message): set<MessagePtr> {
    set h | h in points && points[h] == m
  }

  lemma Redirect(points: Points, h: MessagePtr, q: Message?, m: Message)
    requires h in points
    ensures |Holders(points[h := q], m)| ==
            |Holders(points, m)| - (if points[h] == m then 1 else 0) + (if q == m then 1 else 0)
  {
    var before, after := Holders(points, m), Holders(points[h := q], m);
    assert before - {h} == after - {h};
    OneOut(before, h);
    OneOut(after, h);
  }

  lemma OneOut(hs: set<MessagePtr>, h: MessagePtr)
    ensures |hs| == |hs - {h}| + (if h in hs then 1 else 0)
  {
    if h !in hs { assert hs - {h} == hs; }
  }

  lemma NewHandle(points: Points, h: MessagePtr, q: Message?, m: Message)
    requires h !in points
    ensures |Holders(points[h := q], m)| == |Holders(points, m)| + (if q == m then 1 else 0)
  {
    var before, after := Holders(points, m), Holders(points[h := q], m);
    assert h !in before;
    assert after == if q == m then before + {h} else before;
  }

  lemma DropHandle(points: Points, h: MessagePtr, m: Message)
    requires h in points && points[h] == null
    ensures Holders(points - {h}, m) == Holders(points, m)
  {}

  /** All messages and handles of a program, as ghost state. */
  class World {
    const pool: ObjectPool
    ghost var messages: set<Message>
    ghost var points: Points

    ghost predicate Valid()
      reads this, messages, points.Keys, pool, pool.freelist, pool.freelist.buffer
    {
      && pool.Valid()
      && (forall h :: h in points ==> h.ptr == points[h] && (points[h] == null || points[h] in messages))
      && (forall m :: m in messages ==> Counted(m))
      && PoolOk()
    }

    /** The count of a message is the number of its handles, and while there is one it is in use. */
    ghost predicate Counted(m: Message)
      reads this, m
    {
      && m.refCount == |Holders(points, m)|
      && m.ends <= m.life <= m.ends + 1
      && (m.refCount > 0 ==> m.InUse())
      && (m.deleted ==> m.ends == m.life)
    }

    /** The freelist holds, once each, exactly the ended messages that were not deleted. */
    ghost predicate PoolOk()
      requires pool.Valid()
      reads `messages, messages`ends, messages`life, messages`deleted, pool.freelist, pool.freelist.buffer
    {
      && NoDup(pool.Free())
      && (forall p :: p in pool.Free() ==> p != null && p in messages && p.ends == p.life && !p.deleted)
      && (forall m :: m in messages && m.ends == m.life && !m.deleted ==> m in pool.Free())
    }

    constructor (capacity: nat)
      requires capacity < 0x1_0000_0000_0000_0000
      ensures Valid() && messages == {} && points == map[]
    {
      pool := new ObjectPool(capacity);
      messages, points := {}, map[];
    }

    /** What publish hands over: the oldest recycled object, or a new one, made ready. */
    method Make(topicId: nat, data: nat, onDrop: Callback) returns (raw: Message)
      requires Valid()
      modifies `messages, messages, pool.freelist, pool.freelist.buffer
      ensures Valid() && messages == old(messages) + {raw} && raw.InUse() && Holders(points, raw) == {}
      ensures raw.topicId == topicId && raw.data == data && raw.onDrop == onDrop && raw.recycler == ToPool
      ensures forall m :: m in old(messages) && m != raw ==> unchanged(m)
      ensures if old(pool.Free()) == [] then fresh(raw) && pool.Free() == []
              else raw in old(messages) && old(raw.ends) == old(raw.life) && old(pool.Free()) == [raw] + pool.Free()
    {
      hide PoolOk, Holders;
      raw := Obtain(topicId, data);
      label obtained:
      raw.recycler := ToPool;
      raw.onDrop := onDrop;
      assert forall m :: m in messages ==> old@obtained(Counted(m));
    }

    method Obtain(topicId: nat, data: nat) returns (raw: Message)
      requires Valid()
      modifies `messages, messages, pool.freelist, pool.freelist.buffer
      ensures Valid() && messages == old(messages) + {raw} && raw.InUse() && Holders(points, raw) == {}
      ensures raw.topicId == topicId && raw.data == data
      ensures forall m :: m in old(messages) && m != raw ==> unchanged(m)
      ensures if old(pool.Free()) == [] then fresh(raw) && pool.Free() == []
              else raw in old(messages) && old(raw.ends) == old(raw.life) && old(pool.Free()) == [raw] + pool.Free()
    {
      FirstIsReal();
      hide NoDup, Holders, RingOk, Window;
      var p := pool.Acquire();
      if p != null {
        FirstIsOnce(old(pool.Free()), p, pool.Free());
        assert old(Counted(p));
        Unheld(p);
        raw := p;
        raw.Reset(topicId, data);
      } else {
        raw := new Message(topicId, data);
        Unheld(raw);
        messages := messages + {raw};
      }
      assert forall m :: m in messages && m != raw ==> old(Counted(m)) && unchanged(m);
    }

    lemma FirstIsReal()
      requires pool.Valid() && PoolOk()
      ensures pool.Free() != [] ==> pool.Free()[0] != null
    {
      if pool.Free() != [] { assert pool.Free()[0] in pool.Free(); }
    }

    lemma Unheld(m: Message)
      requires (forall h :: h in points ==> points[h] != m) || |Holders(points, m)| == 0
      ensures Holders(points, m) == {}
    {}

    /** Nothing in the freelist is held by a handle, or is there twice. */
    lemma FreeIsUnheld(p: Message)
      requires Valid() && p in pool.Free()
      ensures Holders(points, p) == {} && p.refCount == 0 && Count(pool.Free(), p) == 1
    {
      assert Counted(p);
      CountMember(pool.Free(), p);
      OnceAtMost(pool.Free(), p);
    }

    /** Ends a life: the object goes back to its pool if it came from one, and is deleted otherwise. */
    method End(m: Message)
      requires pool.Valid() && PoolOk() && m in messages && m.InUse()
      modifies m`ends, m`deleted, pool.freelist, pool.freelist.buffer
      ensures pool.Valid() && PoolOk() && m.ends == m.life
      ensures Disposed(m, old(m.recycler) == ToPool, old(pool.Free()), pool.Free(), pool.freelist.capacity)
    {
      m.ends := m.ends + 1;
      if m.recycler == ToPool {
        pool.Release(m);
      } else {
        m.deleted := true;
      }
    }
  }

  lemma FirstIsOnce(before: seq<Message?>, p: Message?, after: seq<Message?>)
    requires before == [p] + after && NoDup(before)
    ensures NoDup(after) && p !in after && forall q :: q in before <==> q == p || q in after
  {
    assert before[0] == p;
    assert forall i :: 0 <= i < |after| ==> before[i + 1] == after[i];
  }

  class MessagePtr {
    var ptr: Message?

    /** A handle that holds nothing. */
    constructor Null()
      ensures ptr == null
    {
      ptr := null;
    }

    /** Lets go; the last handle recycles or deletes the message. */
    method Reset(w: World)
      requires w.Valid() && this in w.points
      modifies this, ptr, w`points, w.pool.freelist, w.pool.freelist.buffer
      ensures w.Valid() && w.points == old(w.points)[this := null] && ptr == null
      ensures if old(ptr) == null then w.pool.Free() == old(w.pool.Free())
              else Ended(old(ptr), old(ptr.ends), old(w.points), old(ptr.recycler) == ToPool,
                         old(w.pool.Free()), w.pool.Free(), w.pool.freelist.capacity)
    {
      hide World.PoolOk, Holders;
      var m := ptr;
      if m != null {
        Held(this, w);
        LetGo(m, w);
        ptr := null;
      }
      w.points := w.points[this := null];
      forall x | x in w.messages
        ensures w.Counted(x)
      {
        Redirect(old(w.points), this, null, x);
        assert old(w.Counted(x));
      }
    }

    /** Gives up one reference; the last one ends the message. */
    static method LetGo(m: Message, w: World)
      requires w.pool.Valid() && w.PoolOk() && m in w.messages && m.InUse() && m.refCount == |Holders(w.points, m)| > 0
      modifies m, w.pool.freelist, w.pool.freelist.buffer
      ensures w.pool.Valid() && w.PoolOk() && m.refCount == old(m.refCount) - 1
      ensures unchanged(m`recycler, m`onDrop, m`topicId, m`data, m`life) && (m.deleted ==> m.ends == m.life)
      ensures Ended(m, old(m.ends), w.points, old(m.recycler) == ToPool, old(w.pool.Free()), w.pool.Free(), w.pool.freelist.capacity)
    {
      var zero := m.ReleaseRef();
      if zero {
        w.End(m);
      }
    }

    /** Takes a reference, for a handle that holds nothing. */
    method Point(q: Message?, w: World)
      requires w.Valid() && this in w.points && ptr == null && (q != null ==> q in w.messages && q.InUse())
      modifies `ptr, q, w`points
      ensures w.Valid() && w.points == old(w.points)[this := q]
      ensures q != null ==> OnlyCount(q)
    {
      ptr := q;
      if q != null {
        q.AddRef();
      }
      w.points := w.points[this := q];
      forall x | x in w.messages
        ensures w.Counted(x)
      {
        Redirect(old(w.points), this, q, x);
        assert old(w.Counted(x));
      }
    }

    /** adopt: a new handle on p, with one more reference. */
    static method Adopt(p: Message?, w: World) returns (mp: MessagePtr)
      requires w.Valid() && (p != null ==> p in w.messages && p.InUse())
      modifies p, w`points
      ensures w.Valid() && fresh(mp) && w.points == old(w.points)[mp := p]
      ensures p != null ==> OnlyCount(p)
    {
      hide World.Valid, Message.InUse;
      mp := Fresh(w);
      mp.Point(p, w);
    }

    static method Fresh(w: World) returns (mp: MessagePtr)
      requires w.Valid()
      modifies w`points
      ensures w.Valid() && fresh(mp) && mp.ptr == null && w.points == old(w.points)[mp := null]
    {
      mp := new MessagePtr.Null();
      w.points := w.points[mp := null];
      forall x | x in w.messages
        ensures w.Counted(x)
      {
        NewHandle(old(w.points), mp, null, x);
        assert old(w.Counted(x));
      }
    }

    static method Copy(o: MessagePtr, w: World) returns (mp: MessagePtr)
      requires w.Valid() && o in w.points
      modifies o.ptr, w`points
      ensures w.Valid() && fresh(mp) && w.points == old(w.points)[mp := o.ptr]
      ensures o.ptr != null ==> OnlyCount(o.ptr)
    {
      if o.ptr != null { Held(o, w); }
      mp := Adopt(o.ptr, w);
    }

    /** The new handle takes over the reference of o. */
    static method Move(o: MessagePtr, w: World) returns (mp: MessagePtr)
      requires w.Valid() && o in w.points
      modifies o, w`points
      ensures w.Valid() && fresh(mp) && w.points == old(w.points)[mp := old(o.ptr)][o := null]
    {
      hide World.Valid;
      mp := Fresh(w);
      mp.Take(o, w);
    }

    /** Takes over what o holds; o is left holding nothing, and no reference is counted. */
    method Take(o: MessagePtr, w: World)
      requires w.Valid() && this in w.points && o in w.points && ptr == null && this != o
      modifies `ptr, o`ptr, w`points
      ensures w.Valid() && w.points == old(w.points)[this := old(o.ptr)][o := null]
    {
      ghost var q, before := o.ptr, w.points;
      ptr := o.ptr;
      o.ptr := null;
      w.points := before[this := q][o := null];
      forall x | x in w.messages
        ensures w.Counted(x)
      {
        Redirect(before, this, q, x);
        Redirect(before[this := q], o, null, x);
        assert old(w.Counted(x));
      }
    }

    method CopyAssign(o: MessagePtr, w: World)
      requires w.Valid() && this in w.points && o in w.points
      modifies this, ptr, o.ptr, w`points, w.pool.freelist, w.pool.freelist.buffer
      ensures w.Valid() && w.points == old(w.points)[this := old(o.ptr)]
      ensures if old(ptr) == null || old(ptr) == old(o.ptr) then w.pool.Free() == old(w.pool.Free())
              else Ended(old(ptr), old(ptr.ends), old(w.points), old(ptr.recycler) == ToPool,
                         old(w.pool.Free()), w.pool.Free(), w.pool.freelist.capacity)
      ensures old(ptr) != null && old(ptr) == old(o.ptr) ==> ptr.ends == old(ptr.ends)
    {
      hide World.Valid, Message.InUse, Ended, OnlyCount;
      if ptr != o.ptr {
        ghost var q := o.ptr;
        Reset(w);
        assert o.ptr == q;
        if o.ptr != null { Held(o, w); }
        Point(o.ptr, w);
        assert old(w.points)[this := null][this := q] == old(w.points)[this := q];
      } else {
        PointsAt(this, w);
        assert w.points[this := ptr] == w.points;
      }
    }

    /** Assigning a handle to itself changes nothing. */
    method MoveAssign(o: MessagePtr, w: World)
      requires w.Valid() && this in w.points && o in w.points
      modifies this, ptr, o, w`points, w.pool.freelist, w.pool.freelist.buffer
      ensures w.Valid()
      ensures w.points == if this == o then old(w.points) else old(w.points)[this := old(o.ptr)][o := null]
      ensures if old(ptr) == null || this == o then w.pool.Free() == old(w.pool.Free())
              else Ended(old(ptr), old(ptr.ends), old(w.points), old(ptr.recycler) == ToPool,
                         old(w.pool.Free()), w.pool.Free(), w.pool.freelist.capacity)
    {
      hide World.Valid, Message.InUse, Ended;
      if this != o {
        ghost var q := o.ptr;
        Reset(w);
        Take(o, w);
        assert old(w.points)[this := null][this := q][o := null] == old(w.points)[this := q][o := null];
      }
    }

    /** The destructor. */
    method Destroy(w: World)
      requires w.Valid() && this in w.points
      modifies this, ptr, w`points, w.pool.freelist, w.pool.freelist.buffer
      ensures w.Valid() && w.points == old(w.points) - {this}
      ensures if old(ptr) == null then w.pool.Free() == old(w.pool.Free())
              else Ended(old(ptr), old(ptr.ends), old(w.points), old(ptr.recycler) == ToPool,
                         old(w.pool.Free()), w.pool.Free(), w.pool.freelist.capacity)
    {
      hide World.PoolOk, Ended;
      Reset(w);
      ghost var before := w.points;
      w.points := w.points - {this};
      forall x | x in w.messages
        ensures w.Counted(x)
      {
        DropHandle(before, this, x);
      }
      assert old(w.points)[this := null] - {this} == old(w.points) - {this};
    }
  }

  /** Nothing but the count of m has changed. */
  twostate predicate OnlyCount(m: Message)
    reads m
  {
    unchanged(m`recycler, m`onDrop, m`topicId, m`data, m`life, m`ends, m`deleted)
  }

  /** What becomes of a message that has ended: it goes to the end of the freelist if it came from
      the pool and there is room, and is deleted otherwise. */
  ghost predicate Disposed(m: Message, pooled: bool, before: seq<Message?>, after: seq<Message?>, capacity: nat)
    reads m
  {
    if pooled && |before| < capacity then after == before + [m] && !m.deleted else after == before && m.deleted
  }

  /** m ended once more, and was disposed of, if its handle was the only one, and not otherwise. */
  ghost predicate Ended(m: Message, ends: nat, points: Points, pooled: bool, before: seq<Message?>, after: seq<Message?>, capacity: nat)
    reads m
  {
    if |Holders(points, m)| == 1 then m.ends == ends + 1 && Disposed(m, pooled, before, after, capacity)
    else m.ends == ends && after == before && !m.deleted
  }

  lemma PointsAt(o: MessagePtr, w: World)
    requires w.Valid() && o in w.points
    ensures w.points[o] == o.ptr
  {}

  /** What a handle holds is in use. */
  lemma Held(o: MessagePtr, w: World)
    requires w.Valid() && o in w.points && o.ptr != null
    ensures o.ptr in w.messages && o.ptr.InUse() && 0 < o.ptr.refCount == |Holders(w.points, o.ptr)|
  {
    assert w.Counted(o.ptr) && o in Holders(w.points, o.ptr);
  }
}
