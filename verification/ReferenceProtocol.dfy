/** Reference counts and the object pool from any number of threads. Each step is one atomic
    operation on a count or on the freelist; a handle is used by one thread at a time, and can be
    handed to another one through a queue. */
module ReferenceProtocol {
  import opened Seqs

  /** life says in which life of the object the handle came to point to it; no step depends on it. */
  datatype Handle = Null | To(o: nat, life: nat)

  /** lives counts how often the object was handed out as a message, ends how often it ended. */
  datatype Object = Object(refCount: int, lives: nat, ends: nat, deleted: bool)

  /** Taken from the freelist, made ready for use but held by no handle, or about to be recycled
      after the last release. */
  datatype Pc = Idle | Taken(o: nat) | Ready(o: nat) | Ending(o: nat)

  /** owner[h] is the thread that may use handle h. */
  datatype State = State(objects: seq<Object>, free: seq<nat>, capacity: nat, handles: seq<Handle>, owner: seq<nat>, pcs: seq<Pc>)

  /** An attempt on the freelist may be refused at any time, and a message may have no recycler: so
      Acquire may make a new object, and End may delete one, whatever the freelist holds. */
  datatype Action =
    | Acquire(i: nat, pooled: bool)
    | Reset(i: nat)
    | Adopt(i: nat, h: nat)
    | Copy(i: nat, h: nat, from: nat)
    | Move(i: nat, h: nat, from: nat)
    | Give(i: nat, h: nat, to: nat)
    | Release(i: nat, h: nat)
    | End(i: nat, kept: bool)

  predicate Sized(s: State) { |s.owner| == |s.handles| }

  predicate Owns(s: State, i: nat, h: nat) { Sized(s) && h < |s.handles| && s.owner[h] == i }

  predicate PointsTo(s: State, h: nat) { h < |s.handles| && s.handles[h].To? && s.handles[h].o < |s.objects| }

  predicate Enabled(s: State, a: Action) {
    && Sized(s) && a.i < |s.pcs|
    && var pc := s.pcs[a.i];
       match a
       case Acquire(_, pooled) => pc.Idle? && (pooled ==> s.free != [])
       case Reset(_) => pc.Taken? && pc.o < |s.objects|
       case Adopt(i, h) => pc.Ready? && pc.o < |s.objects| && Owns(s, i, h) && s.handles[h].Null?
       case Copy(i, h, from) => pc.Idle? && Owns(s, i, h) && Owns(s, i, from) && s.handles[h].Null? && PointsTo(s, from)
       case Move(i, h, from) => pc.Idle? && Owns(s, i, h) && Owns(s, i, from) && s.handles[h].Null? && s.handles[from].To?
       case Give(i, h, to) => pc.Idle? && Owns(s, i, h) && to < |s.pcs|
       case Release(i, h) => pc.Idle? && Owns(s, i, h) && PointsTo(s, h)
       case End(_, kept) => pc.Ending? && pc.o < |s.objects| && (kept ==> |s.free| < s.capacity)
  }

  function AddRef(s: State, o: nat, delta: int): seq<Object>
    requires o < |s.objects|
  {
    s.objects[o := s.objects[o].(refCount := s.objects[o].refCount + delta)]
  }

  function Apply(s: State, a: Action): State
    requires Enabled(s, a)
  {
    var pc := s.pcs[a.i];
    match a
    case Acquire(i, pooled) =>
      if pooled then s.(free := s.free[1..], pcs := s.pcs[i := Taken(s.free[0])])
      else s.(objects := s.objects + [Object(0, 1, 0, false)], pcs := s.pcs[i := Ready(|s.objects|)])
    case Reset(i) =>
      s.(objects := s.objects[pc.o := s.objects[pc.o].(refCount := 0, lives := s.objects[pc.o].lives + 1)],
         pcs := s.pcs[i := Ready(pc.o)])
    case Adopt(i, h) =>
      s.(objects := AddRef(s, pc.o, 1), handles := s.handles[h := To(pc.o, s.objects[pc.o].lives)], pcs := s.pcs[i := Idle])
    case Copy(i, h, from) =>
      s.(objects := AddRef(s, s.handles[from].o, 1), handles := s.handles[h := s.handles[from]])
    case Move(i, h, from) => s.(handles := s.handles[h := s.handles[from]][from := Null])
    case Give(i, h, to) => s.(owner := s.owner[h := to])
    case Release(i, h) =>
      // the last one to let go goes on to end the message
      var o := s.handles[h].o;
      s.(objects := AddRef(s, o, -1), handles := s.handles[h := Null],
         pcs := s.pcs[i := if s.objects[o].refCount == 1 then Ending(o) else Idle])
    case End(i, kept) =>
      var x := s.objects[pc.o];
      s.(objects := s.objects[pc.o := x.(ends := x.ends + 1, deleted := !kept)],
         free := if kept then s.free + [pc.o] else s.free,
         pcs := s.pcs[i := Idle])
  }

  predicate Init(s: State) {
    && Sized(s) && s.objects == [] && s.free == []
    && (forall h :: 0 <= h < |s.handles| ==> s.handles[h].Null?)
    && (forall i :: 0 <= i < |s.pcs| ==> s.pcs[i].Idle?)
  }

  predicate Legal(s: State, acts: seq<Action>)
    decreases |acts|
  {
    acts == [] || (Enabled(s, acts[0]) && Legal(Apply(s, acts[0]), acts[1..]))
  }

  function Exec(s: State, acts: seq<Action>): State
    requires Legal(s, acts)
    decreases |acts|
  {
    if acts == [] then s else Exec(Apply(s, acts[0]), acts[1..])
  }

  // ---------- the invariant ----------

  predicate Busy(pc: Pc, o: nat) { !pc.Idle? && pc.o == o }

  ghost predicate InHand(pcs: seq<Pc>, o: nat) { exists i :: 0 <= i < |pcs| && Busy(pcs[i], o) }

  /** What the count says, and in which state of its life an object is. */
  ghost predicate ObjectOk(s: State, o: nat)
    requires o < |s.objects|
  {
    var x := s.objects[o];
    && x.refCount == Count(s.handles, To(o, x.lives))
    && x.ends <= x.lives <= x.ends + 1
    && (x.refCount > 0 ==> x.lives == x.ends + 1 && !x.deleted && o !in s.free && !InHand(s.pcs, o))
    && (x.refCount == 0 ==> o in s.free || x.deleted || InHand(s.pcs, o))
    && (o in s.free ==> !x.deleted && !InHand(s.pcs, o))
    && (x.deleted ==> !InHand(s.pcs, o))
    && (o in s.free || x.deleted ==> x.ends == x.lives)
  }

  ghost predicate HandOk(s: State, i: nat)
    requires i < |s.pcs|
  {
    var pc := s.pcs[i];
    !pc.Idle? ==> pc.o < |s.objects| && (s.objects[pc.o].lives == s.objects[pc.o].ends <==> pc.Taken?)
  }

  /** A handle points to the life in which it got the object. */
  ghost predicate HandleOk(objects: seq<Object>, x: Handle) { x.To? ==> x.o < |objects| && x.life == objects[x.o].lives }

  ghost predicate Alone(pcs: seq<Pc>) {
    forall i, j :: 0 <= i < |pcs| && 0 <= j < |pcs| && i != j && !pcs[i].Idle? ==> !Busy(pcs[j], pcs[i].o)
  }

  ghost predicate FreeOk(s: State) { NoDup(s.free) && forall n :: 0 <= n < |s.free| ==> s.free[n] < |s.objects| }

  ghost predicate Inv(s: State) {
    && Sized(s) && FreeOk(s) && Alone(s.pcs)
    && (forall o :: 0 <= o < |s.objects| ==> ObjectOk(s, o))
    && (forall i :: 0 <= i < |s.pcs| ==> HandOk(s, i))
    && (forall h :: 0 <= h < |s.handles| ==> HandleOk(s.objects, s.handles[h]))
  }

  // ---------- counting handles ----------

  lemma CountUpdate(xs: seq<Handle>, h: nat, y: Handle, x: Handle)
    requires h < |xs|
    ensures Count(xs[h := y], x) == Count(xs, x) - (if xs[h] == x then 1 else 0) + (if y == x then 1 else 0)
  {
    CountMultiset(xs, x);
    CountMultiset(xs[h := y], x);
  }

  /** A count of zero, or of one, says who points there. */
  lemma CountZero(xs: seq<Handle>, x: Handle)
    ensures Count(xs, x) == 0 <==> forall h :: 0 <= h < |xs| ==> xs[h] != x
  {
    CountMember(xs, x);
  }

  // ---------- threads ----------

  lemma AloneStep(s: State, a: Action)
    requires Inv(s) && Enabled(s, a)
    ensures Alone(Apply(s, a).pcs)
  {
    hide ObjectOk, HandleOk, Count;
    match a
    case Acquire(i, pooled) => if pooled { assert s.free[0] in s.free; assert ObjectOk(s, s.free[0]); NotInHand(s, s.free[0]); }
                               else { NewIsNew(s); }
    case Release(i, h) => HeldByHandle(s, h); NotInHand(s, s.handles[h].o);
    case _ =>
  }

  lemma NotInHand(s: State, o: nat)
    requires o < |s.objects| && ObjectOk(s, o) && (o in s.free || s.objects[o].refCount > 0)
    ensures forall j :: 0 <= j < |s.pcs| ==> !Busy(s.pcs[j], o)
  {}

  lemma NewIsNew(s: State)
    requires forall i :: 0 <= i < |s.pcs| ==> HandOk(s, i)
    ensures forall j :: 0 <= j < |s.pcs| ==> !Busy(s.pcs[j], |s.objects|)
  {
    forall j | 0 <= j < |s.pcs|
      ensures !Busy(s.pcs[j], |s.objects|)
    {
      assert HandOk(s, j);
    }
  }

  /** A handle's object is counted, in its current life, and nowhere else. */
  lemma HeldByHandle(s: State, h: nat)
    requires Inv(s) && h < |s.handles| && s.handles[h].To?
    ensures var x := s.handles[h];
            && x.o < |s.objects| && ObjectOk(s, x.o) && s.objects[x.o].refCount > 0
            && s.objects[x.o].lives == x.life
  {
    var x := s.handles[h];
    assert HandleOk(s.objects, x);
    CountZero(s.handles, x);
  }

  lemma HandStep(s: State, a: Action, j: nat)
    requires Inv(s) && Enabled(s, a) && j < |s.pcs|
    ensures HandOk(Apply(s, a), j)
  {
    hide ObjectOk, HandleOk, Count;
    assert HandOk(s, j) && HandOk(s, a.i);
    match a
    case Acquire(i, pooled) => if pooled { assert s.free[0] in s.free; assert ObjectOk(s, s.free[0]); FreeIsEnded(s, s.free[0]); }
    case Release(i, h) => HeldByHandle(s, h); HeldIsLive(s, s.handles[h].o);
    case Reset(_) => TakenIsEnded(s, a.i);
    case _ =>
  }

  lemma FreeIsEnded(s: State, o: nat)
    requires o < |s.objects| && ObjectOk(s, o) && o in s.free
    ensures s.objects[o].lives == s.objects[o].ends && s.objects[o].refCount == 0 && !s.objects[o].deleted
  {
    CountZero(s.handles, To(o, s.objects[o].lives));
  }

  lemma HeldIsLive(s: State, o: nat)
    requires o < |s.objects| && ObjectOk(s, o) && s.objects[o].refCount > 0
    ensures s.objects[o].lives == s.objects[o].ends + 1 && !s.objects[o].deleted && o !in s.free
  {}

  lemma TakenIsEnded(s: State, i: nat)
    requires Inv(s) && i < |s.pcs| && s.pcs[i].Taken?
    ensures s.pcs[i].o < |s.objects| && s.objects[s.pcs[i].o].lives == s.objects[s.pcs[i].o].ends
  {
    assert HandOk(s, i);
  }

  // ---------- objects ----------

  /** Where nothing about an object changes. */
  lemma SameObject(s: State, z: State, o: nat)
    requires o < |s.objects| && o < |z.objects| && ObjectOk(s, o) && z.objects[o] == s.objects[o]
    requires Count(z.handles, To(o, s.objects[o].lives)) == Count(s.handles, To(o, s.objects[o].lives))
    requires (o in z.free <==> o in s.free) && (InHand(z.pcs, o) <==> InHand(s.pcs, o))
    ensures ObjectOk(z, o)
  {}

  /** Thread i moves; what it does not touch stays in whatever hand it is. */
  lemma SameHands(pcs: seq<Pc>, i: nat, pc: Pc, o: nat)
    requires i < |pcs|
    ensures !Busy(pcs[i], o) && !Busy(pc, o) ==> (InHand(pcs[i := pc], o) <==> InHand(pcs, o))
    ensures Busy(pc, o) ==> InHand(pcs[i := pc], o)
    ensures Alone(pcs) && Busy(pcs[i], o) && !Busy(pc, o) ==> !InHand(pcs[i := pc], o)
  {
    var pcs' := pcs[i := pc];
    assert pcs'[i] == pc && forall j :: 0 <= j < |pcs| && j != i ==> pcs'[j] == pcs[j];
  }

  lemma ObjectAcquire(s: State, i: nat, pooled: bool, o: nat)
    requires Inv(s) && Enabled(s, Acquire(i, pooled)) && o < |Apply(s, Acquire(i, pooled)).objects|
    ensures ObjectOk(Apply(s, Acquire(i, pooled)), o)
  {
    hide Count;
    var z := Apply(s, Acquire(i, pooled));
    SameHands(s.pcs, i, z.pcs[i], o);
    if pooled {
      assert ObjectOk(s, o);
      assert s.free == [s.free[0]] + z.free;
      if o == s.free[0] { CountZero(s.handles, To(o, s.objects[o].lives)); }
    } else if o < |s.objects| {
      assert ObjectOk(s, o);
    } else {
      assert forall h :: 0 <= h < |s.handles| ==> HandleOk(s.objects, s.handles[h]);
      CountZero(s.handles, To(o, 1));
      NewIsNew(s);
    }
  }

  /** An object in a thread's hand is held by no handle of any life. */
  lemma InHandIsUnheld(s: State, i: nat)
    requires Inv(s) && i < |s.pcs| && !s.pcs[i].Idle?
    ensures var o := s.pcs[i].o;
            && o < |s.objects| && ObjectOk(s, o) && s.objects[o].refCount == 0 && o !in s.free && !s.objects[o].deleted
            && forall h :: 0 <= h < |s.handles| && s.handles[h].To? ==> s.handles[h].o != o
  {
    hide Count;
    var o := s.pcs[i].o;
    assert HandOk(s, i) && Busy(s.pcs[i], o);
    assert InHand(s.pcs, o) && ObjectOk(s, o);
    CountZero(s.handles, To(o, s.objects[o].lives));
    forall h | 0 <= h < |s.handles| && s.handles[h].To?
      ensures s.handles[h].o != o
    {
      HeldByHandle(s, h);
    }
  }

  lemma ObjectReset(s: State, i: nat, o: nat)
    requires Inv(s) && Enabled(s, Reset(i)) && o < |s.objects|
    ensures ObjectOk(Apply(s, Reset(i)), o)
  {
    hide Count;
    var z := Apply(s, Reset(i));
    assert ObjectOk(s, o);
    SameHands(s.pcs, i, z.pcs[i], o);
    if o == s.pcs[i].o {
      InHandIsUnheld(s, i);
      CountZero(s.handles, To(o, z.objects[o].lives));
      TakenIsEnded(s, i);
    }
  }

  lemma ObjectAdopt(s: State, i: nat, h: nat, o: nat)
    requires Inv(s) && Enabled(s, Adopt(i, h)) && o < |s.objects|
    ensures ObjectOk(Apply(s, Adopt(i, h)), o)
  {
    hide Count;
    var z := Apply(s, Adopt(i, h));
    assert ObjectOk(s, o) && HandOk(s, i);
    SameHands(s.pcs, i, Idle, o);
    InHandIsUnheld(s, i);
    CountUpdate(s.handles, h, z.handles[h], To(o, s.objects[o].lives));
  }

  lemma ObjectCopy(s: State, i: nat, h: nat, from: nat, o: nat)
    requires Inv(s) && Enabled(s, Copy(i, h, from)) && o < |s.objects|
    ensures ObjectOk(Apply(s, Copy(i, h, from)), o)
  {
    hide Count;
    assert ObjectOk(s, o);
    HeldByHandle(s, from);
    CountUpdate(s.handles, h, s.handles[from], To(o, s.objects[o].lives));
  }

  lemma ObjectMove(s: State, i: nat, h: nat, from: nat, o: nat)
    requires Inv(s) && Enabled(s, Move(i, h, from)) && o < |s.objects|
    ensures ObjectOk(Apply(s, Move(i, h, from)), o)
  {
    hide Count;
    assert ObjectOk(s, o);
    var x := To(o, s.objects[o].lives);
    CountUpdate(s.handles, h, s.handles[from], x);
    CountUpdate(s.handles[h := s.handles[from]], from, Null, x);
    SameObject(s, Apply(s, Move(i, h, from)), o);
  }

  /** The count drops to zero exactly when no other handle points to the object. */
  lemma ObjectRelease(s: State, i: nat, h: nat, o: nat)
    requires Inv(s) && Enabled(s, Release(i, h)) && o < |s.objects|
    ensures ObjectOk(Apply(s, Release(i, h)), o)
  {
    hide Count;
    var z := Apply(s, Release(i, h));
    assert ObjectOk(s, o);
    HeldByHandle(s, h);
    CountUpdate(s.handles, h, Null, To(o, s.objects[o].lives));
    SameHands(s.pcs, i, z.pcs[i], o);
  }

  lemma ObjectEnd(s: State, i: nat, kept: bool, o: nat)
    requires Inv(s) && Enabled(s, End(i, kept)) && o < |s.objects|
    ensures ObjectOk(Apply(s, End(i, kept)), o)
  {
    hide Count;
    assert ObjectOk(s, o) && HandOk(s, i);
    SameHands(s.pcs, i, Idle, o);
    InHandIsUnheld(s, i);
  }

  lemma ObjectStep(s: State, a: Action, o: nat)
    requires Inv(s) && Enabled(s, a) && o < |Apply(s, a).objects|
    ensures ObjectOk(Apply(s, a), o)
  {
    hide Inv, ObjectOk;
    match a
    case Acquire(i, pooled) => ObjectAcquire(s, i, pooled, o);
    case Reset(i) => ObjectReset(s, i, o);
    case Adopt(i, h) => ObjectAdopt(s, i, h, o);
    case Copy(i, h, from) => ObjectCopy(s, i, h, from, o);
    case Move(i, h, from) => ObjectMove(s, i, h, from, o);
    case Give(i, h, to) => ObjectGive(s, i, h, to, o);
    case Release(i, h) => ObjectRelease(s, i, h, o);
    case End(i, kept) => ObjectEnd(s, i, kept, o);
  }

  lemma ObjectGive(s: State, i: nat, h: nat, to: nat, o: nat)
    requires Inv(s) && Enabled(s, Give(i, h, to)) && o < |s.objects|
    ensures ObjectOk(Apply(s, Give(i, h, to)), o)
  {
    assert ObjectOk(s, o);
    SameObject(s, Apply(s, Give(i, h, to)), o);
  }

  // ---------- handles and the freelist ----------

  lemma HandleStep(s: State, a: Action, h: nat)
    requires Inv(s) && Enabled(s, a) && h < |s.handles|
    ensures HandleOk(Apply(s, a).objects, Apply(s, a).handles[h])
  {
    hide Count, ObjectOk;
    assert HandleOk(s.objects, s.handles[h]);
    if a.Reset? { InHandIsUnheld(s, a.i); }
    if a.Copy? || a.Move? { assert HandleOk(s.objects, s.handles[a.from]); }
  }

  lemma FreeStep(s: State, a: Action)
    requires Inv(s) && Enabled(s, a)
    ensures FreeOk(Apply(s, a))
  {
    hide Count, ObjectOk, HandleOk, HandOk;
    if a.End? { InHandIsUnheld(s, a.i); }
  }

  /** Every step of every thread keeps the counts right and every object in one place. */
  lemma StepInv(s: State, a: Action)
    requires Inv(s) && Enabled(s, a)
    ensures Inv(Apply(s, a))
  {
    hide Count, ObjectOk, HandleOk, HandOk, FreeOk, Alone;
    var z := Apply(s, a);
    FreeStep(s, a);
    AloneStep(s, a);
    forall o | 0 <= o < |z.objects|
      ensures ObjectOk(z, o)
    {
      ObjectStep(s, a, o);
    }
    forall j | 0 <= j < |z.pcs|
      ensures HandOk(z, j)
    {
      HandStep(s, a, j);
    }
    forall h | 0 <= h < |z.handles|
      ensures HandleOk(z.objects, z.handles[h])
    {
      HandleStep(s, a, h);
    }
  }

  lemma InitInv(s: State)
    requires Init(s)
    ensures Inv(s)
  {}

  lemma {:induction false} RunInv(s: State, acts: seq<Action>)
    requires Inv(s) && Legal(s, acts)
    ensures Inv(Exec(s, acts))
    decreases |acts|
  {
    hide Inv, Apply, Enabled;
    if acts != [] {
      StepInv(s, acts[0]);
      RunInv(Apply(s, acts[0]), acts[1..]);
    }
  }

  // ---------- what the counts are for ----------

  ghost predicate Held(s: State, o: nat) { exists h :: 0 <= h < |s.handles| && s.handles[h].To? && s.handles[h].o == o }

  /** Whoever lets go is told to end the message if and only if no handle of any thread is left. */
  lemma LastOneEnds(s: State, i: nat, h: nat)
    requires Inv(s) && Enabled(s, Release(i, h))
    ensures var z, o := Apply(s, Release(i, h)), s.handles[h].o; z.pcs[i] == Ending(o) <==> !Held(z, o)
  {
    hide Count;
    var z, x := Apply(s, Release(i, h)), s.handles[h];
    HeldByHandle(s, h);
    CountUpdate(s.handles, h, Null, x);
    CountZero(z.handles, x);
    forall k | 0 <= k < |z.handles| && z.handles[k].To? && z.handles[k].o == x.o
      ensures z.handles[k] == x
    {
      HeldByHandle(s, k);
    }
  }

  /** In every reachable state each object is in exactly one place: held by handles, with the right
      count; in the hand of one thread; in the freelist, once; or deleted. Its message is alive, and
      will still end, exactly while it is held, ready to be, or being ended. */
  lemma OnePlace(s: State, acts: seq<Action>, o: nat)
    requires Init(s) && Legal(s, acts) && o < |Exec(s, acts).objects|
    ensures var z := Exec(s, acts); var x := z.objects[o];
            && x.refCount == Count(z.handles, To(o, x.lives))
            && (x.refCount > 0 <==> Held(z, o))
            && (if Held(z, o) then o !in z.free && !x.deleted && !InHand(z.pcs, o)
                else if o in z.free then !x.deleted && !InHand(z.pcs, o)
                else x.deleted <==> !InHand(z.pcs, o))
            && Count(z.free, o) <= 1 && (InHand(z.pcs, o) ==> OneHand(z.pcs, o))
            && x.lives == x.ends + (if Held(z, o) || InUse(z.pcs, o) then 1 else 0)
  {
    InitInv(s);
    RunInv(s, acts);
    var z := Exec(s, acts);
    hide Count, Exec, Legal, Init;
    assert ObjectOk(z, o);
    CountZero(z.handles, To(o, z.objects[o].lives));
    if Held(z, o) {
      var h :| 0 <= h < |z.handles| && z.handles[h].To? && z.handles[h].o == o;
      HeldByHandle(z, h);
    }
    OnceAtMost(z.free, o);
    forall i | 0 <= i < |z.pcs| && Busy(z.pcs[i], o)
      ensures HandOk(z, i)
    {}
  }

  ghost predicate OneHand(pcs: seq<Pc>, o: nat) {
    forall i, j :: 0 <= i < |pcs| && 0 <= j < |pcs| && Busy(pcs[i], o) && Busy(pcs[j], o) ==> i == j
  }

  /** Some thread has the object ready for its first handle, or is ending it. */
  ghost predicate InUse(pcs: seq<Pc>, o: nat) { exists i :: 0 <= i < |pcs| && Busy(pcs[i], o) && !pcs[i].Taken? }

  /** What a handle points to is the message it came to point to: not ended, not handed out again,
      not deleted, and never in the freelist. */
  lemma HeldIsCurrent(s: State, acts: seq<Action>, h: nat)
    requires Init(s) && Legal(s, acts) && h < |Exec(s, acts).handles| && Exec(s, acts).handles[h].To?
    ensures var z := Exec(s, acts); var x := z.handles[h];
            && x.o < |z.objects| && z.objects[x.o].lives == x.life == z.objects[x.o].ends + 1
            && !z.objects[x.o].deleted && x.o !in z.free
  {
    InitInv(s);
    RunInv(s, acts);
    HeldByHandle(Exec(s, acts), h);
    HeldIsLive(Exec(s, acts), Exec(s, acts).handles[h].o);
  }

  /** Lives are used up one after the other. */
  lemma EndsGrow(s: State, a: Action, o: nat)
    requires Enabled(s, a) && o < |s.objects|
    ensures o < |Apply(s, a).objects| && s.objects[o].ends <= Apply(s, a).objects[o].ends
  {}

  /** A message that has ended is never held again: its object comes back only as another message. */
  lemma {:induction false} EndedIsGone(s: State, acts: seq<Action>, o: nat, life: nat)
    requires Inv(s) && Legal(s, acts) && o < |s.objects| && life <= s.objects[o].ends
    ensures var z := Exec(s, acts);
            && o < |z.objects| && life <= z.objects[o].ends
            && forall h :: 0 <= h < |z.handles| ==> z.handles[h] != To(o, life)
    decreases |acts|
  {
    hide Inv, Apply, Enabled;
    if acts == [] {
      forall h | 0 <= h < |s.handles| && s.handles[h].To? && s.handles[h].o == o
        ensures s.handles[h].life > life
      {
        HeldByHandle(s, h);
        HeldIsLive(s, o);
      }
    } else {
      EndsGrow(s, acts[0], o);
      StepInv(s, acts[0]);
      EndedIsGone(Apply(s, acts[0]), acts[1..], o, life);
    }
  }
}
