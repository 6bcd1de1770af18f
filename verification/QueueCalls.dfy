/** What the answers of try_enqueue and try_dequeue mean, over every run: each call and its return
    are noted apart from the steps in between, and the answer is held against the claims made. */
module QueueCalls {
  import opened QueueProtocol
  import opened QueueProofs
  import opened QueueTheorems

  datatype Call<V> = Enqueue(v: V) | Dequeue

  /** A call in progress, with how many claims there had been on each side when it was made. */
  datatype Open<V> = Open(call: Call<V>, enqs: nat, deqs: nat)

  type Calls<V> = map<Tid, Open<V>>

  ghost function Note<V>(calls: Calls<V>, s: State<V>, a: Action<V>): Calls<V> {
    match a
    case CallEnqueue(t, v) => calls[t := Open(Enqueue(v), |s.enqBy|, |s.deqBy|)]
    case CallDequeue(t) => calls[t := Open(Dequeue, |s.enqBy|, |s.deqBy|)]
    case Return(t) => calls - {t}
    case _ => calls
  }

  /** The calls in progress after a run. */
  ghost function Notes<V>(calls: Calls<V>, s: State<V>, acts: seq<Action<V>>): Calls<V>
    requires Legal(s, acts)
    decreases |acts|
  {
    if acts == [] then calls else Notes(Note(calls, s, acts[0]), Apply(s, acts[0]), acts[1..])
  }

  /** Since the from-th claim, thread t has made the claim k and no other. */
  ghost predicate OneClaim(log: seq<Tid>, from: nat, t: Tid, k: nat) {
    from <= k < |log| && log[k] == t && forall j :: from <= j < |log| && log[j] == t ==> j == k
  }

  /** The value of the k-th enqueue claim is in its cell for every dequeuer to see, or was. */
  ghost predicate Published<V>(s: State<V>, k: nat)
    requires WellSized(s) && LogsOk(s)
  {
    k < s.enqueuePos && (k < s.dequeuePos || CellAt(s, k) == Cell(k + 1, s.enqLog[k]))
  }

  /** Thread t is in a call of try_enqueue(v) that has made no claim on either side. */
  ghost predicate Enqueueing<V>(s: State<V>, o: Open<V>, t: Tid, v: V) {
    o.call == Enqueue(v) && NotIn(s.enqBy, o.enqs, t) && NotIn(s.deqBy, o.deqs, t)
  }

  /** It has made the claim k, for its value, and no other. */
  ghost predicate Enqueued<V>(s: State<V>, o: Open<V>, t: Tid, k: nat) {
    && o.call.Enqueue? && OneClaim(s.enqBy, o.enqs, t, k) && NotIn(s.deqBy, o.deqs, t)
    && k < |s.enqLog| && s.enqLog[k] == o.call.v
  }

  ghost predicate Dequeueing<V>(s: State<V>, o: Open<V>, t: Tid) {
    o.call == Dequeue && NotIn(s.enqBy, o.enqs, t) && NotIn(s.deqBy, o.deqs, t)
  }

  ghost predicate Dequeued<V>(s: State<V>, o: Open<V>, t: Tid, k: nat) {
    o.call == Dequeue && NotIn(s.enqBy, o.enqs, t) && OneClaim(s.deqBy, o.deqs, t, k)
  }

  ghost predicate CallOk<V>(s: State<V>, o: Open<V>, t: Tid, pc: Pc<V>)
    requires WellSized(s) && LogsOk(s)
  {
    && o.enqs <= |s.enqBy| && o.deqs <= |s.deqBy|
    && match pc
       case Idle => false
       case EnqLoad(v) => Enqueueing(s, o, t, v)
       case EnqSeq(v, _, _, _) => Enqueueing(s, o, t, v)
       case EnqCas(v, _, _, _) => Enqueueing(s, o, t, v)
       case EnqReload(v, _, _, _) => Enqueueing(s, o, t, v)
       case EnqWrite(_, pos) => Enqueued(s, o, t, pos)
       case EnqPublish(pos) => Enqueued(s, o, t, pos)
       case EnqDone(ok) =>
         if ok then exists k: nat :: Enqueued(s, o, t, k) && Published(s, k)
         else o.call.Enqueue? && Enqueueing(s, o, t, o.call.v)
       case DeqLoad => Dequeueing(s, o, t)
       case DeqSeq(_, _, _) => Dequeueing(s, o, t)
       case DeqCas(_, _, _) => Dequeueing(s, o, t)
       case DeqReload(_, _, _) => Dequeueing(s, o, t)
       case DeqRead(pos) => Dequeued(s, o, t, pos)
       case DeqRelease(pos, _) => Dequeued(s, o, t, pos)
       case DeqDone(found, pos) =>
         if found then Dequeued(s, o, t, pos) && pos in s.delivered else Dequeueing(s, o, t)
  }

  ghost predicate CallsOk<V>(calls: Calls<V>, s: State<V>)
    requires WellSized(s) && LogsOk(s)
  {
    forall t :: t in s.threads && !s.threads[t].Idle? ==> t in calls && CallOk(s, calls[t], t, s.threads[t])
  }

  // ---------- what a step leaves alone ----------

  /** Logs only grow, by claims of the thread that moves. */
  ghost predicate Grown<V>(s: State<V>, z: State<V>, mover: Tid)
    requires WellSized(s) && LogsOk(s) && WellSized(z) && LogsOk(z)
  {
    && (z.enqBy == s.enqBy || z.enqBy == s.enqBy + [mover])
    && (z.deqBy == s.deqBy || z.deqBy == s.deqBy + [mover])
    && |s.enqLog| == |s.enqBy| && s.enqLog <= z.enqLog
    && (forall k :: k in s.delivered ==> k in z.delivered)
    && (forall k :: Published(s, k) ==> Published(z, k))
  }

  lemma PublishedStays<V>(s: State<V>, a: Action<V>, k: nat)
    requires Inv(s) && Enabled(s, a) && Published(s, k) && Inv(Apply(s, a))
    ensures Published(Apply(s, a), k)
  {
    hide CellOk, HeldEnq, HeldDeq;
    assert ThreadOk(s, a.t);
    if k >= s.dequeuePos && (a.WriteData? || a.ReadData? || a.StoreSequence?) { OtherPosition(s, a, k); }
  }

  lemma EnqLogGrows<V>(s: State<V>, a: Action<V>)
    requires Inv(s) && Enabled(s, a) && Inv(Apply(s, a))
    ensures Apply(s, a).enqLog == s.enqLog || |Apply(s, a).enqLog| == |s.enqLog| + 1
    ensures s.enqLog <= Apply(s, a).enqLog
    ensures forall k :: k in s.delivered ==> k in Apply(s, a).delivered
  {
    hide CellOk, HeldEnq, HeldDeq, ThreadOk;
  }

  lemma GrownStep<V>(s: State<V>, a: Action<V>)
    requires Inv(s) && Enabled(s, a) && Inv(Apply(s, a))
    ensures Grown(s, Apply(s, a), a.t)
  {
    hide CellOk, HeldEnq, HeldDeq, ThreadOk, Apply, Published;
    ClaimsGrow(s, a);
    EnqLogGrows(s, a);
    forall k | Published(s, k)
      ensures Published(Apply(s, a), k)
    {
      PublishedStays(s, a, k);
    }
  }

  /** A thread that does not move is where its call left it. */
  lemma OtherCallOk<V>(s: State<V>, z: State<V>, o: Open<V>, t: Tid, mover: Tid, pc: Pc<V>)
    requires WellSized(s) && LogsOk(s) && WellSized(z) && LogsOk(z)
    requires Grown(s, z, mover) && t != mover && CallOk(s, o, t, pc)
    ensures CallOk(z, o, t, pc)
  {
    hide Published;
    if pc == EnqDone(true) {
      var k: nat :| Enqueued(s, o, t, k) && Published(s, k);
      assert Enqueued(z, o, t, k) && Published(z, k);
    }
  }

  // ---------- the thread that moves ----------

  lemma BeginsCall<V>(s: State<V>, a: Action<V>, calls: Calls<V>)
    requires Inv(s) && Enabled(s, a) && (a.CallEnqueue? || a.CallDequeue?)
    ensures var z := Apply(s, a);
            WellSized(z) && LogsOk(z) && CallOk(z, Note(calls, s, a)[a.t], a.t, z.threads[a.t])
  {
    hide CellOk, HeldEnq, HeldDeq, ThreadOk;
  }

  lemma OwnCallOk<V>(s: State<V>, a: Action<V>, o: Open<V>)
    requires Inv(s) && Enabled(s, a) && Inv(Apply(s, a)) && !a.CallEnqueue? && !a.CallDequeue? && !a.Return?
    requires CallOk(s, o, a.t, s.threads[a.t])
    ensures var z := Apply(s, a); CallOk(z, o, a.t, z.threads[a.t])
  {
    hide CellOk, HeldEnq, HeldDeq, ThreadOk, CallOk, Apply;
    if a.CompareExchange? {
      OwnExchange(s, a, o);
    } else if a.StoreSequence? {
      OwnStore(s, a, o);
    } else {
      OwnMove(s, a, o);
    }
  }

  lemma OwnExchange<V>(s: State<V>, a: Action<V>, o: Open<V>)
    requires Inv(s) && Enabled(s, a) && Inv(Apply(s, a)) && a.CompareExchange? && CallOk(s, o, a.t, s.threads[a.t])
    ensures var z := Apply(s, a); CallOk(z, o, a.t, z.threads[a.t])
  {
    hide CellOk, HeldEnq, HeldDeq, Published;
    assert ThreadOk(s, a.t);
  }

  lemma OwnStore<V>(s: State<V>, a: Action<V>, o: Open<V>)
    requires Inv(s) && Enabled(s, a) && Inv(Apply(s, a)) && a.StoreSequence? && CallOk(s, o, a.t, s.threads[a.t])
    ensures var z := Apply(s, a); CallOk(z, o, a.t, z.threads[a.t])
  {
    hide CellOk, HeldEnq, HeldDeq;
    assert ThreadOk(s, a.t);
    var k := s.threads[a.t].pos;
    if s.threads[a.t].EnqPublish? { assert Enqueued(Apply(s, a), o, a.t, k) && Published(Apply(s, a), k); }
  }

  lemma OwnMove<V>(s: State<V>, a: Action<V>, o: Open<V>)
    requires Inv(s) && Enabled(s, a) && Inv(Apply(s, a)) && CallOk(s, o, a.t, s.threads[a.t])
    requires a.LoadPos? || a.LoadSequence? || a.WriteData? || a.ReadData?
    ensures var z := Apply(s, a); CallOk(z, o, a.t, z.threads[a.t])
  {
    hide CellOk, HeldEnq, HeldDeq, ThreadOk, Published;
  }

  lemma CallsStep<V>(s: State<V>, a: Action<V>, calls: Calls<V>)
    requires Inv(s) && Enabled(s, a) && CallsOk(calls, s)
    ensures Inv(Apply(s, a)) && CallsOk(Note(calls, s, a), Apply(s, a))
  {
    hide CellOk, HeldEnq, HeldDeq, ThreadOk, CallOk, Grown, Apply;
    StepInv(s, a);
    GrownStep(s, a);
    ClaimsGrow(s, a);
    var z := Apply(s, a);
    forall t | t in z.threads && !z.threads[t].Idle?
      ensures t in Note(calls, s, a) && CallOk(z, Note(calls, s, a)[t], t, z.threads[t])
    {
      if t != a.t {
        OtherCallOk(s, z, calls[t], t, a.t, s.threads[t]);
      } else if a.CallEnqueue? || a.CallDequeue? {
        BeginsCall(s, a, calls);
      } else {
        BusyBefore(s, a);
        OwnCallOk(s, a, calls[t]);
      }
    }
  }

  lemma BusyBefore<V>(s: State<V>, a: Action<V>)
    requires Enabled(s, a) && !a.CallEnqueue? && !a.CallDequeue?
    ensures !s.threads[a.t].Idle? && (a.Return? ==> Apply(s, a).threads[a.t].Idle?)
  {}

  lemma {:induction false} CallsRun<V>(s: State<V>, acts: seq<Action<V>>, calls: Calls<V>)
    requires Inv(s) && Legal(s, acts) && CallsOk(calls, s)
    ensures Inv(Exec(s, acts)) && CallsOk(Notes(calls, s, acts), Exec(s, acts))
    decreases |acts|
  {
    hide CellOk, HeldEnq, HeldDeq, ThreadOk, CallOk, Apply, Enabled;
    if acts != [] {
      CallsStep(s, acts[0], calls);
      CallsRun(Apply(s, acts[0]), acts[1..], Note(calls, s, acts[0]));
    }
  }

  // ---------- what an answer means ----------

  /** In every run, whatever other threads do: try_enqueue(v) answers true if and only if it made
      exactly one claim, and then v is the value of that claim and is published; it answers false
      if and only if it made none. */
  lemma EnqueueAnswer<V>(s: State<V>, acts: seq<Action<V>>, t: Tid)
    requires Init(s) && Legal(s, acts) && t in Exec(s, acts).threads && Exec(s, acts).threads[t].EnqDone?
    ensures var z, calls := Exec(s, acts), Notes(map[], s, acts);
            && WellSized(z) && LogsOk(z) && t in calls && calls[t].call.Enqueue? && NotIn(z.deqBy, calls[t].deqs, t)
            && (z.threads[t].ok <==> exists k: nat :: OneClaim(z.enqBy, calls[t].enqs, t, k)
                                                     && z.enqLog[k] == calls[t].call.v && Published(z, k))
            && (!z.threads[t].ok <==> NotIn(z.enqBy, calls[t].enqs, t))
  {
    InitInv(s);
    CallsRun(s, acts, map[]);
  }

  /** In every run try_dequeue answers true with the k-th value if and only if it made the k-th claim
      and no other, and hands over the value of the k-th enqueue claim; it answers false if and only
      if it made none. */
  lemma DequeueAnswer<V>(s: State<V>, acts: seq<Action<V>>, t: Tid)
    requires Init(s) && Legal(s, acts) && t in Exec(s, acts).threads && Exec(s, acts).threads[t].DeqDone?
    ensures var z, calls := Exec(s, acts), Notes(map[], s, acts); var pc := z.threads[t];
            && t in calls && calls[t].call.Dequeue? && NotIn(z.enqBy, calls[t].enqs, t)
            && (pc.found <==> OneClaim(z.deqBy, calls[t].deqs, t, pc.pos))
            && (pc.found ==> pc.pos < |z.enqLog| && pc.pos in z.delivered && z.delivered[pc.pos] == z.enqLog[pc.pos])
            && (!pc.found <==> NotIn(z.deqBy, calls[t].deqs, t))
  {
    InitInv(s);
    CallsRun(s, acts, map[]);
    InvDelivers(Exec(s, acts));
  }

  // ---------- a thread left alone returns ----------

  /** What is left of a call when no other thread moves and no exchange fails without cause. */
  ghost function Left<V>(s: State<V>, pc: Pc<V>): nat {
    match pc
    case Idle => 0
    case EnqLoad(_) => 7
    case EnqSeq(_, pos, _, _) => if pos == s.enqueuePos then 6 else 8
    case EnqCas(_, pos, _, _) => if pos == s.enqueuePos then 5 else 7
    case EnqReload(_, _, _, _) => 7
    case EnqWrite(_, _) => 4
    case EnqPublish(_) => 3
    case EnqDone(_) => 1
    case DeqLoad => 7
    case DeqSeq(pos, _, _) => if pos == s.dequeuePos then 6 else 8
    case DeqCas(pos, _, _) => if pos == s.dequeuePos then 5 else 7
    case DeqReload(_, _, _) => 7
    case DeqRead(_) => 4
    case DeqRelease(_, _) => 3
    case DeqDone(_, _) => 1
  }

  ghost function OwnAction<V>(pc: Pc<V>, t: Tid, leftover: V): (a: Action<V>)
    ensures a.t == t && (a.CompareExchange? ==> !a.spurious)
  {
    if pc.EnqLoad? || pc.EnqReload? || pc.DeqLoad? || pc.DeqReload? then LoadPos(t)
    else if pc.EnqSeq? || pc.DeqSeq? then LoadSequence(t)
    else if pc.EnqCas? || pc.DeqCas? then CompareExchange(t, false)
    else if pc.EnqWrite? then WriteData(t)
    else if pc.DeqRead? then ReadData(t, leftover)
    else if pc.EnqPublish? || pc.DeqRelease? then StoreSequence(t)
    else Return(t)
  }

  lemma LeftLess<V>(s: State<V>, t: Tid, leftover: V)
    requires Inv(s) && t in s.threads && !s.threads[t].Idle?
    ensures var a := OwnAction(s.threads[t], t, leftover);
            && Enabled(s, a) && t in Apply(s, a).threads
            && Left(Apply(s, a), Apply(s, a).threads[t]) < Left(s, s.threads[t])
  {
    var pc := s.threads[t];
    assert ThreadOk(s, t);
    HeadCell(s);
    TailCell(s);
    hide CellOk, HeldEnq, HeldDeq, ThreadOk;
  }

  /** From any reachable state, a thread in a call returns within eight steps of its own if it is
      left alone, whatever the other threads were in the middle of. */
  lemma {:induction false} AloneReturns<V>(s: State<V>, t: Tid, leftover: V) returns (acts: seq<Action<V>>)
    requires Inv(s) && t in s.threads
    ensures |acts| <= Left(s, s.threads[t]) <= 8 && (forall i :: 0 <= i < |acts| ==> acts[i].t == t)
    ensures Legal(s, acts) && t in Exec(s, acts).threads && Exec(s, acts).threads[t].Idle?
    decreases Left(s, s.threads[t])
  {
    hide Inv, Enabled, Apply;
    acts := [];
    if !s.threads[t].Idle? {
      var a := OwnAction(s.threads[t], t, leftover);
      LeftLess(s, t, leftover);
      StepInv(s, a);
      var more := AloneReturns(Apply(s, a), t, leftover);
      acts := [a] + more;
      assert acts[1..] == more;
    }
  }
}
