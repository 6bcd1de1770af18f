/** What the queue promises, over every run of every number of threads. */
module QueueTheorems {
  import opened FifoSpec
  import opened Ring
  import opened QueueProtocol
  import opened QueueProofs

  // ---------- refinement of the abstract bounded queue ----------

  ghost function ItemAt<V>(s: State<V>, k: nat): Item<V>
    requires WellSized(s) && LogsOk(s) && k < s.enqueuePos
  {
    Item(s.enqLog[k], CellAt(s, k).sequence == k + 1)
  }

  ghost function Items<V>(s: State<V>, lo: nat): (items: seq<Item<V>>)
    requires WellSized(s) && LogsOk(s) && lo <= s.enqueuePos
    ensures |items| == s.enqueuePos - lo
    ensures forall i :: 0 <= i < |items| ==> items[i] == ItemAt(s, lo + i)
    decreases s.enqueuePos - lo
  {
    if lo == s.enqueuePos then [] else [ItemAt(s, lo)] + Items(s, lo + 1)
  }

  ghost function Abs<V>(s: State<V>): Fifo<V>
    requires WellSized(s) && LogsOk(s)
  {
    Fifo(Items(s, s.dequeuePos), s.dequeuePos, set q: nat | q < s.dequeuePos && q !in s.delivered)
  }

  /** The abstract operation a concrete step performs: a claim happens at its successful
      compare-and-swap, a refusal at its sequence load. */
  ghost function OpOf<V>(s: State<V>, a: Action<V>): Op<V>
    requires Inv(s) && Enabled(s, a)
  {
    var pc := s.threads[a.t];
    match a
    case CompareExchange(_, spurious) =>
      if spurious then Skip
      else if pc.EnqCas? && s.enqueuePos == pc.pos then Claim(pc.value)
      else if pc.DeqCas? && s.dequeuePos == pc.pos then
        (if pc.pos < s.enqueuePos then Take(s.enqLog[pc.pos]) else Skip)
      else Skip
    case StoreSequence(_) => if pc.EnqPublish? then Publish(pc.pos) else Release(pc.pos)
    case LoadSequence(t) =>
      if Apply(s, a).threads[t] == EnqDone(false) then Full
      else if Apply(s, a).threads[t].DeqDone? then Empty
      else Skip
    case _ => Skip
  }

  lemma AbsSame<V>(s: State<V>, s': State<V>)
    requires Inv(s) && Inv(s')
    requires s'.enqueuePos == s.enqueuePos && s'.dequeuePos == s.dequeuePos && s'.capacity == s.capacity
    requires s'.enqLog == s.enqLog && s'.delivered == s.delivered
    requires forall i :: 0 <= i < s.capacity ==> s'.cells[i].sequence == s.cells[i].sequence
    ensures Abs(s') == Abs(s)
  {
    forall k: nat | s.dequeuePos <= k < s.enqueuePos
      ensures ItemAt(s', k) == ItemAt(s, k)
    {
    }
    assert Abs(s').items == Abs(s).items;
  }

  /** Every concrete step is one allowed step of the abstract queue. */
  lemma StepRefines<V>(s: State<V>, a: Action<V>)
    requires Inv(s) && Enabled(s, a)
    ensures Inv(Apply(s, a))
    ensures CanDo(Abs(s), OpOf(s, a), s.capacity)
    ensures Abs(Apply(s, a)) == Do(Abs(s), OpOf(s, a), s.capacity)
  {
    StepInv(s, a);
    assert ThreadOk(s, a.t);
    var s' := Apply(s, a);
    match OpOf(s, a)
    case Claim(_) => RefineClaim(s, a);
    case Take(_) => RefineTake(s, a);
    case Publish(_) => RefinePublish(s, a);
    case Release(_) => RefineRelease(s, a);
    case Full => RefineRefusal(s, a); AbsSame(s, s');
    case Empty => RefineRefusal(s, a); AbsSame(s, s');
    case Skip =>
      if a.CompareExchange? && !a.spurious && s.threads[a.t].DeqCas? && s.dequeuePos == s.threads[a.t].pos {
        DequeueClaim(s, a.t);
        assert false;
      }
      AbsSame(s, s');
  }

  lemma RefineClaim<V>(s: State<V>, a: Action<V>)
    requires Inv(s) && Enabled(s, a) && OpOf(s, a).Claim? && Inv(Apply(s, a))
    ensures CanDo(Abs(s), OpOf(s, a), s.capacity)
    ensures Abs(Apply(s, a)) == Do(Abs(s), OpOf(s, a), s.capacity)
  {
    var s' := Apply(s, a);
    assert ThreadOk(s, a.t) && ThreadOk(s', a.t);
    HeadCell(s);
    forall k: nat | s.dequeuePos <= k < s.enqueuePos
      ensures ItemAt(s', k) == ItemAt(s, k)
    {
    }
    assert Abs(s').items == Abs(s).Claim(s.threads[a.t].value).items;
  }

  lemma RefineTake<V>(s: State<V>, a: Action<V>)
    requires Inv(s) && Enabled(s, a) && OpOf(s, a).Take? && Inv(Apply(s, a))
    ensures CanDo(Abs(s), OpOf(s, a), s.capacity)
    ensures Abs(Apply(s, a)) == Do(Abs(s), OpOf(s, a), s.capacity)
  {
    assert ThreadOk(s, a.t);
    TailCell(s);
    TakeItems(s, Apply(s, a));
  }

  lemma TakeItems<V>(s: State<V>, s': State<V>)
    requires Inv(s) && Inv(s') && s'.cells == s.cells && s'.capacity == s.capacity
    requires s'.enqLog == s.enqLog && s'.delivered == s.delivered && s'.dequeuePos == s.dequeuePos + 1
    ensures Abs(s).items != [] && Abs(s') == Abs(s).Take()
  {
    forall k: nat | s.dequeuePos < k < s.enqueuePos
      ensures ItemAt(s', k) == ItemAt(s, k)
    {
    }
    assert Abs(s').items == Abs(s).items[1..];
    assert s.dequeuePos !in s.delivered;
    assert Abs(s').releasing == Abs(s).releasing + {s.dequeuePos};
  }

  lemma RefinePublish<V>(s: State<V>, a: Action<V>)
    requires Inv(s) && Enabled(s, a) && OpOf(s, a).Publish? && Inv(Apply(s, a))
    ensures CanDo(Abs(s), OpOf(s, a), s.capacity)
    ensures Abs(Apply(s, a)) == Do(Abs(s), OpOf(s, a), s.capacity)
  {
    hide CellOk, HeldEnq, HeldDeq;
    var s' := Apply(s, a);
    var q := s.threads[a.t].pos;
    assert ThreadOk(s, a.t);
    forall p: nat | s.dequeuePos <= p < s.enqueuePos && p != q
      ensures ItemAt(s', p) == ItemAt(s, p)
    {
      OtherPosition(s, a, p);
    }
    assert Abs(s').items == Abs(s).Publish(q).items;
  }

  lemma RefineRelease<V>(s: State<V>, a: Action<V>)
    requires Inv(s) && Enabled(s, a) && OpOf(s, a).Release? && Inv(Apply(s, a))
    ensures CanDo(Abs(s), OpOf(s, a), s.capacity)
    ensures Abs(Apply(s, a)) == Do(Abs(s), OpOf(s, a), s.capacity)
  {
    var s' := Apply(s, a);
    var q := s.threads[a.t].pos;
    assert ThreadOk(s, a.t) && HeldDeq(s, q);
    forall p: nat | s.dequeuePos <= p < s.enqueuePos
      ensures ItemAt(s', p) == ItemAt(s, p)
    {
      OtherPosition(s, a, p);
    }
    assert Abs(s').items == Abs(s).items;
    assert Abs(s').releasing == Abs(s).Release(q).releasing;
  }

  /** The meaning of a refusal, at the instant of its sequence load: pos was the current
      position, and its cell was not free (not ready) in the abstract queue. */
  lemma RefineRefusal<V>(s: State<V>, a: Action<V>)
    requires Inv(s) && Enabled(s, a) && a.LoadSequence?
    ensures OpOf(s, a).Full? ==> s.threads[a.t].pos == s.enqueuePos && !Abs(s).CanClaim(s.capacity)
    ensures OpOf(s, a).Empty? ==> s.threads[a.t].pos == s.dequeuePos && !Abs(s).CanTake()
  {
    var pc := s.threads[a.t];
    assert ThreadOk(s, a.t);
    SequenceAtLeast(s, pc.pos);
    HeadCell(s);
    TailCell(s);
  }

  ghost function Ops<V>(s: State<V>, acts: seq<Action<V>>): seq<Op<V>>
    requires Inv(s) && Legal(s, acts)
    decreases |acts|
  {
    if acts == [] then []
    else
      StepInv(s, acts[0]);
      [OpOf(s, acts[0])] + Ops(Apply(s, acts[0]), acts[1..])
  }

  /** Linearizability: a run replays, step by step, on the abstract queue. */
  lemma {:induction false} RunRefines<V>(s: State<V>, acts: seq<Action<V>>)
    requires Inv(s) && Legal(s, acts)
    ensures Inv(Exec(s, acts)) && Exec(s, acts).capacity == s.capacity
    ensures CanReplay(Abs(s), Ops(s, acts), s.capacity)
    ensures Abs(Exec(s, acts)) == Replay(Abs(s), Ops(s, acts), s.capacity)
    decreases |acts|
  {
    hide CellOk, ThreadOk, HeldEnq, HeldDeq, Abs, Do, CanDo;
    if acts != [] {
      var s1 := Apply(s, acts[0]);
      StepRefines(s, acts[0]);
      RunRefines(s1, acts[1..]);
      ReplayCons(Abs(s), OpOf(s, acts[0]), Ops(s1, acts[1..]), s.capacity);
    }
  }

  // ---------- first in, first out ----------

  /** The logs are append-only, and the enqueue log records exactly the abstract claims. */
  ghost predicate LogsExtend<V>(s: State<V>, z: State<V>, claimed: seq<V>) {
    && z.enqLog == s.enqLog + claimed
    && s.enqBy <= z.enqBy && s.deqBy <= z.deqBy
    && (forall k :: k in s.delivered ==> k in z.delivered && z.delivered[k] == s.delivered[k])
  }

  lemma LogStep<V>(s: State<V>, a: Action<V>)
    requires Inv(s) && Enabled(s, a)
    ensures LogsExtend(s, Apply(s, a), if OpOf(s, a).Claim? then [OpOf(s, a).v] else [])
  {
    assert ThreadOk(s, a.t);
    if a.StoreSequence? && s.threads[a.t].DeqRelease? {
      assert HeldDeq(s, s.threads[a.t].pos);
    }
  }

  lemma LogsCompose<V>(s: State<V>, s1: State<V>, z: State<V>, c1: seq<V>, c2: seq<V>)
    requires LogsExtend(s, s1, c1) && LogsExtend(s1, z, c2)
    ensures LogsExtend(s, z, c1 + c2)
  {}

  lemma {:induction false} LogsGrow<V>(s: State<V>, acts: seq<Action<V>>)
    requires Inv(s) && Legal(s, acts)
    ensures LogsExtend(s, Exec(s, acts), Claimed(Ops(s, acts)))
    decreases |acts|
  {
    hide CellOk, ThreadOk, HeldEnq, HeldDeq, Abs, Do, CanDo;
    if acts != [] {
      var s1 := Apply(s, acts[0]);
      StepRefines(s, acts[0]);
      LogsGrow(s1, acts[1..]);
      LogStep(s, acts[0]);
      LogsCompose(s, s1, Exec(s1, acts[1..]), if OpOf(s, acts[0]).Claim? then [OpOf(s, acts[0]).v] else [],
                  Claimed(Ops(s1, acts[1..])));
      RunRefines(s1, acts[1..]);
      ReplayCons(Abs(s), OpOf(s, acts[0]), Ops(s1, acts[1..]), s.capacity);
    }
  }

  /** What the k-th dequeue claim delivers, and who holds it until then. */
  ghost predicate DeliversInOrder<V>(z: State<V>) {
    && (forall k :: k in z.delivered ==> k < z.dequeuePos <= |z.enqLog| && z.delivered[k] == z.enqLog[k])
    && |z.deqBy| == z.dequeuePos
    && (forall k: nat :: k < z.dequeuePos && k !in z.delivered ==>
          z.deqBy[k] in z.threads && z.threads[z.deqBy[k]].OwnsDeq(k))
  }

  lemma InvDelivers<V>(z: State<V>)
    requires Inv(z)
    ensures DeliversInOrder(z)
  {
    forall k: nat | k < z.dequeuePos
      ensures k in z.delivered ==> z.delivered[k] == z.enqLog[k]
      ensures k !in z.delivered ==> z.deqBy[k] in z.threads && z.threads[z.deqBy[k]].OwnsDeq(k)
    {
      assert HeldDeq(z, k);
    }
  }

  /** In every run from an empty queue, the k-th dequeue claim delivers the value of the k-th
      enqueue claim, and a claim that has not delivered yet is held by the thread that made it.
      Replayed on the abstract queue, the values taken followed by those inside are the values
      claimed. */
  lemma FifoOrder<V>(s: State<V>, acts: seq<Action<V>>)
    requires Init(s) && Legal(s, acts)
    ensures Inv(s) && Inv(Exec(s, acts)) && DeliversInOrder(Exec(s, acts))
    ensures Exec(s, acts).enqLog == Claimed(Ops(s, acts))
    ensures Claimed(Ops(s, acts)) == Taken(Ops(s, acts)) + Abs(Exec(s, acts)).Values()
  {
    InitInv(s);
    RunRefines(s, acts);
    LogsGrow(s, acts);
    InvDelivers(Exec(s, acts));
    InitiallyEmpty(s);
    FirstInFirstOut(Abs(s), Ops(s, acts), s.capacity);
    assert Abs(s).Values() + Claimed(Ops(s, acts)) == Claimed(Ops(s, acts));
  }

  lemma InitiallyEmpty<V>(s: State<V>)
    requires Init(s) && Inv(s)
    ensures Abs(s) == NewFifo() && Abs(s).Values() == [] && s.enqLog == []
  {}

  // ---------- bounds and cell ownership in every reachable state ----------

  lemma SafetyBounds<V>(s: State<V>, acts: seq<Action<V>>)
    requires Init(s) && Legal(s, acts)
    ensures var z := Exec(s, acts);
            && WellSized(z) && z.capacity == s.capacity
            && z.dequeuePos <= z.enqueuePos <= z.dequeuePos + z.capacity
            && (forall p: nat :: z.enqueuePos <= p < z.enqueuePos + z.capacity ==>
                  CellAt(z, p).sequence == p
                  || (p >= z.capacity && p - z.capacity <= CellAt(z, p).sequence <= p - z.capacity + 1))
            && (forall t, u | t in z.threads && u in z.threads && t != u
                              && z.threads[t].InFlight() && z.threads[u].InFlight() ::
                  Slot(z.threads[t].pos, z.capacity) != Slot(z.threads[u].pos, z.capacity))
  {
    InitInv(s);
    RunRefines(s, acts);
    var z := Exec(s, acts);
    forall p: nat | z.enqueuePos <= p < z.enqueuePos + z.capacity
      ensures CellAt(z, p).sequence == p
              || (p >= z.capacity && p - z.capacity <= CellAt(z, p).sequence <= p - z.capacity + 1)
    {
      assert CellOk(z, p);
    }
    forall t, u | t in z.threads && u in z.threads && t != u
                  && z.threads[t].InFlight() && z.threads[u].InFlight()
      ensures Slot(z.threads[t].pos, z.capacity) != Slot(z.threads[u].pos, z.capacity)
    {
      DistinctOwners(z, t, u);
    }
  }

  lemma {:induction false} SequencesNeverDecrease<V>(s: State<V>, acts: seq<Action<V>>, p: nat)
    requires Inv(s) && Legal(s, acts)
    ensures Inv(Exec(s, acts)) && CellAt(Exec(s, acts), p).sequence >= CellAt(s, p).sequence
    decreases |acts|
  {
    if acts != [] {
      SequenceGrows(s, acts[0], p);
      StepInv(s, acts[0]);
      SequencesNeverDecrease(Apply(s, acts[0]), acts[1..], p);
    }
  }

  // ---------- what false means ----------

  ghost predicate Quiet<V>(s: State<V>) {
    forall t :: t in s.threads ==> !s.threads[t].InFlight()
  }

  /** try_enqueue gives up exactly when its position is current and the previous tenant of the
      cell is unreleased: the ring is full of claims, or a dequeuer in flight holds the cell. */
  lemma EnqueueRefusal<V>(s: State<V>, t: Tid)
    requires Inv(s) && t in s.threads && s.threads[t].EnqSeq?
    ensures Apply(s, LoadSequence(t)).threads[t] == EnqDone(false)
            <==> s.threads[t].pos == s.enqueuePos
                 && (s.enqueuePos == s.dequeuePos + s.capacity
                     || exists u :: u in s.threads && s.enqueuePos >= s.capacity
                                    && s.threads[u].OwnsDeq(s.enqueuePos - s.capacity))
    ensures Quiet(s) && s.threads[t].pos == s.enqueuePos ==>
              (Apply(s, LoadSequence(t)).threads[t] == EnqDone(false)
               <==> s.enqueuePos - s.dequeuePos == s.capacity)
  {
    assert ThreadOk(s, t);
    var pos, e, c := s.threads[t].pos, s.enqueuePos, s.capacity;
    SequenceAtLeast(s, pos);
    HeadCell(s);
    if e >= c && e - c < s.dequeuePos {
      assert HeldDeq(s, e - c);
      forall u | u in s.threads && s.threads[u].OwnsDeq(e - c)
        ensures e - c !in s.delivered
      {
        assert ThreadOk(s, u);
      }
      SlotOfNext(e - c, c);
    }
    forall u | u in s.threads && e >= c && s.threads[u].OwnsDeq(e - c)
      ensures e - c < s.dequeuePos
    {
      assert ThreadOk(s, u);
    }
    if e == s.dequeuePos + c { SlotOfNext(e - c, c); assert HeldEnq(s, e - c); }
  }

  /** try_dequeue gives up exactly when its position is current and either nothing is claimed
      there or an enqueuer in flight has claimed it without publishing. */
  lemma DequeueRefusal<V>(s: State<V>, t: Tid)
    requires Inv(s) && t in s.threads && s.threads[t].DeqSeq?
    ensures Apply(s, LoadSequence(t)).threads[t].DeqDone?
            <==> s.threads[t].pos == s.dequeuePos
                 && (s.enqueuePos == s.dequeuePos
                     || exists u :: u in s.threads && s.threads[u].OwnsEnq(s.dequeuePos))
    ensures Quiet(s) && s.threads[t].pos == s.dequeuePos ==>
              (Apply(s, LoadSequence(t)).threads[t].DeqDone? <==> s.enqueuePos == s.dequeuePos)
  {
    assert ThreadOk(s, t);
    var pos, d := s.threads[t].pos, s.dequeuePos;
    SequenceAtLeast(s, pos);
    TailCell(s);
    if d < s.enqueuePos {
      assert HeldEnq(s, d);
      forall u | u in s.threads && s.threads[u].OwnsEnq(d)
        ensures CellAt(s, d).sequence == d
      {
        assert ThreadOk(s, u);
      }
    }
  }

  // ---------- lock-free progress ----------

  ghost predicate InEnqLoop<V>(pc: Pc<V>) { pc.EnqSeq? || pc.EnqCas? || pc.EnqReload? }
  ghost predicate InDeqLoop<V>(pc: Pc<V>) { pc.DeqSeq? || pc.DeqCas? || pc.DeqReload? }

  /** A loop makes another round only after a spurious failure, or when the position it loads
      next is strictly ahead of the one it held. */
  lemma RetryMeansProgress<V>(s: State<V>, a: Action<V>)
    requires Inv(s) && Enabled(s, a)
    requires InEnqLoop(s.threads[a.t]) || InDeqLoop(s.threads[a.t])
    ensures var pc, pc' := s.threads[a.t], Apply(s, a).threads[a.t];
            (pc'.EnqSeq? || pc'.DeqSeq?) ==>
              if pc'.pos > pc.pos then pc'.retries == pc.retries + 1
              else a.CompareExchange? && a.spurious && pc'.pos == pc.pos && pc'.retries == pc.retries
  {
    assert ThreadOk(s, a.t);
  }

  /** While a thread is in a loop, no claim since its first load is its own. */
  ghost predicate ClaimsByOthers<V>(s: State<V>) {
    forall t :: t in s.threads ==>
      (InEnqLoop(s.threads[t]) ==> NotIn(s.enqBy, s.threads[t].start, t))
      && (InDeqLoop(s.threads[t]) ==> NotIn(s.deqBy, s.threads[t].start, t))
  }

  ghost predicate NotIn(log: seq<Tid>, start: nat, t: Tid) {
    forall k :: start <= k < |log| ==> log[k] != t
  }

  lemma ClaimsStepOf<V>(s: State<V>, a: Action<V>, t: Tid)
    requires Inv(s) && ClaimsByOthers(s) && Enabled(s, a) && t in s.threads
    ensures var s1 := Apply(s, a);
            && t in s1.threads
            && (InEnqLoop(s1.threads[t]) ==> NotIn(s1.enqBy, s1.threads[t].start, t))
            && (InDeqLoop(s1.threads[t]) ==> NotIn(s1.deqBy, s1.threads[t].start, t))
  {
    hide CellOk, HeldEnq, HeldDeq, Apply;
    ClaimsGrow(s, a);
    if t == a.t { OwnClaims(s, a); }
  }

  /** A step adds at most a claim of its own thread. */
  lemma ClaimsGrow<V>(s: State<V>, a: Action<V>)
    requires Inv(s) && Enabled(s, a)
    ensures var s1 := Apply(s, a);
            && s1.threads == s.threads[a.t := s1.threads[a.t]]
            && (s1.enqBy == s.enqBy || s1.enqBy == s.enqBy + [a.t])
            && (s1.deqBy == s.deqBy || s1.deqBy == s.deqBy + [a.t])
  {
    hide CellOk, HeldEnq, HeldDeq, ThreadOk;
  }

  /** A thread in a loop has just begun, or it was in the loop and claims nothing in this step. */
  lemma OwnClaims<V>(s: State<V>, a: Action<V>)
    requires Inv(s) && Enabled(s, a)
    ensures var s1, pc, pc' := Apply(s, a), s.threads[a.t], Apply(s, a).threads[a.t];
            && (InEnqLoop(pc') ==> s1.enqBy == s.enqBy && (pc'.start == |s.enqBy| || (InEnqLoop(pc) && pc'.start == pc.start)))
            && (InDeqLoop(pc') ==> s1.deqBy == s.deqBy && (pc'.start == |s.deqBy| || (InDeqLoop(pc) && pc'.start == pc.start)))
  {
    hide CellOk, HeldEnq, HeldDeq;
    assert ThreadOk(s, a.t);
  }

  lemma ClaimsStep<V>(s: State<V>, a: Action<V>)
    requires Inv(s) && ClaimsByOthers(s) && Enabled(s, a)
    ensures ClaimsByOthers(Apply(s, a))
  {
    hide CellOk, ThreadOk, HeldEnq, HeldDeq;
    var s1 := Apply(s, a);
    forall t | t in s1.threads
      ensures InEnqLoop(s1.threads[t]) ==> NotIn(s1.enqBy, s1.threads[t].start, t)
      ensures InDeqLoop(s1.threads[t]) ==> NotIn(s1.deqBy, s1.threads[t].start, t)
    {
      ClaimsStepOf(s, a, t);
    }
  }

  lemma {:induction false} ClaimsStayByOthers<V>(s: State<V>, acts: seq<Action<V>>)
    requires Inv(s) && ClaimsByOthers(s) && Legal(s, acts)
    ensures ClaimsByOthers(Exec(s, acts))
    decreases |acts|
  {
    if acts != [] {
      StepInv(s, acts[0]);
      var s1 := Apply(s, acts[0]);
      ClaimsStep(s, acts[0]);
      ClaimsStayByOthers(s1, acts[1..]);
    }
  }

  /** The rounds an operation has lost without a spurious failure are at most the claims that
      other threads completed since its first load. */
  lemma RetriesBounded<V>(s: State<V>, acts: seq<Action<V>>, t: Tid)
    requires Init(s) && Legal(s, acts) && t in Exec(s, acts).threads
    ensures var z := Exec(s, acts);
            && (InEnqLoop(z.threads[t]) ==>
                  z.threads[t].retries + z.threads[t].start <= |z.enqBy|
                  && t !in z.enqBy[z.threads[t].start..])
            && (InDeqLoop(z.threads[t]) ==>
                  z.threads[t].retries + z.threads[t].start <= |z.deqBy|
                  && t !in z.deqBy[z.threads[t].start..])
  {
    InitInv(s);
    RunInv(s, acts);
    ClaimsStayByOthers(s, acts);
    assert ThreadOk(Exec(s, acts), t);
  }

  // ---------- the machine arithmetic of the difference ----------

  const WORD: int := 0x1_0000_0000_0000_0000
  const HALF: int := 0x8000_0000_0000_0000

  /** A size_t reread as a signed word. */
  function Signed(x: nat): int
    requires x < WORD
  {
    if x < HALF then x else x - WORD
  }

  /** The signed difference is the true one exactly when both words lie in the same half of the
      range; below 2^63 it therefore has the right sign and does not overflow. */
  lemma SignedDifference(x: nat, y: nat)
    requires x < WORD && y < WORD
    ensures Signed(x) - Signed(y) == x - y <==> (x < HALF <==> y < HALF)
    ensures x < HALF && y < HALF ==> -HALF < Signed(x) - Signed(y) == x - y < HALF
  {}
}
