/** Every step of the queue keeps the invariant. */
module QueueProofs {
  import opened Ring
  import opened QueueProtocol

  /** A sequence never falls behind a position that was already reached. */
  lemma SequenceAtLeast<V>(s: State<V>, pos: nat)
    requires Inv(s) && pos <= s.enqueuePos
    ensures pos < s.enqueuePos ==> CellAt(s, pos).sequence >= pos
    ensures pos < s.dequeuePos ==> CellAt(s, pos).sequence >= pos + 1
  {
    var w := Companion(pos, s.enqueuePos, s.capacity);
    assert CellOk(s, w);
    if pos < s.enqueuePos && w == pos + s.capacity {
      if pos < s.dequeuePos { assert HeldDeq(s, pos); }
    } else if pos < s.enqueuePos {
      FarCompanion(pos, w, s.capacity);
    }
  }

  lemma FarCompanion(p: nat, w: nat, c: nat)
    requires c > 0 && p < w && Slot(p, c) == Slot(w, c)
    ensures p + c <= w
  {
    if w < p + c { SlotDistinct(p, w, c); }
  }

  /** The two cells in play for a claim attempt at the head of each side. */
  lemma HeadCell<V>(s: State<V>)
    requires Inv(s)
    ensures CellAt(s, s.enqueuePos).sequence == s.enqueuePos
            ==> s.enqueuePos < s.dequeuePos + s.capacity
                && (s.enqueuePos >= s.capacity ==> s.enqueuePos - s.capacity in s.delivered)
    ensures CellAt(s, s.enqueuePos).sequence != s.enqueuePos
            ==> CellAt(s, s.enqueuePos).sequence < s.enqueuePos && s.enqueuePos >= s.capacity
                && (s.enqueuePos == s.dequeuePos + s.capacity
                    || (s.enqueuePos - s.capacity < s.dequeuePos && s.enqueuePos - s.capacity !in s.delivered))
  {
    var e, c := s.enqueuePos, s.capacity;
    assert CellOk(s, e);
    if e >= c {
      SlotOfNext(e - c, c);
      if e - c < s.dequeuePos { assert HeldDeq(s, e - c); } else { assert HeldEnq(s, e - c); }
    }
  }

  lemma TailCell<V>(s: State<V>)
    requires Inv(s)
    ensures CellAt(s, s.dequeuePos).sequence >= s.dequeuePos + 1
            <==> s.dequeuePos < s.enqueuePos && CellAt(s, s.dequeuePos) == Cell(s.dequeuePos + 1, s.enqLog[s.dequeuePos])
    ensures CellAt(s, s.dequeuePos).sequence <= s.dequeuePos + 1
  {
    if s.dequeuePos < s.enqueuePos {
      assert HeldEnq(s, s.dequeuePos);
    } else {
      HeadCell(s);
    }
  }

  // ---------- steps that leave positions and cells alone ----------

  lemma GotoKeeps<V>(s: State<V>, t: Tid, pc: Pc<V>)
    requires Inv(s) && t in s.threads
    requires !s.threads[t].InFlight() && !pc.InFlight()
    requires ThreadOk(Goto(s, t, pc), t)
    ensures Inv(Goto(s, t, pc))
  {
    var s' := Goto(s, t, pc);
    forall p: nat | s'.enqueuePos <= p < s'.enqueuePos + s'.capacity
      ensures CellOk(s', p)
    {
      assert CellOk(s, p);
    }
    forall u | u in s'.threads
      ensures ThreadOk(s', u)
    {
      assert u != t ==> ThreadOk(s, u);
    }
    forall q: nat | s'.dequeuePos <= q < s'.enqueuePos
      ensures HeldEnq(s', q)
    {
      assert HeldEnq(s, q);
    }
    forall q: nat | q < s'.dequeuePos
      ensures HeldDeq(s', q)
    {
      assert HeldDeq(s, q);
    }
  }

  lemma LocalStep<V>(s: State<V>, a: Action<V>)
    requires Inv(s) && Enabled(s, a)
    requires a.CallEnqueue? || a.CallDequeue? || a.LoadPos? || a.LoadSequence? || a.Return?
    ensures Inv(Apply(s, a))
  {
    var pc := s.threads[a.t];
    assert ThreadOk(s, a.t);
    if a.LoadSequence? {
      SequenceAtLeast(s, pc.pos);
      HeadCell(s);
      TailCell(s);
    }
    GotoKeeps(s, a.t, Apply(s, a).threads[a.t]);
  }

  lemma FailedExchange<V>(s: State<V>, a: Action<V>)
    requires Inv(s) && Enabled(s, a) && a.CompareExchange?
    requires a.spurious || (s.threads[a.t].EnqCas? && s.enqueuePos != s.threads[a.t].pos)
             || (s.threads[a.t].DeqCas? && s.dequeuePos != s.threads[a.t].pos)
    ensures Inv(Apply(s, a))
  {
    assert ThreadOk(s, a.t);
    GotoKeeps(s, a.t, Apply(s, a).threads[a.t]);
  }

  // ---------- claims ----------

  lemma EnqueueClaim<V>(s: State<V>, t: Tid)
    requires Inv(s) && t in s.threads && s.threads[t].EnqCas? && s.threads[t].pos == s.enqueuePos
    ensures Inv(Apply(s, CompareExchange(t, false)))
  {
    var s' := Apply(s, CompareExchange(t, false));
    var e, c := s.enqueuePos, s.capacity;
    assert ThreadOk(s, t);
    HeadCell(s);
    assert CellAt(s, e).sequence == e;
    SlotOfNext(e, c);
    forall p: nat | s'.enqueuePos <= p < s'.enqueuePos + c
      ensures CellOk(s', p)
    {
      assert p < e + c ==> CellOk(s, p);
    }
    forall q: nat | s'.dequeuePos <= q < s'.enqueuePos
      ensures HeldEnq(s', q)
    {
      assert q < e ==> HeldEnq(s, q);
    }
    forall q: nat | q < s'.dequeuePos
      ensures HeldDeq(s', q)
    {
      assert HeldDeq(s, q);
      if q + c == e { SlotOfNext(q, c); }
    }
    forall u | u in s'.threads
      ensures ThreadOk(s', u)
    {
      EnqueueClaimThread(s, t, u);
    }
  }

  lemma EnqueueClaimThread<V>(s: State<V>, t: Tid, u: Tid)
    requires Inv(s) && t in s.threads && s.threads[t].EnqCas? && s.threads[t].pos == s.enqueuePos
    requires s.enqueuePos < s.dequeuePos + s.capacity && CellAt(s, s.enqueuePos).sequence == s.enqueuePos
    requires u in s.threads
    ensures ThreadOk(Apply(s, CompareExchange(t, false)), u)
  {
    hide CellOk, HeldEnq, HeldDeq;
    assert ThreadOk(s, t) && ThreadOk(s, u);
    if u != t && (s.threads[u].DeqRead? || s.threads[u].DeqRelease?) && s.threads[u].pos + s.capacity == s.enqueuePos {
      SlotOfNext(s.threads[u].pos, s.capacity);
    }
  }

  lemma DequeueClaim<V>(s: State<V>, t: Tid)
    requires Inv(s) && t in s.threads && s.threads[t].DeqCas? && s.threads[t].pos == s.dequeuePos
    ensures s.dequeuePos < s.enqueuePos
    ensures Inv(Apply(s, CompareExchange(t, false)))
  {
    var s' := Apply(s, CompareExchange(t, false));
    var d, c := s.dequeuePos, s.capacity;
    assert ThreadOk(s, t);
    TailCell(s);
    SlotOfNext(d, c);
    forall p: nat | s'.enqueuePos <= p < s'.enqueuePos + c
      ensures CellOk(s', p)
    {
      assert CellOk(s, p);
    }
    forall q: nat | s'.dequeuePos <= q < s'.enqueuePos
      ensures HeldEnq(s', q)
    {
      assert HeldEnq(s, q);
    }
    forall q: nat | q < s'.dequeuePos
      ensures HeldDeq(s', q)
    {
      assert q < d ==> HeldDeq(s, q);
      assert d !in s.delivered;
    }
    forall u | u in s'.threads
      ensures ThreadOk(s', u)
    {
      DequeueClaimThread(s, t, u);
    }
  }

  lemma DequeueClaimThread<V>(s: State<V>, t: Tid, u: Tid)
    requires Inv(s) && t in s.threads && s.threads[t].DeqCas? && s.threads[t].pos == s.dequeuePos < s.enqueuePos
    requires CellAt(s, s.dequeuePos) == Cell(s.dequeuePos + 1, s.enqLog[s.dequeuePos]) && u in s.threads
    ensures ThreadOk(Apply(s, CompareExchange(t, false)), u)
  {
    hide CellOk, HeldEnq, HeldDeq;
    assert ThreadOk(s, t) && ThreadOk(s, u);
  }

  // ---------- steps on a cell its thread owns ----------

  /** Positions that share the window of a live position q live in other cells. */
  lemma OtherCells<V>(s: State<V>, q: nat, c: Cell<V>, p: nat)
    requires Inv(s) && p != q && (p < q ==> q < p + s.capacity) && (q < p ==> p < q + s.capacity)
    ensures CellAt(SetCell(s, q, c), p) == CellAt(s, p)
  {
    if p < q { SlotDistinct(p, q, s.capacity); } else { SlotDistinct(q, p, s.capacity); }
  }

  lemma OwnedStep<V>(s: State<V>, a: Action<V>)
    requires Inv(s) && Enabled(s, a) && (a.WriteData? || a.ReadData? || a.StoreSequence?)
    ensures Inv(Apply(s, a))
  {
    hide CellOk, HeldEnq, HeldDeq;
    var s' := Apply(s, a);
    OwnedLogs(s, a);
    forall p: nat | s'.enqueuePos <= p < s'.enqueuePos + s.capacity
      ensures CellOk(s', p)
    {
      assert CellOk(s, p);
      OwnedCellStep(s, a, p);
    }
    forall p: nat | s'.dequeuePos <= p < s'.enqueuePos
      ensures HeldEnq(s', p)
    {
      OwnedHeldEnq(s, a, p);
    }
    forall p: nat | p < s'.dequeuePos
      ensures HeldDeq(s', p)
    {
      OwnedHeldDeq(s, a, p);
    }
    forall u | u in s'.threads
      ensures ThreadOk(s', u)
    {
      assert ThreadOk(s, u);
      OwnedThreadStep(s, a, u);
    }
  }

  lemma OwnedLogs<V>(s: State<V>, a: Action<V>)
    requires Inv(s) && Enabled(s, a) && (a.WriteData? || a.ReadData? || a.StoreSequence?)
    ensures var s' := Apply(s, a);
            && WellSized(s') && LogsOk(s') && s'.threads.Keys == s.threads.Keys
            && forall q :: q in s'.delivered ==> q < s'.dequeuePos
  {
    hide CellOk, HeldEnq, HeldDeq;
    assert ThreadOk(s, a.t);
  }

  lemma OwnedHeldEnq<V>(s: State<V>, a: Action<V>, p: nat)
    requires Inv(s) && Enabled(s, a) && (a.WriteData? || a.ReadData? || a.StoreSequence?)
    requires s.dequeuePos <= p < s.enqueuePos
    ensures WellSized(Apply(s, a)) && LogsOk(Apply(s, a)) && HeldEnq(Apply(s, a), p)
  {
    hide CellOk, HeldDeq;
    assert ThreadOk(s, a.t) && HeldEnq(s, p);
    if p != s.threads[a.t].pos { OtherPosition(s, a, p); }
  }

  lemma OwnedHeldDeq<V>(s: State<V>, a: Action<V>, p: nat)
    requires Inv(s) && Enabled(s, a) && (a.WriteData? || a.ReadData? || a.StoreSequence?)
    requires p < s.dequeuePos
    ensures WellSized(Apply(s, a)) && LogsOk(Apply(s, a)) && HeldDeq(Apply(s, a), p)
  {
    hide CellOk, HeldEnq;
    var q := s.threads[a.t].pos;
    assert ThreadOk(s, a.t) && HeldDeq(s, p);
    SlotOfNext(q, s.capacity);
    if p != q && s.enqueuePos <= p + s.capacity { OtherPosition(s, a, p); }
  }

  lemma OtherPosition<V>(s: State<V>, a: Action<V>, p: nat)
    requires Inv(s) && Enabled(s, a) && (a.WriteData? || a.ReadData? || a.StoreSequence?)
    requires p != s.threads[a.t].pos && s.enqueuePos <= p + s.capacity && p < s.enqueuePos
    ensures CellAt(Apply(s, a), p) == CellAt(s, p)
  {
    hide CellOk, HeldEnq, HeldDeq;
    var q := s.threads[a.t].pos;
    assert ThreadOk(s, a.t);
    OtherCells(s, q, Apply(s, a).cells[Slot(q, s.capacity)], p);
  }

  lemma OwnedCellStep<V>(s: State<V>, a: Action<V>, p: nat)
    requires Inv(s) && Enabled(s, a) && (a.WriteData? || a.ReadData? || a.StoreSequence?)
    requires s.enqueuePos <= p < s.enqueuePos + s.capacity && CellOk(s, p)
    ensures CellOk(Apply(s, a), p)
  {
    var q := s.threads[a.t].pos;
    assert ThreadOk(s, a.t);
    SlotOfNext(q, s.capacity);
    if p != q + s.capacity {
      if p < q + s.capacity { SlotDistinct(p, q + s.capacity, s.capacity); } else { SlotDistinct(q + s.capacity, p, s.capacity); }
    }
  }

  /** No step ever moves a cell's sequence back. */
  lemma SequenceGrows<V>(s: State<V>, a: Action<V>, p: nat)
    requires Inv(s) && Enabled(s, a)
    ensures WellSized(Apply(s, a)) && CellAt(Apply(s, a), p).sequence >= CellAt(s, p).sequence
  {
    assert ThreadOk(s, a.t);
  }

  lemma SteppedThread<V>(s: State<V>, a: Action<V>)
    requires Inv(s) && Enabled(s, a) && (a.WriteData? || a.ReadData? || a.StoreSequence?)
    ensures LogsOk(Apply(s, a)) && a.t in Apply(s, a).threads && ThreadOk(Apply(s, a), a.t)
  {
    hide CellOk, HeldEnq, HeldDeq;
    assert ThreadOk(s, a.t);
  }

  lemma OwnedThreadStep<V>(s: State<V>, a: Action<V>, u: Tid)
    requires Inv(s) && Enabled(s, a) && (a.WriteData? || a.ReadData? || a.StoreSequence?)
    requires u in s.threads && ThreadOk(s, u)
    ensures LogsOk(Apply(s, a)) && u in Apply(s, a).threads && ThreadOk(Apply(s, a), u)
  {
    hide CellOk, HeldEnq, HeldDeq;
    if u == a.t {
      SteppedThread(s, a);
    } else if s.threads[u].InFlight() {
      DistinctOwners(s, a.t, u);
      OtherPosition(s, a, s.threads[u].pos);
    } else if s.threads[u].EnqCas? || s.threads[u].DeqCas? {
      SequenceGrows(s, a, s.threads[u].pos);
    }
  }

  /** No two in-flight operations own the same cell's data. */
  lemma DistinctOwners<V>(s: State<V>, t: Tid, u: Tid)
    requires Inv(s) && t in s.threads && u in s.threads && t != u
    requires s.threads[t].InFlight() && s.threads[u].InFlight()
    ensures s.threads[t].pos != s.threads[u].pos
    ensures Slot(s.threads[t].pos, s.capacity) != Slot(s.threads[u].pos, s.capacity)
  {
    assert ThreadOk(s, t) && ThreadOk(s, u);
    var p, q, c := s.threads[t].pos, s.threads[u].pos, s.capacity;
    if p < q && q < p + c { SlotDistinct(p, q, c); }
    if q < p && p < q + c { SlotDistinct(q, p, c); }
  }

  /** Each step of any thread keeps the invariant. */
  lemma StepInv<V>(s: State<V>, a: Action<V>)
    requires Inv(s) && Enabled(s, a)
    ensures Inv(Apply(s, a))
  {
    if a.WriteData? || a.ReadData? || a.StoreSequence? {
      OwnedStep(s, a);
    } else if !a.CompareExchange? {
      LocalStep(s, a);
    } else if !a.spurious && s.threads[a.t].EnqCas? && s.threads[a.t].pos == s.enqueuePos {
      EnqueueClaim(s, a.t);
    } else if !a.spurious && s.threads[a.t].DeqCas? && s.threads[a.t].pos == s.dequeuePos {
      DequeueClaim(s, a.t);
    } else {
      FailedExchange(s, a);
    }
  }

  /** The invariant holds at the end of every run. */
  lemma {:induction false} RunInv<V>(s: State<V>, acts: seq<Action<V>>)
    requires Inv(s) && Legal(s, acts)
    ensures Inv(Exec(s, acts))
    decreases |acts|
  {
    if acts != [] {
      StepInv(s, acts[0]);
      RunInv(Apply(s, acts[0]), acts[1..]);
    }
  }
}
