/** The lock-free queue as a transition system: any number of threads, every atomic load,
    compare-and-swap, data access and sequence store its own step, in any interleaving. */
module QueueProtocol {
  import opened Ring

  type Tid = nat

  datatype Cell<V> = Cell(sequence: nat, data: V)

  /** Where a thread stands. start (the first position loaded) and retries (failed rounds that
      were not spurious) are history: no step depends on them. */
  datatype Pc<V> =
    | Idle
    | EnqLoad(value: V)
    | EnqSeq(value: V, pos: nat, start: nat, retries: nat)
    | EnqCas(value: V, pos: nat, start: nat, retries: nat)
    | EnqReload(value: V, pos: nat, start: nat, retries: nat)
    | EnqWrite(value: V, pos: nat)
    | EnqPublish(pos: nat)
    | EnqDone(ok: bool)
    | DeqLoad
    | DeqSeq(pos: nat, start: nat, retries: nat)
    | DeqCas(pos: nat, start: nat, retries: nat)
    | DeqReload(pos: nat, start: nat, retries: nat)
    | DeqRead(pos: nat)
    | DeqRelease(pos: nat, value: V)
    | DeqDone(found: bool, pos: nat)
  {
    predicate OwnsEnq(q: nat) { (EnqWrite? || EnqPublish?) && pos == q }
    predicate OwnsDeq(q: nat) { (DeqRead? || DeqRelease?) && pos == q }
    predicate InFlight() { EnqWrite? || EnqPublish? || DeqRead? || DeqRelease? }
  }

  /** The shared memory and the threads, with a log of every successful claim: enqLog[k] is the
      value of the k-th enqueue claim, enqBy[k] and deqBy[k] the claiming threads, and
      delivered[k] what the k-th dequeue claim handed to its caller. */
  datatype State<V> = State(
    capacity: nat,
    enqueuePos: nat,
    dequeuePos: nat,
    cells: seq<Cell<V>>,
    threads: map<Tid, Pc<V>>,
    enqLog: seq<V>,
    enqBy: seq<Tid>,
    deqBy: seq<Tid>,
    delivered: map<nat, V>)

  datatype Action<V> =
    | CallEnqueue(t: Tid, v: V)
    | CallDequeue(t: Tid)
    | LoadPos(t: Tid)
    | LoadSequence(t: Tid)
    | CompareExchange(t: Tid, spurious: bool)
    | WriteData(t: Tid)
    | ReadData(t: Tid, leftover: V)
    | StoreSequence(t: Tid)
    | Return(t: Tid)

  predicate WellSized<V>(s: State<V>) {
    s.capacity >= 2 && |s.cells| == s.capacity
  }

  function CellAt<V>(s: State<V>, p: nat): Cell<V>
    requires WellSized(s)
  {
    s.cells[Slot(p, s.capacity)]
  }

  ghost predicate Init<V>(s: State<V>) {
    && WellSized(s)
    && s.enqueuePos == 0 && s.dequeuePos == 0
    && (forall i :: 0 <= i < s.capacity ==> s.cells[i].sequence == i)
    && (forall t :: t in s.threads ==> s.threads[t] == Idle)
    && s.enqLog == [] && s.enqBy == [] && s.deqBy == [] && s.delivered == map[]
  }

  predicate Enabled<V>(s: State<V>, a: Action<V>) {
    && WellSized(s)
    && a.t in s.threads
    && var pc := s.threads[a.t];
    match a
    case CallEnqueue(_, _) => pc.Idle?
    case CallDequeue(_) => pc.Idle?
    case LoadPos(_) => pc.EnqLoad? || pc.EnqReload? || pc.DeqLoad? || pc.DeqReload?
    case LoadSequence(_) => pc.EnqSeq? || pc.DeqSeq?
    case CompareExchange(_, _) => pc.EnqCas? || pc.DeqCas?
    case WriteData(_) => pc.EnqWrite?
    case ReadData(_, _) => pc.DeqRead?
    case StoreSequence(_) => pc.EnqPublish? || pc.DeqRelease?
    case Return(_) => pc.EnqDone? || pc.DeqDone?
  }

  function Goto<V>(s: State<V>, t: Tid, pc: Pc<V>): State<V> {
    s.(threads := s.threads[t := pc])
  }

  function SetCell<V>(s: State<V>, p: nat, c: Cell<V>): State<V>
    requires WellSized(s)
  {
    s.(cells := s.cells[Slot(p, s.capacity) := c])
  }

  function Apply<V>(s: State<V>, a: Action<V>): State<V>
    requires Enabled(s, a)
  {
    var pc := s.threads[a.t];
    match a
    case CallEnqueue(t, v) => Goto(s, t, EnqLoad(v))
    case CallDequeue(t) => Goto(s, t, DeqLoad)
    case LoadPos(t) =>
      (match pc
       case EnqLoad(v) => Goto(s, t, EnqSeq(v, s.enqueuePos, s.enqueuePos, 0))
       case EnqReload(v, _, start, n) => Goto(s, t, EnqSeq(v, s.enqueuePos, start, n + 1))
       case DeqLoad => Goto(s, t, DeqSeq(s.dequeuePos, s.dequeuePos, 0))
       case DeqReload(_, start, n) => Goto(s, t, DeqSeq(s.dequeuePos, start, n + 1)))
    case LoadSequence(t) =>
      var seen := CellAt(s, pc.pos).sequence;
      if pc.EnqSeq? then
        var diff: int := seen - pc.pos;
        if diff == 0 then Goto(s, t, EnqCas(pc.value, pc.pos, pc.start, pc.retries))
        else if diff < 0 then Goto(s, t, EnqDone(false))
        else Goto(s, t, EnqReload(pc.value, pc.pos, pc.start, pc.retries))
      else
        var diff: int := seen - (pc.pos + 1);
        if diff == 0 then Goto(s, t, DeqCas(pc.pos, pc.start, pc.retries))
        else if diff < 0 then Goto(s, t, DeqDone(false, pc.pos))
        else Goto(s, t, DeqReload(pc.pos, pc.start, pc.retries))
    case CompareExchange(t, spurious) =>
      if pc.EnqCas? then
        if s.enqueuePos == pc.pos && !spurious then
          Goto(s, t, EnqWrite(pc.value, pc.pos)).(
            enqueuePos := pc.pos + 1, enqLog := s.enqLog + [pc.value], enqBy := s.enqBy + [t])
        else
          Goto(s, t, EnqSeq(pc.value, s.enqueuePos, pc.start,
                            if s.enqueuePos == pc.pos then pc.retries else pc.retries + 1))
      else
        if s.dequeuePos == pc.pos && !spurious then
          Goto(s, t, DeqRead(pc.pos)).(dequeuePos := pc.pos + 1, deqBy := s.deqBy + [t])
        else
          Goto(s, t, DeqSeq(s.dequeuePos, pc.start,
                            if s.dequeuePos == pc.pos then pc.retries else pc.retries + 1))
    case WriteData(t) =>
      Goto(SetCell(s, pc.pos, CellAt(s, pc.pos).(data := pc.value)), t, EnqPublish(pc.pos))
    case ReadData(t, leftover) =>
      // the source of a move is left with an unspecified value
      Goto(SetCell(s, pc.pos, CellAt(s, pc.pos).(data := leftover)), t,
           DeqRelease(pc.pos, CellAt(s, pc.pos).data))
    case StoreSequence(t) =>
      if pc.EnqPublish? then
        Goto(SetCell(s, pc.pos, CellAt(s, pc.pos).(sequence := pc.pos + 1)), t, EnqDone(true))
      else
        // mask + 1 is the capacity
        Goto(SetCell(s, pc.pos, CellAt(s, pc.pos).(sequence := pc.pos + s.capacity)), t,
             DeqDone(true, pc.pos)).(delivered := s.delivered[pc.pos := pc.value])
    case Return(t) => Goto(s, t, Idle)
  }

  // ---------- runs ----------

  ghost predicate Legal<V>(s: State<V>, acts: seq<Action<V>>)
    decreases |acts|
  {
    acts == [] || (Enabled(s, acts[0]) && Legal(Apply(s, acts[0]), acts[1..]))
  }

  ghost function Exec<V>(s: State<V>, acts: seq<Action<V>>): State<V>
    requires Legal(s, acts)
    decreases |acts|
  {
    if acts == [] then s else Exec(Apply(s, acts[0]), acts[1..])
  }

  // ---------- the invariant ----------

  /** The cell of position p, for p in [enqueuePos, enqueuePos + capacity): free for p, or its
      tenant p - capacity is published or being consumed, or that tenant is not yet published. */
  ghost predicate CellOk<V>(s: State<V>, p: nat)
    requires WellSized(s)
  {
    var x, c := CellAt(s, p).sequence, s.capacity;
    if p < c then x == p
    else
      || (x == p && p - c < s.dequeuePos)
      || x == p - c + 1
      || (x == p - c && s.dequeuePos <= p - c)
  }

  ghost predicate ThreadOk<V>(s: State<V>, t: Tid)
    requires WellSized(s) && t in s.threads && LogsOk(s)
  {
    match s.threads[t]
    case EnqSeq(_, pos, start, n) => start + n <= pos <= s.enqueuePos
    case EnqReload(_, pos, start, n) => start + n <= pos < s.enqueuePos
    case EnqCas(_, pos, start, n) => start + n <= pos <= s.enqueuePos && CellAt(s, pos).sequence >= pos
    case EnqWrite(v, pos) =>
      && s.dequeuePos <= pos < s.enqueuePos && s.enqBy[pos] == t
      && CellAt(s, pos).sequence == pos && s.enqLog[pos] == v
    case EnqPublish(pos) =>
      && s.dequeuePos <= pos < s.enqueuePos && s.enqBy[pos] == t
      && CellAt(s, pos) == Cell(pos, s.enqLog[pos])
    case DeqSeq(pos, start, n) => start + n <= pos <= s.dequeuePos
    case DeqReload(pos, start, n) => start + n <= pos < s.dequeuePos
    case DeqCas(pos, start, n) => start + n <= pos <= s.dequeuePos && CellAt(s, pos).sequence >= pos + 1
    case DeqRead(pos) =>
      && pos < s.dequeuePos && s.enqueuePos <= pos + s.capacity && s.deqBy[pos] == t
      && CellAt(s, pos) == Cell(pos + 1, s.enqLog[pos])
    case DeqRelease(pos, v) =>
      && pos < s.dequeuePos && s.enqueuePos <= pos + s.capacity && s.deqBy[pos] == t
      && CellAt(s, pos).sequence == pos + 1 && v == s.enqLog[pos]
    case _ => true
  }

  ghost predicate LogsOk<V>(s: State<V>) {
    && s.dequeuePos <= s.enqueuePos <= s.dequeuePos + s.capacity
    && |s.enqLog| == |s.enqBy| == s.enqueuePos
    && |s.deqBy| == s.dequeuePos
  }

  /** A claimed position is unpublished, or taken and unreleased, only while its claimer holds it. */
  ghost predicate HeldEnq<V>(s: State<V>, q: nat)
    requires WellSized(s) && LogsOk(s) && s.dequeuePos <= q < s.enqueuePos
  {
    if CellAt(s, q).sequence == q then s.enqBy[q] in s.threads && s.threads[s.enqBy[q]].OwnsEnq(q)
    else CellAt(s, q) == Cell(q + 1, s.enqLog[q])
  }

  ghost predicate HeldDeq<V>(s: State<V>, q: nat)
    requires WellSized(s) && LogsOk(s) && q < s.dequeuePos
  {
    if q in s.delivered then
      && s.delivered[q] == s.enqLog[q]
      && (s.enqueuePos <= q + s.capacity ==> CellAt(s, q).sequence == q + s.capacity)
    else
      && s.enqueuePos <= q + s.capacity && CellAt(s, q).sequence == q + 1
      && s.deqBy[q] in s.threads && s.threads[s.deqBy[q]].OwnsDeq(q)
  }

  ghost predicate Inv<V>(s: State<V>) {
    && WellSized(s)
    && LogsOk(s)
    && (forall p: nat :: s.enqueuePos <= p < s.enqueuePos + s.capacity ==> CellOk(s, p))
    && (forall t :: t in s.threads ==> ThreadOk(s, t))
    && (forall q: nat :: s.dequeuePos <= q < s.enqueuePos ==> HeldEnq(s, q))
    && (forall q: nat :: q < s.dequeuePos ==> HeldDeq(s, q))
    && (forall q :: q in s.delivered ==> q < s.dequeuePos)
  }

  lemma InitInv<V>(s: State<V>)
    requires Init(s)
    ensures Inv(s)
  {
    forall p: nat | p < s.capacity
      ensures CellOk(s, p)
    {
      assert Slot(p, s.capacity) == p;
    }
  }
}
