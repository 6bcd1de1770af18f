/** The registry under concurrency: any number of threads resolve topics and spell ids, each
    step on its own, under one reader-writer lock. */
module RegistryProtocol {
  import opened TopicRegistries

  /** Where a thread is. W-states from WHold on hold the lock exclusively, RHold, RHit and SHold share it. */
  datatype Pc =
    | Idle
    | RWait(t: string)
    | RHold(t: string)
    | RHit(t: string, id: nat)
    | WWait(t: string)
    | WHold(t: string)
    | WTook(t: string, id: nat)
    | WMapped(t: string, id: nat)
    | WDone(t: string, id: nat)
    | Done(t: string, id: nat)
    | SWait(id: nat)
    | SHold(id: nat)
    | SDone(id: nat, t: string)

  datatype Answer = Answer(t: string, id: nat)

  /** taken counts the ids handed out; the 32-bit counter is taken + 1 modulo 2^32. */
  datatype State = State(ids: map<string, nat>, names: map<nat, string>, taken: nat, pcs: seq<Pc>, answers: seq<Answer>)

  datatype Action = CallResolve(i: nat, t: string) | CallToString(i: nat, id: nat) | Step(i: nat)

  predicate Writing(pc: Pc) { pc.WHold? || pc.WTook? || pc.WMapped? || pc.WDone? }

  predicate Reading(pc: Pc) { pc.RHold? || pc.RHit? || pc.SHold? }

  predicate NoWriter(pcs: seq<Pc>) { forall j :: 0 <= j < |pcs| ==> !Writing(pcs[j]) }

  predicate NoReader(pcs: seq<Pc>) { forall j :: 0 <= j < |pcs| ==> !Reading(pcs[j]) }

  predicate Init(s: State) {
    s.ids == map[] && s.names == map[] && s.taken == 0 && s.answers == [] && forall j :: 0 <= j < |s.pcs| ==> s.pcs[j].Idle?
  }

  predicate Enabled(s: State, a: Action) {
    && a.i < |s.pcs|
    && (if a.Step? then
          && !s.pcs[a.i].Idle?
          && (s.pcs[a.i].RWait? || s.pcs[a.i].SWait? ==> NoWriter(s.pcs))
          && (s.pcs[a.i].WWait? ==> NoWriter(s.pcs) && NoReader(s.pcs))
        else s.pcs[a.i].Idle?)
  }

  function Next(s: State, pc: Pc): Pc {
    match pc
    case Idle => Idle
    case RWait(t) => RHold(t)
    case RHold(t) => if t in s.ids then RHit(t, s.ids[t]) else WWait(t)
    case RHit(t, id) => Done(t, id)
    case WWait(t) => WHold(t)
    case WHold(t) => if t in s.ids then WDone(t, s.ids[t]) else WTook(t, IdOf(s.taken))
    case WTook(t, id) => WMapped(t, id)
    case WMapped(t, id) => WDone(t, id)
    case WDone(t, id) => Done(t, id)
    case Done(_, _) => Idle
    case SWait(id) => SHold(id)
    case SHold(id) => SDone(id, if id in s.names then s.names[id] else "")
    case SDone(_, _) => Idle
  }

  function Apply(s: State, a: Action): State
    requires Enabled(s, a)
  {
    match a
    case CallResolve(i, t) => s.(pcs := s.pcs[i := RWait(t)])
    case CallToString(i, id) => s.(pcs := s.pcs[i := SWait(id)])
    case Step(i) =>
      var pc := s.pcs[i];
      State(if pc.WTook? then s.ids[pc.t := pc.id] else s.ids,
            if pc.WMapped? && pc.id !in s.names then s.names[pc.id := pc.t] else s.names,
            if pc.WHold? && pc.t !in s.ids then s.taken + 1 else s.taken,
            s.pcs[i := Next(s, pc)],
            if pc.Done? then s.answers + [Answer(pc.t, pc.id)] else s.answers)
  }

  // ---------- invariant ----------

  /** At most one writer, and no reader beside it. */
  ghost predicate Exclusive(pcs: seq<Pc>) {
    forall i, j :: 0 <= i < |pcs| && 0 <= j < |pcs| && i != j && Writing(pcs[i]) ==> !Writing(pcs[j]) && !Reading(pcs[j])
  }

  ghost predicate Knows(s: State, t: string, id: nat) { t in s.ids && s.ids[t] == id }

  ghost predicate PcOk(s: State, pc: Pc) {
    match pc
    case RHit(t, id) => Knows(s, t, id)
    case WTook(t, id) => t !in s.ids && s.taken >= 1 && id == s.taken && (forall u :: u in s.ids ==> s.ids[u] != id)
    case WMapped(t, id) => Knows(s, t, id)
    case WDone(t, id) => Knows(s, t, id)
    case Done(t, id) => Knows(s, t, id)
    case SDone(id, t) => t == "" || Knows(s, t, id)
    case _ => true
  }

  predicate Mapping(pcs: seq<Pc>, t: string) { exists i :: 0 <= i < |pcs| && pcs[i].WMapped? && pcs[i].t == t }

  ghost predicate PcsOk(s: State) { forall i :: 0 <= i < |s.pcs| ==> PcOk(s, s.pcs[i]) }

  /** Every topic has its own nonzero id. */
  ghost predicate IdsOk(s: State) {
    && (forall t :: t in s.ids ==> 1 <= s.ids[t] <= s.taken)
    && (forall t, u :: t in s.ids && u in s.ids && s.ids[t] == s.ids[u] ==> t == u)
  }

  ghost predicate NamesOk(s: State) { forall id :: id in s.names ==> Knows(s, s.names[id], id) }

  /** Only between the two insertions of a writer is a topic without its name. */
  ghost predicate NamedUnlessMapping(s: State) { forall t :: t in s.ids ==> s.ids[t] in s.names || Mapping(s.pcs, t) }

  ghost predicate AnswersOk(s: State) {
    forall k :: 0 <= k < |s.answers| ==> Knows(s, s.answers[k].t, s.answers[k].id)
  }

  ghost predicate Inv(s: State) {
    && Exclusive(s.pcs) && PcsOk(s) && IdsOk(s) && NamesOk(s) && NamedUnlessMapping(s) && AnswersOk(s)
  }

  lemma ExclusiveStep(s: State, a: Action)
    requires Exclusive(s.pcs) && Enabled(s, a)
    ensures Exclusive(Apply(s, a).pcs)
  {
    hide PcOk;
  }

  /** An id, once given, never changes. */
  lemma IdsGrow(s: State, a: Action)
    requires PcsOk(s) && Enabled(s, a)
    ensures forall t :: t in s.ids ==> Knows(Apply(s, a), t, s.ids[t])
  {
    assert a.Step? ==> PcOk(s, s.pcs[a.i]);
  }

  lemma PcsStep(s: State, a: Action, j: nat)
    requires Inv(s) && Enabled(s, a) && Apply(s, a).taken < WORD32 && j < |s.pcs|
    ensures PcOk(Apply(s, a), Apply(s, a).pcs[j])
  {
    hide NamedUnlessMapping, AnswersOk;
    IdsGrow(s, a);
    assert PcOk(s, s.pcs[j]);
    if j != a.i && s.pcs[j].WTook? {
      assert Writing(s.pcs[j]) && !Writing(s.pcs[a.i]);
    }
  }

  lemma IdsStep(s: State, a: Action)
    requires Inv(s) && Enabled(s, a)
    ensures IdsOk(Apply(s, a))
  {
    hide NamedUnlessMapping, AnswersOk, Exclusive, NamesOk;
    assert PcOk(s, s.pcs[a.i]);
  }

  lemma NamesStep(s: State, a: Action)
    requires Inv(s) && Enabled(s, a)
    ensures NamesOk(Apply(s, a))
  {
    hide NamedUnlessMapping, AnswersOk, Exclusive;
    IdsGrow(s, a);
    assert PcOk(s, s.pcs[a.i]);
  }

  lemma NamedStep(s: State, a: Action, t: string)
    requires Inv(s) && Enabled(s, a) && t in Apply(s, a).ids
    ensures var z := Apply(s, a); z.ids[t] in z.names || Mapping(z.pcs, t)
  {
    hide AnswersOk, Exclusive;
    var z := Apply(s, a);
    assert PcOk(s, s.pcs[a.i]);
    if t !in s.ids {
      assert z.pcs[a.i].WMapped? && z.pcs[a.i].t == t;
    } else if s.ids[t] !in s.names {
      IdsGrow(s, a);
      var i :| 0 <= i < |s.pcs| && s.pcs[i].WMapped? && s.pcs[i].t == t;
      assert PcOk(s, s.pcs[i]);
      assert i != a.i ==> z.pcs[i].WMapped?;
    }
  }

  lemma AnswersStep(s: State, a: Action)
    requires Inv(s) && Enabled(s, a)
    ensures AnswersOk(Apply(s, a))
  {
    hide NamedUnlessMapping, Exclusive, NamesOk, IdsOk;
    IdsGrow(s, a);
    assert PcOk(s, s.pcs[a.i]);
  }

  lemma StepInv(s: State, a: Action)
    requires Inv(s) && Enabled(s, a) && Apply(s, a).taken < WORD32
    ensures Inv(Apply(s, a))
  {
    hide Apply, PcOk, Mapping, Knows, IdsOk, NamesOk, AnswersOk, Exclusive;
    ExclusiveStep(s, a);
    IdsStep(s, a);
    NamesStep(s, a);
    AnswersStep(s, a);
    var z := Apply(s, a);
    assert |z.pcs| == |s.pcs| by { SameThreads(s, a); }
    forall j | 0 <= j < |s.pcs|
      ensures PcOk(z, z.pcs[j])
    {
      PcsStep(s, a, j);
    }
    forall t | t in z.ids
      ensures z.ids[t] in z.names || Mapping(z.pcs, t)
    {
      NamedStep(s, a, t);
    }
  }

  lemma SameThreads(s: State, a: Action)
    requires Enabled(s, a)
    ensures |Apply(s, a).pcs| == |s.pcs| && s.taken <= Apply(s, a).taken
  {}

  // ---------- runs ----------

  predicate Legal(s: State, acts: seq<Action>)
    decreases |acts|
  {
    acts == [] || (Enabled(s, acts[0]) && Legal(Apply(s, acts[0]), acts[1..]))
  }

  function Exec(s: State, acts: seq<Action>): State
    requires Legal(s, acts)
    decreases |acts|
  {
    if acts == [] then s else Exec(Apply(s, acts[0]), acts[1..])
  }

  lemma {:induction false} TakenGrows(s: State, acts: seq<Action>)
    requires Legal(s, acts)
    ensures s.taken <= Exec(s, acts).taken
    decreases |acts|
  {
    if acts != [] {
      SameThreads(s, acts[0]);
      TakenGrows(Apply(s, acts[0]), acts[1..]);
    }
  }

  /** In every run in which the counter has not wrapped, ids only grow, and the invariant holds. */
  lemma {:induction false} RunInv(s: State, acts: seq<Action>)
    requires Inv(s) && Legal(s, acts) && Exec(s, acts).taken < WORD32
    ensures Inv(Exec(s, acts))
    ensures forall t :: t in s.ids ==> Knows(Exec(s, acts), t, s.ids[t])
    decreases |acts|
  {
    hide Inv, Apply, Enabled;
    if acts != [] {
      TakenGrows(Apply(s, acts[0]), acts[1..]);
      StepInv(s, acts[0]);
      PcsOf(s);
      IdsGrow(s, acts[0]);
      RunInv(Apply(s, acts[0]), acts[1..]);
    }
  }

  lemma PcsOf(s: State)
    requires Inv(s)
    ensures PcsOk(s)
  {}

  /** Two resolves agree on the id if and only if they were given the same topic, and no id is
      the invalid one. */
  lemma OneStableId(s: State, acts: seq<Action>, j: nat, k: nat)
    requires Init(s) && Legal(s, acts) && Exec(s, acts).taken < WORD32
    requires j < |Exec(s, acts).answers| && k < |Exec(s, acts).answers|
    ensures var x, y := Exec(s, acts).answers[j], Exec(s, acts).answers[k];
            (x.t == y.t <==> x.id == y.id) && x.id != 0
  {
    RunInv(s, acts);
  }

  /** A thread that spells an id some resolve has returned reads back its topic. */
  lemma SpellsBack(s: State, acts: seq<Action>, k: nat, i: nat)
    requires Init(s) && Legal(s, acts) && Exec(s, acts).taken < WORD32
    requires k < |Exec(s, acts).answers| && i < |Exec(s, acts).pcs|
    requires Exec(s, acts).pcs[i] == SHold(Exec(s, acts).answers[k].id)
    ensures var z := Exec(s, acts); Next(z, z.pcs[i]) == SDone(z.answers[k].id, z.answers[k].t)
  {
    RunInv(s, acts);
    var z := Exec(s, acts);
    var x := z.answers[k];
    assert Knows(z, x.t, x.id);
    ReaderSeesNoWriter(z.pcs, i, x.t);
  }

  lemma ReaderSeesNoWriter(pcs: seq<Pc>, i: nat, t: string)
    requires Exclusive(pcs) && i < |pcs| && Reading(pcs[i])
    ensures !Mapping(pcs, t)
  {
    forall w | 0 <= w < |pcs|
      ensures !Writing(pcs[w])
    {}
  }
}
