/** What resolve and to_string answer, over every run of every number of threads: calls and answers
    are noted apart from the steps in between. And every call can return. */
module RegistryAnswers {
  import opened TopicRegistries
  import opened RegistryProtocol

  /** named: some resolve had already returned the id when its spelling was asked for. */
  datatype Call = Resolve(t: string) | Spell(id: nat, named: bool)

  datatype Notes = Notes(open: map<nat, Call>, given: seq<Answer>)

  ghost predicate Given(answers: seq<Answer>, id: nat) { exists k :: 0 <= k < |answers| && answers[k].id == id }

  ghost function Note(h: Notes, s: State, a: Action): Notes
    requires Enabled(s, a)
  {
    match a
    case CallResolve(i, t) => h.(open := h.open[i := Resolve(t)])
    case CallToString(i, id) => h.(open := h.open[i := Spell(id, Given(h.given, id))])
    case Step(i) =>
      if s.pcs[i].Done? && i in h.open && h.open[i].Resolve? then Notes(h.open - {i}, h.given + [Answer(h.open[i].t, s.pcs[i].id)])
      else h
  }

  ghost function AllNotes(h: Notes, s: State, acts: seq<Action>): Notes
    requires Legal(s, acts)
    decreases |acts|
  {
    if acts == [] then h else AllNotes(Note(h, s, acts[0]), Apply(s, acts[0]), acts[1..])
  }

  ghost predicate CallOk(s: State, c: Call, pc: Pc) {
    match pc
    case Idle => true
    case RWait(t) => c == Resolve(t)
    case RHold(t) => c == Resolve(t)
    case RHit(t, _) => c == Resolve(t)
    case WWait(t) => c == Resolve(t)
    case WHold(t) => c == Resolve(t)
    case WTook(t, _) => c == Resolve(t)
    case WMapped(t, _) => c == Resolve(t)
    case WDone(t, _) => c == Resolve(t)
    case Done(t, _) => c == Resolve(t)
    case SWait(id) => c.Spell? && c.id == id && (c.named ==> exists t :: Knows(s, t, id))
    case SHold(id) => c.Spell? && c.id == id && (c.named ==> exists t :: Knows(s, t, id))
    case SDone(id, t) => c.Spell? && c.id == id && (c.named ==> Knows(s, t, id))
  }

  ghost predicate CallsOk(h: Notes, s: State) {
    && (forall i :: 0 <= i < |s.pcs| && !s.pcs[i].Idle? ==> i in h.open && CallOk(s, h.open[i], s.pcs[i]))
    && (forall k :: 0 <= k < |h.given| ==> Knows(s, h.given[k].t, h.given[k].id))
  }

  lemma OtherCall(s: State, z: State, c: Call, pc: Pc)
    requires CallOk(s, c, pc) && forall t :: t in s.ids ==> Knows(z, t, s.ids[t])
    ensures CallOk(z, c, pc)
  {
    if (pc.SWait? || pc.SHold?) && c.named {
      var t :| Knows(s, t, pc.id);
      assert Knows(z, t, pc.id);
    }
  }

  lemma OwnCall(s: State, i: nat, c: Call)
    requires Inv(s) && Enabled(s, Step(i)) && CallOk(s, c, s.pcs[i])
    requires forall t :: t in s.ids ==> Knows(Apply(s, Step(i)), t, s.ids[t])
    ensures i < |Apply(s, Step(i)).pcs| && CallOk(Apply(s, Step(i)), c, Apply(s, Step(i)).pcs[i])
  {
    var pc, z := s.pcs[i], Apply(s, Step(i));
    assert PcOk(s, pc);
    if (pc.SWait? || pc.SHold?) && c.named {
      var t :| Knows(s, t, pc.id);
      assert Knows(z, t, pc.id);
      if pc.SHold? { ReaderSeesNoWriter(s.pcs, i, t); }
    }
  }

  lemma CallsStep(h: Notes, s: State, a: Action)
    requires Inv(s) && Enabled(s, a) && CallsOk(h, s)
    ensures CallsOk(Note(h, s, a), Apply(s, a))
  {
    PcsOf(s);
    IdsGrow(s, a);
    var z, h' := Apply(s, a), Note(h, s, a);
    SameThreads(s, a);
    Others(s, a);
    forall i | 0 <= i < |z.pcs| && !z.pcs[i].Idle?
      ensures i in h'.open && CallOk(z, h'.open[i], z.pcs[i])
    {
      if i != a.i {
        OtherCall(s, z, h.open[i], s.pcs[i]);
      } else if a.Step? {
        OwnCall(s, i, h.open[i]);
      } else if a.CallToString? && Given(h.given, a.id) {
        var k :| 0 <= k < |h.given| && h.given[k].id == a.id;
        assert Knows(z, h.given[k].t, a.id);
      }
    }
    if a.Step? && s.pcs[a.i].Done? { assert PcOk(s, s.pcs[a.i]); }
  }

  lemma Others(s: State, a: Action)
    requires Enabled(s, a)
    ensures forall j :: 0 <= j < |s.pcs| && j != a.i ==> Apply(s, a).pcs[j] == s.pcs[j]
  {}

  lemma {:induction false} NotesRun(h: Notes, s: State, acts: seq<Action>)
    requires Inv(s) && CallsOk(h, s) && Legal(s, acts) && Exec(s, acts).taken < WORD32
    ensures Inv(Exec(s, acts)) && CallsOk(AllNotes(h, s, acts), Exec(s, acts))
    decreases |acts|
  {
    hide Inv, Apply, Enabled, CallsOk, Note;
    if acts != [] {
      TakenGrows(Apply(s, acts[0]), acts[1..]);
      StepInv(s, acts[0]);
      CallsStep(h, s, acts[0]);
      NotesRun(Note(h, s, acts[0]), Apply(s, acts[0]), acts[1..]);
    }
  }

  ghost function NotesOf(s: State, acts: seq<Action>): Notes
    requires Legal(s, acts)
  {
    AllNotes(Notes(map[], []), s, acts)
  }

  /** In every run before the counter wraps, two calls of resolve are answered with the same id if
      and only if they were made with the same topic, and never with the invalid one. */
  lemma EveryResolve(s: State, acts: seq<Action>, j: nat, k: nat)
    requires Init(s) && Legal(s, acts) && Exec(s, acts).taken < WORD32
    requires j < |NotesOf(s, acts).given| && k < |NotesOf(s, acts).given|
    ensures var x, y := NotesOf(s, acts).given[j], NotesOf(s, acts).given[k];
            (x.t == y.t <==> x.id == y.id) && x.id != 0
  {
    NotesRun(Notes(map[], []), s, acts);
  }

  /** A call of to_string for an id that some resolve had returned is answered with the topic that
      resolve was called with. */
  lemma EverySpelling(s: State, acts: seq<Action>, i: nat)
    requires Init(s) && Legal(s, acts) && Exec(s, acts).taken < WORD32
    requires i < |Exec(s, acts).pcs| && Exec(s, acts).pcs[i].SDone?
    ensures var h, pc := NotesOf(s, acts), Exec(s, acts).pcs[i];
            && i in h.open && h.open[i].Spell? && h.open[i].id == pc.id
            && (h.open[i].named ==> forall k :: 0 <= k < |h.given| && h.given[k].id == pc.id ==> h.given[k].t == pc.t)
            && (pc.t != "" ==> Knows(Exec(s, acts), pc.t, pc.id))
  {
    NotesRun(Notes(map[], []), s, acts);
    assert PcOk(Exec(s, acts), Exec(s, acts).pcs[i]);
  }

  // ---------- every call can return ----------

  ghost predicate Reaches(s: State, z: State) { exists acts :: Legal(s, acts) && Exec(s, acts) == z }

  lemma ReachesItself(s: State)
    ensures Reaches(s, s)
  {
    assert Legal(s, []) && Exec(s, []) == s;
  }

  lemma StepThen(s: State, a: Action, z: State)
    requires Enabled(s, a) && Reaches(Apply(s, a), z)
    ensures Reaches(s, z)
  {
    hide Apply, Enabled;
    var acts :| Legal(Apply(s, a), acts) && Exec(Apply(s, a), acts) == z;
    assert ([a] + acts)[1..] == acts;
    assert Legal(s, [a] + acts) && Exec(s, [a] + acts) == z;
  }

  predicate Holding(pc: Pc) { Writing(pc) || Reading(pc) }

  /** Steps to the return, with the locks free. */
  function StepsLeft(pc: Pc): nat {
    match pc
    case Idle => 0
    case RWait(_) => 9
    case RHold(_) => 8
    case WWait(_) => 7
    case WHold(_) => 6
    case WTook(_, _) => 5
    case WMapped(_, _) => 4
    case RHit(_, _) => 3
    case WDone(_, _) => 3
    case Done(_, _) => 1
    case SWait(_) => 3
    case SHold(_) => 2
    case SDone(_, _) => 1
  }

  lemma Moves(s: State, pc: Pc)
    requires !pc.Idle?
    ensures StepsLeft(Next(s, pc)) < StepsLeft(pc)
    ensures pc.Done? || pc.SDone? <==> Next(s, pc).Idle?
  {}

  /** Thread j lets go of the lock, if it holds it; nobody else moves. */
  lemma {:induction false} LetsGo(s: State, j: nat) returns (z: State)
    requires j < |s.pcs|
    ensures Reaches(s, z) && j < |z.pcs| && z.pcs == s.pcs[j := z.pcs[j]] && !Holding(z.pcs[j])
    decreases StepsLeft(s.pcs[j])
  {
    if !Holding(s.pcs[j]) {
      ReachesItself(s);
      z := s;
    } else {
      Moves(s, s.pcs[j]);
      z := LetsGo(Apply(s, Step(j)), j);
      StepThen(s, Step(j), z);
    }
  }

  lemma Through(s: State, y: State, z: State)
    requires Reaches(s, y) && Reaches(y, z)
    ensures Reaches(s, z)
  {
    hide Apply, Enabled;
    var acts :| Legal(s, acts) && Exec(s, acts) == y;
    RunThen(s, acts, z);
  }

  lemma {:induction false} RunThen(s: State, acts: seq<Action>, z: State)
    requires Legal(s, acts) && Reaches(Exec(s, acts), z)
    ensures Reaches(s, z)
    decreases |acts|
  {
    hide Apply, Enabled, Reaches;
    if acts != [] {
      RunThen(Apply(s, acts[0]), acts[1..], z);
      StepThen(s, acts[0], z);
    }
  }

  /** All threads but i let go, from the n-th on. */
  lemma {:induction false} OthersLetGo(s: State, i: nat, n: nat) returns (z: State)
    requires i < |s.pcs| && n <= |s.pcs| && forall j :: 0 <= j < n && j != i ==> !Holding(s.pcs[j])
    ensures Reaches(s, z) && |z.pcs| == |s.pcs| && z.pcs[i] == s.pcs[i]
    ensures forall j :: 0 <= j < |z.pcs| && j != i ==> !Holding(z.pcs[j])
    decreases |s.pcs| - n
  {
    hide Reaches, Holding;
    if n == |s.pcs| {
      ReachesItself(s);
      z := s;
    } else if n == i {
      z := OthersLetGo(s, i, n + 1);
    } else {
      var y := LetsGo(s, n);
      z := OthersLetGo(y, i, n + 1);
      Through(s, y, z);
    }
  }

  /** With everybody else out of the lock, thread i goes through to the end of its call. */
  lemma {:induction false} AloneReturns(s: State, i: nat) returns (z: State)
    requires i < |s.pcs| && !s.pcs[i].Idle? && forall j :: 0 <= j < |s.pcs| && j != i ==> !Holding(s.pcs[j])
    ensures Reaches(s, z) && i < |z.pcs| && (z.pcs[i].Done? || z.pcs[i].SDone?)
    decreases StepsLeft(s.pcs[i])
  {
    hide Reaches;
    if s.pcs[i].Done? || s.pcs[i].SDone? {
      ReachesItself(s);
      z := s;
    } else {
      Moves(s, s.pcs[i]);
      z := AloneReturns(Apply(s, Step(i)), i);
      StepThen(s, Step(i), z);
    }
  }

  /** No deadlock: from any state, whoever holds the lock, some run brings a call to its answer. */
  lemma EveryCallIsAnswered(s: State, i: nat)
    requires i < |s.pcs| && !s.pcs[i].Idle?
    ensures exists z :: Reaches(s, z) && i < |z.pcs| && (z.pcs[i].Done? || z.pcs[i].SDone?)
  {
    hide Reaches;
    var y := OthersLetGo(s, i, 0);
    var z := AloneReturns(y, i);
    Through(s, y, z);
  }
}
