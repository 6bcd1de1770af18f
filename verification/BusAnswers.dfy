/** What the answer of a publish means, over every run: each call and its answer are noted apart from
    the steps in between, with what the call ran into, and held against the logs. */
module BusAnswers {
  import opened Seqs
  import opened BusProtocol
  import opened BusShutdown
  import opened BusTheorems

  /** A call of publish: its message, how many of its attempts found no room, how many messages it
      took out, and whether it found the bus stopped as it was about to wait, or its time up when an
      attempt had found no room. */
  datatype Call = Call(m: Msg, fails: nat, evictions: nat, stopped: bool, late: bool)

  datatype Answer = Answer(call: Call, ok: bool)

  datatype Notes = Notes(open: map<nat, Call>, answers: seq<Answer>)

  /** What a call sees in one step of its thread. */
  function Seen(c: Call, s: State, a: Action): Call
    requires Enabled(s, a) && a.Publisher?
  {
    var pc := s.pubs[a.t];
    Call(c.m,
         if (pc.PTry? || pc.PRetry?) && !s.main.CanClaim(s.capacity) then c.fails + 1 else c.fails,
         if |Apply(s, a).log.evicted| > |s.log.evicted| then c.evictions + 1 else c.evictions,
         c.stopped || (pc.PWait? && !s.running),
         c.late || (pc.PRetry? && !s.main.CanClaim(s.capacity) && a.timedOut))
  }

  function Note(h: Notes, s: State, a: Action): Notes
    requires Enabled(s, a)
  {
    match a
    case CallPublish(t, m, _) => h.(open := h.open[t := Call(m, 0, 0, false, false)])
    case Publisher(t, _) =>
      if t !in h.open then h
      else if s.pubs[t].PReturn? then Notes(h.open - {t}, h.answers + [Answer(h.open[t], s.pubs[t].ok)])
      else h.(open := h.open[t := Seen(h.open[t], s, a)])
    case _ => h
  }

  ghost function AllNotes(h: Notes, s: State, acts: seq<Action>): Notes
    requires Legal(s, acts)
    decreases |acts|
  {
    if acts == [] then h else AllNotes(Note(h, s, acts[0]), Apply(s, acts[0]), acts[1..])
  }

  // ---------- what a policy allows ----------

  /** When a call is refused. */
  predicate Refused(policy: FullPolicy, c: Call) {
    match policy
    case ReturnFalse => c.fails > 0
    case Block => c.stopped
    case BlockTimeout => c.stopped || c.late
    case DropNewest => false
    case DropOldest => false
  }

  /** Only DropOldest takes messages out, at most one for each attempt that found no room; and nobody
      waits who has not found the queue full. */
  predicate Fair(policy: FullPolicy, c: Call) {
    c.evictions <= c.fails && (c.evictions > 0 ==> policy == DropOldest) && (c.stopped || c.late ==> c.fails > 0)
  }

  ghost predicate AnswerOk(policy: FullPolicy, g: Log, c: Call, ok: bool) {
    && Fair(policy, c)
    && (ok <==> !Refused(policy, c))
    && if !ok then c.m in g.rejected
       else if policy == DropNewest && c.fails > 0 then c.m in g.droppedNew
       else c.m in g.accepted
  }

  ghost predicate CallOk(policy: FullPolicy, g: Log, c: Call, pc: PubPc) {
    && Fair(policy, c)
    && (!pc.PReturn? ==> !Refused(policy, c))
    && match pc
       case PIdle => false
       case PLock(m) => m == c.m && policy == DropOldest
       case PTry(m) => m == c.m && (policy == DropNewest ==> c.fails == 0)
       case PPublish(pos) => c.m in g.accepted && (policy == DropNewest ==> c.fails == 0)
       case PMakeRoom(m) => m == c.m && policy == DropOldest && c.evictions < c.fails
       case PRelease(m, _, _) => m == c.m && policy == DropOldest
       case PNotifyOld(m, _) => m == c.m && policy == DropOldest
       case PNotifyNew(m) => m == c.m && policy == DropNewest && c.fails > 0
       case PWait(m) => m == c.m && (policy == Block || policy == BlockTimeout) && c.fails > 0
       case PRetry(m) => m == c.m && (policy == Block || policy == BlockTimeout) && c.fails > 0
       case PReturn(ok) => AnswerOk(policy, g, c, ok)
  }

  ghost predicate CallsOk(h: Notes, s: State) {
    && (forall t :: 0 <= t < |s.pubs| && !s.pubs[t].PIdle? ==> t in h.open && CallOk(s.policy, s.log, h.open[t], s.pubs[t]))
    && (forall k :: 0 <= k < |h.answers| ==> AnswerOk(s.policy, s.log, h.answers[k].call, h.answers[k].ok))
  }

  /** Some call of this message was answered ok, or is about to be. */
  ghost predicate Answered(h: Notes, s: State, m: Msg, ok: bool) {
    || (exists k :: 0 <= k < |h.answers| && h.answers[k].call.m == m && h.answers[k].ok == ok)
    || (exists t :: 0 <= t < |s.pubs| && s.pubs[t] == PReturn(ok) && t in h.open && h.open[t].m == m)
  }

  ghost predicate OutcomesOk(h: Notes, s: State) {
    && (forall m :: m in s.log.rejected ==> Answered(h, s, m, false))
    && (forall m :: m in s.log.droppedNew ==> Answered(h, s, m, true))
    && (s.log.droppedNew != [] ==> s.policy == DropNewest)
    && (s.log.evicted != [] || s.log.droppedOld != [] ==> s.policy == DropOldest)
  }

  // ---------- one step ----------

  /** Outcomes are final. */
  ghost predicate LogGrows(g: Log, z: Log) { g.accepted <= z.accepted && g.rejected <= z.rejected && g.droppedNew <= z.droppedNew }

  lemma LogStep(s: State, a: Action)
    requires Enabled(s, a)
    ensures LogGrows(s.log, Apply(s, a).log) && Apply(s, a).policy == s.policy
  {
    hide Record, PubNext, PubMain, PubEvent, RouterNext, RouterMain, RouterEvent, RouterQueues, WorkerNext, WorkerQueue, WorkerEvent,
         Claiming;
    match a
    case Publisher(t, timedOut) => RecordGrows(s.log, PubEvent(s, s.pubs[t], timedOut));
    case Router => RecordGrows(s.log, RouterEvent(s));
    case Worker(w) => RecordGrows(s.log, WorkerEvent(s, w));
    case _ =>
  }

  lemma RecordGrows(g: Log, e: Event)
    ensures LogGrows(g, Record(g, e))
  {}

  lemma AnswerStays(policy: FullPolicy, g: Log, z: Log, c: Call, ok: bool)
    requires LogGrows(g, z) && AnswerOk(policy, g, c, ok)
    ensures AnswerOk(policy, z, c, ok)
  {}

  lemma CallStays(policy: FullPolicy, g: Log, z: Log, c: Call, pc: PubPc)
    requires LogGrows(g, z) && CallOk(policy, g, c, pc)
    ensures CallOk(policy, z, c, pc)
  {}

  lemma OwnCall(s: State, a: Action, c: Call)
    requires Enabled(s, a) && a.Publisher? && !s.pubs[a.t].PReturn? && CallOk(s.policy, s.log, c, s.pubs[a.t])
    ensures var z := Apply(s, a); CallOk(s.policy, z.log, Seen(c, s, a), z.pubs[a.t])
  {
    hide RouterNext, RouterMain, RouterEvent, RouterQueues, WorkerNext, WorkerQueue, WorkerEvent, PubMain, Claiming;
  }

  lemma CallsStep(s: State, a: Action, h: Notes)
    requires Enabled(s, a) && CallsOk(h, s)
    ensures CallsOk(Note(h, s, a), Apply(s, a))
  {
    hide CallOk, AnswerOk, LogGrows, Record, PubNext, PubMain, PubEvent, RouterNext, RouterMain, RouterEvent, RouterQueues,
         WorkerNext, WorkerQueue, WorkerEvent, Seen, Claiming;
    LogStep(s, a);
    var z, h' := Apply(s, a), Note(h, s, a);
    forall k | 0 <= k < |h'.answers|
      ensures AnswerOk(z.policy, z.log, h'.answers[k].call, h'.answers[k].ok)
    {
      if k == |h.answers| { ReturnedCall(s.policy, s.log, h.open[a.t], s.pubs[a.t]); }
      AnswerStays(s.policy, s.log, z.log, h'.answers[k].call, h'.answers[k].ok);
    }
    forall t | 0 <= t < |z.pubs| && !z.pubs[t].PIdle?
      ensures t in h'.open && CallOk(z.policy, z.log, h'.open[t], z.pubs[t])
    {
      if a.CallPublish? && t == a.t {
        NewCall(s.policy, z.log, a.m);
      } else if a.Publisher? && t == a.t {
        BusyBefore(s, a);
        OwnCall(s, a, h.open[t]);
      } else {
        CallStays(s.policy, s.log, z.log, h.open[t], s.pubs[t]);
      }
    }
  }

  lemma ReturnedCall(policy: FullPolicy, g: Log, c: Call, pc: PubPc)
    requires pc.PReturn? && CallOk(policy, g, c, pc)
    ensures AnswerOk(policy, g, c, pc.ok)
  {}

  lemma NewCall(policy: FullPolicy, g: Log, m: Msg)
    ensures CallOk(policy, g, Call(m, 0, 0, false, false), if policy == DropOldest then PLock(m) else PTry(m))
  {}

  lemma BusyBefore(s: State, a: Action)
    requires Enabled(s, a) && a.Publisher? && !Apply(s, a).pubs[a.t].PIdle?
    ensures !s.pubs[a.t].PReturn? && !s.pubs[a.t].PIdle?
  {}

  /** What the event of a step adds to the outcomes. */
  lemma RecordOutcomes(g: Log, e: Event)
    ensures var z := Record(g, e);
            && z.rejected == (if e.Reject? then g.rejected + [e.m] else g.rejected)
            && z.droppedNew == (if e.DropNew? then g.droppedNew + [e.m] else g.droppedNew)
            && z.evicted == (if e.Evict? then g.evicted + [e.m] else g.evicted)
            && z.droppedOld == (if e.DropOld? then g.droppedOld + [e.m] else g.droppedOld)
  {}

  /** An outcome goes with the answer. */
  lemma EventAnswer(s: State, pc: PubPc, timedOut: bool)
    ensures var e, pc' := PubEvent(s, pc, timedOut), PubNext(s, pc, timedOut);
            && (e.Reject? ==> NewHand(pc) == [e.m] && pc' == PReturn(false))
            && (e.DropNew? ==> pc == PNotifyNew(e.m) && pc' == PReturn(true))
            && (e.Evict? ==> pc.PMakeRoom?)
            && (e.DropOld? ==> pc.PNotifyOld?)
  {}

  lemma InHandIsOpen(policy: FullPolicy, g: Log, c: Call, pc: PubPc)
    requires CallOk(policy, g, c, pc)
    ensures NewHand(pc) != [] ==> NewHand(pc) == [c.m]
    ensures pc.PNotifyNew? ==> policy == DropNewest
    ensures pc.PMakeRoom? || pc.PNotifyOld? ==> policy == DropOldest
  {}

  /** Answers given and about to be given stay. */
  lemma AnsweredStays(h: Notes, s: State, a: Action, m: Msg, ok: bool)
    requires Enabled(s, a) && Answered(h, s, m, ok)
    ensures Answered(Note(h, s, a), Apply(s, a), m, ok)
  {
    hide Record, PubNext, PubMain, PubEvent, RouterNext, RouterMain, RouterEvent, RouterQueues, WorkerNext, WorkerQueue, WorkerEvent,
         Seen, Claiming;
    var z, h' := Apply(s, a), Note(h, s, a);
    if k :| 0 <= k < |h.answers| && h.answers[k].call.m == m && h.answers[k].ok == ok {
      assert h'.answers[k] == h.answers[k];
    } else {
      var t :| 0 <= t < |s.pubs| && s.pubs[t] == PReturn(ok) && t in h.open && h.open[t].m == m;
      if a.Publisher? && a.t == t {
        assert h'.answers[|h.answers|] == Answer(h.open[t], ok);
      } else {
        assert a.CallPublish? ==> a.t != t;
        assert z.pubs[t] == s.pubs[t] && h'.open[t] == h.open[t];
      }
    }
  }

  lemma NewOutcome(h: Notes, s: State, a: Action, m: Msg, ok: bool)
    requires Enabled(s, a) && CallsOk(h, s) && a.Publisher?
    requires PubEvent(s, s.pubs[a.t], a.timedOut) == if ok then DropNew(m) else Reject(m)
    ensures Answered(Note(h, s, a), Apply(s, a), m, ok)
  {
    hide CallOk, AnswerOk, Record, PubNext, PubMain, PubEvent, PubLock, Claiming;
    var z, h', pc := Apply(s, a), Note(h, s, a), s.pubs[a.t];
    EventAnswer(s, pc, a.timedOut);
    InHandIsOpen(s.policy, s.log, h.open[a.t], pc);
    assert z.pubs[a.t] == PReturn(ok) && a.t in h'.open && h'.open[a.t].m == m;
  }

  lemma OutcomesStep(s: State, a: Action, h: Notes)
    requires Enabled(s, a) && CallsOk(h, s) && OutcomesOk(h, s)
    ensures OutcomesOk(Note(h, s, a), Apply(s, a))
  {
    hide CallsOk, Answered, Record, PubNext, PubMain, PubEvent, RouterNext, RouterMain, RouterEvent, RouterQueues,
         WorkerNext, WorkerQueue, WorkerEvent, Claiming, Note;
    var z, h' := Apply(s, a), Note(h, s, a);
    var e := EventOf(s, a);
    OutcomesRecorded(s, a);
    forall m | m in z.log.rejected
      ensures Answered(h', z, m, false)
    {
      if m in s.log.rejected { AnsweredStays(h, s, a, m, false); } else { NewOutcome(h, s, a, m, false); }
    }
    forall m | m in z.log.droppedNew
      ensures Answered(h', z, m, true)
    {
      if m in s.log.droppedNew { AnsweredStays(h, s, a, m, true); } else { NewOutcome(h, s, a, m, true); }
    }
    if a.Publisher? { PolicyOfEvent(s, a, h); }
  }

  function EventOf(s: State, a: Action): Event
    requires Enabled(s, a)
  {
    match a
    case Publisher(t, timedOut) => PubEvent(s, s.pubs[t], timedOut)
    case Router => RouterEvent(s)
    case Worker(w) => WorkerEvent(s, w)
    case _ => Nothing
  }

  lemma OutcomesRecorded(s: State, a: Action)
    requires Enabled(s, a)
    ensures var z, e := Apply(s, a), EventOf(s, a);
            && z.log.rejected == (if e.Reject? then s.log.rejected + [e.m] else s.log.rejected)
            && z.log.droppedNew == (if e.DropNew? then s.log.droppedNew + [e.m] else s.log.droppedNew)
            && z.log.evicted == (if e.Evict? then s.log.evicted + [e.m] else s.log.evicted)
            && z.log.droppedOld == (if e.DropOld? then s.log.droppedOld + [e.m] else s.log.droppedOld)
            && z.policy == s.policy
            && (e.Reject? || e.DropNew? || e.Evict? || e.DropOld? ==> a.Publisher?)
  {
    hide Record, PubNext, PubMain, PubEvent, RouterNext, RouterMain, RouterQueues, WorkerNext, WorkerQueue, Claiming;
    RecordOutcomes(s.log, EventOf(s, a));
  }

  lemma PolicyOfEvent(s: State, a: Action, h: Notes)
    requires Enabled(s, a) && CallsOk(h, s) && a.Publisher?
    ensures var e := PubEvent(s, s.pubs[a.t], a.timedOut);
            && (e.DropNew? ==> s.policy == DropNewest)
            && (e.Evict? || e.DropOld? ==> s.policy == DropOldest)
  {
    hide CallOk, PubEvent, PubNext;
    EventAnswer(s, s.pubs[a.t], a.timedOut);
    InHandIsOpen(s.policy, s.log, h.open[a.t], s.pubs[a.t]);
  }

  lemma {:induction false} NotesRun(s: State, acts: seq<Action>, h: Notes)
    requires CallsOk(h, s) && OutcomesOk(h, s) && Legal(s, acts)
    ensures CallsOk(AllNotes(h, s, acts), Exec(s, acts)) && OutcomesOk(AllNotes(h, s, acts), Exec(s, acts))
    ensures Exec(s, acts).policy == s.policy
    decreases |acts|
  {
    hide CallsOk, OutcomesOk, Apply, Enabled, Note;
    if acts != [] {
      CallsStep(s, acts[0], h);
      OutcomesStep(s, acts[0], h);
      LogStep(s, acts[0]);
      NotesRun(Apply(s, acts[0]), acts[1..], Note(h, s, acts[0]));
    }
  }

  // ---------- every answer ----------

  ghost function NotesOf(s: State, acts: seq<Action>): Notes
    requires Legal(s, acts)
  {
    AllNotes(Notes(map[], []), s, acts)
  }

  /** A message has one outcome at most. */
  lemma OneOutcome(z: State, m: Msg)
    requires Inv(z)
    ensures m in z.log.accepted ==> m !in z.log.rejected && m !in z.log.droppedNew
    ensures m in z.log.rejected ==> m !in z.log.droppedNew
    ensures m in z.log.accepted || m in z.log.rejected || m in z.log.droppedNew ==> m in z.log.given
  {
    hide ShutdownInv, CallbackInv, Count, Sum;
    assert Laws(z, m);
    UniqueCount(z.log.given, m);
    CountMember(z.log.accepted, m);
    CountMember(z.log.rejected, m);
    CountMember(z.log.droppedNew, m);
  }

  /** In every run, under every policy, publish answers false if and only if the message of that call
      was rejected, and that is so exactly if ReturnFalse found no room, Block was about to wait on a
      stopped bus, or BlockTimeout was, or its time was up. It answers true if and only if the message
      was accepted, or dropped as the newest, which is so exactly if DropNewest found no room. No call
      takes out more messages than its attempts found no room. */
  lemma EveryAnswer(s: State, acts: seq<Action>, k: nat)
    requires Init(s) && Legal(s, acts) && k < |NotesOf(s, acts).answers|
    ensures var g, x := Exec(s, acts).log, NotesOf(s, acts).answers[k];
            && x.call.m in g.given
            && (x.ok <==> x.call.m in g.accepted || x.call.m in g.droppedNew)
            && (!x.ok <==> x.call.m in g.rejected)
            && (!x.ok <==> Refused(s.policy, x.call))
            && (x.call.m in g.droppedNew <==> s.policy == DropNewest && x.call.fails > 0)
            && Fair(s.policy, x.call)
  {
    hide CallOk, Inv;
    NotesRun(s, acts, Notes(map[], []));
    InitInv(s);
    RunInv(s, acts);
    OneOutcome(Exec(s, acts), NotesOf(s, acts).answers[k].call.m);
  }

  /** Only DropNewest drops a new message, only DropOldest takes out an old one; a rejected message
      has a call that was, or is about to be, answered false for one of the reasons of its policy. */
  lemma OnlyThePolicy(s: State, acts: seq<Action>)
    requires Init(s) && Legal(s, acts)
    ensures var z, h := Exec(s, acts), NotesOf(s, acts);
            && (z.log.droppedNew != [] ==> s.policy == DropNewest)
            && (z.log.evicted != [] || z.log.droppedOld != [] ==> s.policy == DropOldest)
            && (forall m :: m in z.log.rejected ==> RefusedBy(h, z, m))
            && (z.log.rejected != [] ==> s.policy == ReturnFalse || s.policy == Block || s.policy == BlockTimeout)
  {
    NotesRun(s, acts, Notes(map[], []));
    var z, h := Exec(s, acts), NotesOf(s, acts);
    forall m | m in z.log.rejected
      ensures RefusedBy(h, z, m) && Answered(h, z, m, false)
    {
      RefusedCall(h, z, m);
    }
    if z.log.rejected != [] { assert z.log.rejected[0] in z.log.rejected; }
  }

  ghost predicate RefusedBy(h: Notes, z: State, m: Msg) {
    || (exists k :: 0 <= k < |h.answers| && h.answers[k].call.m == m && !h.answers[k].ok && Refused(z.policy, h.answers[k].call))
    || (exists t :: 0 <= t < |z.pubs| && z.pubs[t] == PReturn(false) && t in h.open && h.open[t].m == m
                    && Refused(z.policy, h.open[t]))
  }

  lemma RefusedCall(h: Notes, z: State, m: Msg)
    requires CallsOk(h, z) && Answered(h, z, m, false)
    ensures RefusedBy(h, z, m)
  {
    if k :| 0 <= k < |h.answers| && h.answers[k].call.m == m && h.answers[k].ok == false {
      assert AnswerOk(z.policy, z.log, h.answers[k].call, h.answers[k].ok);
    } else {
      var t :| 0 <= t < |z.pubs| && z.pubs[t] == PReturn(false) && t in h.open && h.open[t].m == m;
      assert CallOk(z.policy, z.log, h.open[t], z.pubs[t]);
    }
  }
}
