/** The bus never gets stuck: from every reachable state some run of the threads dispatches all that
    was accepted, lets a publish return, or lets a stop return. */
module BusProgress {
  import opened FifoSpec
  import opened Seqs
  import opened BusProtocol
  import opened BusRuns
  import opened BusShutdown
  import opened BusOrder
  import opened BusTheorems
  import opened BusLateness

  // ---------- what holds in every reachable state ----------

  /** A cell of a worker's queue that is being handed back is in that worker's hand. */
  ghost predicate WorkerFree(pc: WorkerPc, q: Fifo<Msg>) { forall p :: p in q.releasing ==> pc.WTaken? && pc.pos == p }

  ghost predicate FreeOk(s: State) { Sized(s) && forall w :: 0 <= w < |s.workers| ==> WorkerFree(s.workers[w], s.queues[w]) }

  /** Whoever holds publish_mutex_ is on its way to give it back. */
  ghost predicate LockOk(s: State) { s.lock != [] ==> |s.lock| == 1 && s.lock[0] < |s.pubs| && Inside(s.pubs[s.lock[0]]) }

  ghost predicate Live(s: State) { Inv(s) && LateInv(s) && FreeOk(s) && RouterReady(s) && LockOk(s) }

  lemma LockStep(s: State, a: Action)
    requires LockOk(s) && Enabled(s, a)
    ensures LockOk(Apply(s, a))
  {
    hide PubMain, PubEvent, RouterNext, RouterMain, RouterEvent, RouterQueues, WorkerNext, WorkerQueue, WorkerEvent, Record, Give,
         Claiming;
  }

  lemma ReadyStep(s: State, a: Action)
    requires RouterReady(s) && Enabled(s, a)
    ensures RouterReady(Apply(s, a))
  {
    hide PubNext, PubMain, PubEvent, RouterMain, RouterEvent, WorkerNext, WorkerQueue, WorkerEvent, Record, Give, Claiming;
  }

  lemma FreeStep(s: State, a: Action)
    requires FreeOk(s) && Enabled(s, a)
    ensures FreeOk(Apply(s, a))
  {
    hide PubNext, PubMain, PubEvent, RouterNext, RouterMain, RouterEvent, Record, Give, Claiming, WorkerEvent;
    var z := Apply(s, a);
    forall w | 0 <= w < |z.workers|
      ensures WorkerFree(z.workers[w], z.queues[w])
    {
      assert WorkerFree(s.workers[w], s.queues[w]);
    }
  }

  lemma LiveStep(s: State, a: Action)
    requires Live(s) && Enabled(s, a)
    ensures Live(Apply(s, a))
  {
    hide OrderInv, ShutdownInv, LateInv, FreeOk, RouterReady, LockOk, Laws, CallbackInv, UniqueIds, Apply, Enabled;
    StepInv(s, a);
    LateInvStep(s, a);
    FreeStep(s, a);
    ReadyStep(s, a);
    LockStep(s, a);
  }

  lemma {:induction false} LiveRun(s: State, acts: seq<Action>)
    requires Live(s) && Legal(s, acts)
    ensures Live(Exec(s, acts))
    decreases |acts|
  {
    hide Live, Apply, Enabled;
    if acts != [] {
      LiveStep(s, acts[0]);
      LiveRun(Apply(s, acts[0]), acts[1..]);
    }
  }

  lemma LiveFromInit(s: State, acts: seq<Action>)
    requires Init(s) && Legal(s, acts)
    ensures Live(Exec(s, acts))
  {
    InitInv(s);
    LateInvInit(s);
    LiveRun(s, acts);
  }

  lemma Go(s: State, a: Action) returns (z: State)
    requires Live(s) && Enabled(s, a)
    ensures z == Apply(s, a) && Reaches(s, z) && Live(z)
  {
    hide Live, Apply, Enabled, Reaches;
    ReachesItself(s);
    AndThen(s, s, a);
    LiveStep(s, a);
    z := Apply(s, a);
  }

  // ---------- a worker empties its queue ----------

  /** All but the workers, their queues and what is dispatched. */
  ghost predicate BesideWorkers(s: State, z: State) {
    && z.policy == s.policy && z.capacity == s.capacity && z.hash == s.hash && z.running == s.running && z.drained == s.drained
    && z.lock == s.lock && z.main == s.main && z.pubs == s.pubs && z.router == s.router && z.control == s.control
    && z.log.accepted == s.log.accepted && z.log.evicted == s.log.evicted && |z.workers| == |s.workers|
  }

  /** Only worker w moved. */
  ghost predicate OnlyWorker(s: State, z: State, w: nat) {
    && BesideWorkers(s, z) && Sized(s) && Sized(z)
    && forall v :: 0 <= v < |s.workers| && v != w ==> z.workers[v] == s.workers[v] && z.queues[v] == s.queues[v]
  }

  function WorkerRank(pc: WorkerPc, empty: bool): nat {
    match pc
    case WTaken(_, _, _) => 9
    case WDispatch(_, _) => 8
    case WCheck(phase) => if phase == Run then 6 else 5
    case WPoll(phase) => if phase == Final then 1 else if empty then 7 else 4
    case _ => 0
  }

  /** Done for now, or for good. */
  predicate Resting(pc: WorkerPc, empty: bool) { empty && (pc.WCheck? || pc.WExited?) }

  ghost predicate QueueReady(q: Fifo<Msg>) { forall i :: 0 <= i < |q.items| ==> q.items[i].ready }

  lemma WorkerOne(s: State, w: nat)
    requires Live(s) && w < |s.workers| && Enabled(s, Worker(w)) && QueueReady(s.queues[w])
    requires !(s.queues[w].items == [] && s.workers[w].WCheck?)
    ensures var z := Apply(s, Worker(w));
            && OnlyWorker(s, z, w) && QueueReady(z.queues[w])
            && (|z.queues[w].items| < |s.queues[w].items|
                || (|z.queues[w].items| == |s.queues[w].items|
                    && (Resting(z.workers[w], z.queues[w].items == [])
                        || WorkerRank(z.workers[w], z.queues[w].items == []) < WorkerRank(s.workers[w], s.queues[w].items == []))))
  {
    hide Live, PubNext, PubMain, PubEvent, RouterNext, RouterMain, RouterEvent, RouterQueues, Record, Give, Claiming;
    SameOutcomes(s.log, WorkerEvent(s, w));
  }

  lemma SameOutcomes(g: Log, e: Event)
    ensures !e.Accept? ==> Record(g, e).accepted == g.accepted
    ensures !e.Evict? ==> Record(g, e).evicted == g.evicted
  {}

  lemma OnlyWorkerThrough(s: State, y: State, z: State, w: nat)
    requires OnlyWorker(s, y, w) && OnlyWorker(y, z, w)
    ensures OnlyWorker(s, z, w)
  {}

  /** Which loop the worker is in, and that what its queue holds is published. */
  lemma WorkerAtWork(s: State, w: nat)
    requires Live(s) && w < |s.workers| && (s.control == Up || s.control == JoiningRouter)
    requires !(s.router.RPublish? && s.router.w == w)
    ensures Sized(s) && QueueReady(s.queues[w]) && Enabled(s, Worker(w)) && !s.workers[w].WExited?
  {
    hide OrderInv, LateInv, Laws, CallbackInv, UniqueIds, FreeOk, MainOk, QuietOk;
    assert QueueOk(s.router, w, s.workers[w], s.queues[w]);
    assert InPhase(s.workers[w], Run) || InPhase(s.workers[w], Drain);
  }

  lemma {:induction false} DrainWorker(s: State, w: nat) returns (z: State)
    requires Live(s) && w < |s.workers| && (s.control == Up || s.control == JoiningRouter)
    requires !(s.router.RPublish? && s.router.w == w)
    ensures Reaches(s, z) && Live(z) && OnlyWorker(s, z, w) && z.queues[w].items == [] && z.workers[w].WCheck?
    decreases if w < |s.queues| then |s.queues[w].items| else 0, if w < |s.queues| then WorkerRank(s.workers[w], s.queues[w].items == []) else 0
  {
    hide Live, Reaches, Apply, Enabled, WorkerRank;
    WorkerAtWork(s, w);
    if s.queues[w].items == [] && s.workers[w].WCheck? {
      ReachesItself(s);
      z := s;
    } else {
      WorkerOne(s, w);
      var y := Go(s, Worker(w));
      WorkerAtWork(y, w);
      if y.queues[w].items == [] && y.workers[w].WCheck? {
        z := y;
      } else {
        z := DrainWorker(y, w);
        OnlyWorkerThrough(s, y, z, w);
        Through(s, y, z);
      }
    }
  }

  /** An emptied queue has room again. */
  lemma EmptyHasRoom(s: State, w: nat)
    requires Live(s) && w < |s.workers| && Sized(s) && s.queues[w].items == [] && s.workers[w].WCheck?
    ensures s.queues[w].CanClaim(s.capacity)
  {
    hide OrderInv, ShutdownInv, Laws, CallbackInv, UniqueIds;
    assert WorkerFree(s.workers[w], s.queues[w]);
  }

  // ---------- the router moves on ----------

  /** All but the router, the main queue, the workers and their queues, and what is routed and dispatched. */
  ghost predicate BesideRouter(s: State, z: State) {
    && z.policy == s.policy && z.capacity == s.capacity && z.hash == s.hash && z.running == s.running && z.drained == s.drained
    && z.lock == s.lock && z.pubs == s.pubs && z.control == s.control
    && z.log.accepted == s.log.accepted && z.log.evicted == s.log.evicted && |z.workers| == |s.workers|
  }

  /** Steps to the next poll. */
  function RouterRank(pc: RouterPc, empty: bool): nat {
    match pc
    case RTaken(_, _, _) => 9
    case RPush(_, _) => 8
    case RDispatch(_, _) => 7
    case RPublish(_, _, _) => 7
    case RCheck => 5
    case RPoll(drain) => if drain then 1 else if empty then 6 else 4
    case _ => 0
  }

  predicate RouterRests(pc: RouterPc, empty: bool) { pc.RExited? || (empty && pc.RCheck?) }

  ghost predicate MainReady(main: Fifo<Msg>) { forall i :: 0 <= i < |main.items| ==> main.items[i].ready }

  lemma RouterOne(s: State)
    requires Live(s) && Enabled(s, Router) && (s.router.RPush? ==> Pushes(s))
    requires MainReady(s.main) && !(s.main.items == [] && s.router.RCheck?)
    ensures var z := Apply(s, Router);
            && BesideRouter(s, z) && MainReady(z.main) && z.workers == s.workers
            && (|z.main.items| < |s.main.items|
                || (|z.main.items| == |s.main.items|
                    && (RouterRests(z.router, z.main.items == [])
                        || RouterRank(z.router, z.main.items == []) < RouterRank(s.router, s.main.items == []))))
            && (z.router.RExited? ==> z.main.items == [])
  {
    hide Live, PubNext, PubMain, PubEvent, WorkerNext, WorkerQueue, WorkerEvent, RouterQueues, Record, Give, Claiming, WorkerOf;
    SameOutcomes(s.log, RouterEvent(s));
    SameQueueCount(s);
  }

  lemma SameQueueCount(s: State)
    requires RouterReady(s)
    ensures |RouterQueues(s)| == |s.queues|
  {}

  /** Up, or being stopped with the router still at work. */
  predicate RouterAtWork(s: State) {
    (s.control == Up || s.control == JoiningRouter) && !s.router.RExited? && !s.router.ROff?
  }

  /** If the queue of the worker it wants to push to is full, the worker empties it first. */
  lemma Unblock(s: State) returns (z: State)
    requires Live(s) && RouterAtWork(s)
    ensures Reaches(s, z) && Live(z) && BesideWorkers(s, z) && Enabled(z, Router) && (z.router.RPush? ==> Pushes(z))
  {
    hide Live, Reaches;
    ReachesItself(s);
    z := s;
    IsReady(s);
    if s.router.RPush? {
      var w := WorkerOf(s, s.router.m);
      z := DrainWorker(s, w);
      EmptyHasRoom(z, w);
      IsReady(z);
    }
  }

  lemma IsReady(s: State)
    requires Live(s)
    ensures RouterReady(s)
  {}

  lemma {:induction false} RouterFinishes(s: State) returns (z: State)
    requires Live(s) && RouterAtWork(s) && MainReady(s.main)
    ensures Reaches(s, z) && Live(z) && BesideRouter(s, z) && z.main.items == [] && (z.router.RCheck? || z.router.RExited?)
    decreases |s.main.items|, RouterRank(s.router, s.main.items == [])
  {
    hide Live, Reaches, Apply, Enabled, RouterRank;
    if s.main.items == [] && s.router.RCheck? {
      ReachesItself(s);
      z := s;
    } else {
      var y := Unblock(s);
      RouterOne(y);
      z := Go(y, Router);
      Through(s, y, z);
      if !(z.router.RExited? || (z.main.items == [] && z.router.RCheck?)) {
        StillAtWork(y);
        var x := z;
        z := RouterFinishes(x);
        Through(s, x, z);
      }
    }
  }

  lemma StillAtWork(s: State)
    requires RouterAtWork(s) && Enabled(s, Router)
    ensures var z := Apply(s, Router); RouterAtWork(z) || z.router.RExited?
  {
    hide PubNext, PubMain, PubEvent, RouterMain, RouterEvent, RouterQueues, Record, Claiming;
  }

  // ---------- claims are published ----------

  ghost function Claimers(pubs: seq<PubPc>): set<nat> { set t | 0 <= t < |pubs| && pubs[t].PPublish? }

  /** Only publishers that were publishing have moved on, to their return. */
  ghost predicate OnlyPublished(s: State, z: State) {
    && z.policy == s.policy && z.capacity == s.capacity && z.hash == s.hash && z.running == s.running && z.drained == s.drained
    && z.lock == s.lock && z.control == s.control && z.router == s.router && z.workers == s.workers && z.queues == s.queues
    && z.log.accepted == s.log.accepted && z.log.evicted == s.log.evicted && |z.pubs| == |s.pubs|
    && |z.main.items| == |s.main.items|
    && forall t :: 0 <= t < |s.pubs| ==> z.pubs[t] == s.pubs[t] || (s.pubs[t].PPublish? && z.pubs[t] == PReturn(true))
  }

  lemma PublishOne(s: State, t: nat)
    requires t < |s.pubs| && s.pubs[t].PPublish? && Sized(s)
    ensures Enabled(s, Publisher(t, false))
    ensures var z := Apply(s, Publisher(t, false)); OnlyPublished(s, z) && Claimers(z.pubs) == Claimers(s.pubs) - {t}
  {
    hide RouterNext, RouterMain, RouterEvent, RouterQueues, WorkerNext, WorkerQueue, WorkerEvent, Claiming;
  }

  lemma PublishedThrough(s: State, y: State, z: State)
    requires OnlyPublished(s, y) && OnlyPublished(y, z)
    ensures OnlyPublished(s, z)
  {}

  lemma {:induction false} PublishAll(s: State) returns (z: State)
    requires Live(s)
    ensures Reaches(s, z) && Live(z) && OnlyPublished(s, z) && Claimers(z.pubs) == {} && MainReady(z.main)
    decreases Claimers(s.pubs)
  {
    hide Live, Reaches, Apply, Enabled, Claimers;
    if Claimers(s.pubs) == {} {
      ReachesItself(s);
      AllPublished(s);
      z := s;
    } else {
      var t :| t in Claimers(s.pubs);
      IsReady(s);
      IsClaimer(s.pubs, t);
      PublishOne(s, t);
      var y := Go(s, Publisher(t, false));
      z := PublishAll(y);
      Through(s, y, z);
      PublishedThrough(s, y, z);
    }
  }

  lemma IsClaimer(pubs: seq<PubPc>, t: nat)
    requires t in Claimers(pubs)
    ensures t < |pubs| && pubs[t].PPublish?
  {}

  lemma AllPublished(s: State)
    requires Live(s) && Claimers(s.pubs) == {}
    ensures MainReady(s.main)
  {
    hide OrderInv, LateInv, Laws, CallbackInv, UniqueIds, FreeOk, StageOk, QueuesOk, QuietOk;
    forall i | 0 <= i < |s.main.items|
      ensures s.main.items[i].ready
    {
      if !s.main.items[i].ready { HasClaimer(s.main, s.pubs, i); }
    }
  }

  lemma HasClaimer(main: Fifo<Msg>, pubs: seq<PubPc>, i: nat)
    requires MainOk(main, pubs) && i < |main.items| && !main.items[i].ready
    ensures Claimers(pubs) != {}
  {
    var t :| 0 <= t < |pubs| && pubs[t] == PPublish(main.taken + i);
    assert t in Claimers(pubs);
  }

  // ---------- everything accepted can be dispatched ----------

  lemma {:induction false} DrainAll(s: State, n: nat) returns (z: State)
    requires Live(s) && (s.control == Up || s.control == JoiningRouter) && !s.router.RPublish? && n <= |s.workers|
    requires Sized(s) && forall w :: 0 <= w < n ==> s.queues[w].items == [] && s.workers[w].WCheck?
    ensures Reaches(s, z) && Live(z) && BesideWorkers(s, z) && Sized(z)
    ensures forall w :: 0 <= w < |z.workers| ==> z.queues[w].items == [] && z.workers[w].WCheck?
    decreases |s.workers| - n
  {
    hide Live, Reaches, Apply, Enabled;
    if n == |s.workers| {
      ReachesItself(s);
      z := s;
    } else {
      var y := DrainWorker(s, n);
      z := DrainAll(y, n + 1);
      Through(s, y, z);
    }
  }

  /** Nothing is under way any more. */
  ghost predicate Empty(s: State) {
    && Sized(s) && s.main.items == [] && s.router.RCheck?
    && forall w :: 0 <= w < |s.workers| ==> s.queues[w].items == [] && s.workers[w].WCheck?
  }

  lemma EmptyIsDispatched(z: State)
    requires Live(z) && Empty(z)
    ensures forall m :: m in z.log.accepted && m !in z.log.evicted ==> m in z.log.dispatched
  {
    hide LateInv, FreeOk, ShutdownInv, CallbackInv, Laws;
    assert RouterHand(z.router) == [];
    forall w | 0 <= w < |z.workers|
      ensures Side(z.workers[w], z.queues[w]) == []
    {
      assert z.queues[w].Values() == [];
    }
    SurvivorsAre(z);
    assert z.main.Values() == [];
    forall m | m in z.log.accepted && m !in z.log.evicted
      ensures m in z.log.dispatched
    {
      FilterMember(z.log.accepted, Kept(z.log.evicted), m);
      EmptySidesDispatched(z, m);
    }
  }

  /** What has happened on the way: nothing was accepted or taken out, and only publishers that were
      publishing have moved. */
  ghost predicate OnTheWay(s: State, z: State) {
    && z.policy == s.policy && z.capacity == s.capacity && z.running == s.running && z.lock == s.lock && z.control == s.control
    && z.log.accepted == s.log.accepted && z.log.evicted == s.log.evicted && |z.pubs| == |s.pubs|
    && forall t :: 0 <= t < |s.pubs| ==> z.pubs[t] == s.pubs[t] || (s.pubs[t].PPublish? && z.pubs[t] == PReturn(true))
  }

  lemma Settle(s: State) returns (z: State)
    requires Live(s) && s.control == Up
    ensures Reaches(s, z) && Live(z) && Empty(z) && OnTheWay(s, z)
  {
    hide Live, Reaches, Apply, Enabled;
    RouterUpIs(s);
    var x := PublishAll(s);
    var y := RouterFinishes(x);
    RouterUpIs(y);
    IsReady(y);
    z := DrainAll(y, 0);
    Through(s, x, y);
    Through(s, y, z);
  }

  lemma RouterUpIs(s: State)
    requires Live(s) && s.control == Up
    ensures RouterAtWork(s) && s.running
  {
    hide OrderInv, LateInv, Laws, CallbackInv, UniqueIds, FreeOk, MainOk, QueuesOk, QuietOk;
  }

  /** From every reachable state of a running bus there is a run that accepts nothing more and after
      which all that was accepted and not evicted is dispatched: no queue, hand or worker is stuck. */
  lemma AcceptedCanBeDispatched(s: State, acts: seq<Action>)
    requires Init(s) && Legal(s, acts) && Exec(s, acts).control == Up
    ensures var y := Exec(s, acts);
            exists z :: Reaches(y, z) && z.log.accepted == y.log.accepted && z.log.evicted == y.log.evicted
                        && forall m :: m in y.log.accepted && m !in y.log.evicted ==> m in z.log.dispatched
  {
    hide Init, Live, Reaches, Legal, Exec;
    LiveFromInit(s, acts);
    var z := Settle(Exec(s, acts));
    EmptyIsDispatched(z);
  }

  // ---------- a publish can return ----------

  /** A publisher past the lock, with no message in its hand but its own, finds no cell being handed
      back once the router has let go. */
  lemma NothingHanding(s: State, t: nat)
    requires LateInv(s) && !s.router.RTaken? && t < |s.pubs| && Inside(s.pubs[t]) && !s.pubs[t].PRelease?
    ensures s.main.releasing == {}
  {
    if p :| p in s.main.releasing {
      var u: nat :| u < |s.pubs| && s.pubs[u].PRelease? && s.pubs[u].pos == p;
      assert Takes(s.pubs[u]);
      Alone(s, t, u);
    }
  }

  /** A publisher that makes room finds everything published. */
  lemma TakesAny(s: State, t: nat)
    requires LateInv(s) && MainOk(s.main, s.pubs) && t < |s.pubs| && s.pubs[t].PMakeRoom? && s.main.items != []
    ensures s.main.CanTake()
  {
    assert Takes(s.pubs[t]);
    if !s.main.items[0].ready {
      var u :| 0 <= u < |s.pubs| && s.pubs[u] == PPublish(s.main.taken + 0);
      Alone(s, t, u);
    }
  }

  /** Whether the message is not in the queue yet. */
  predicate Before(pc: PubPc) { NewHand(pc) != [] && !pc.PNotifyNew? }

  function PubRank(s: State, pc: PubPc): nat {
    match pc
    case PIdle => 0
    case PReturn(_) => 1
    case PPublish(_) => 2
    case PNotifyNew(_) => 2
    case PTry(_) => if s.main.CanClaim(s.capacity) then 6 else 12
    case PRetry(_) => 7
    case PWait(_) => if s.running then 8 else 5
    case PMakeRoom(_) => 11
    case PRelease(_, _, _) => 14
    case _ => 13
  }

  /** A publisher that can take its next steps by itself: on a running bus the queue is empty, or it
      has its place. */
  ghost predicate CanGo(s: State, t: nat) {
    && Live(s) && !s.router.RTaken? && t < |s.pubs|
    && (s.pubs[t].PLock? ==> s.lock == [])
    && (s.running && Before(s.pubs[t]) ==> s.main.items == [])
  }

  lemma PubOne(s: State, t: nat)
    requires CanGo(s, t) && !s.pubs[t].PIdle?
    ensures Enabled(s, Publisher(t, false))
    ensures var z := Apply(s, Publisher(t, false));
            && CanGo(z, t) && z.control == s.control && |z.pubs| == |s.pubs|
            && (forall u :: 0 <= u < |s.pubs| && u != t ==> z.pubs[u] == s.pubs[u])
            && (z.lock == s.lock || (s.pubs[t].PLock? && z.lock == [t]) || (s.lock == [t] && z.lock == []))
            && Nearer(s, s.pubs[t], z, z.pubs[t])
  {
    IsReady(s);
    LetGo(s, t);
    hide Live, PubNext, PubMain, PubRank, RouterNext, RouterMain, RouterEvent, RouterQueues, WorkerNext, WorkerQueue, WorkerEvent,
         Record, Claiming, PubEvent, Nearer, Before;
    assert Enabled(s, Publisher(t, false));
    LiveStep(s, Publisher(t, false));
    PubMoves(s, Apply(s, Publisher(t, false)), s.pubs[t]);
  }

  lemma LetGo(s: State, t: nat)
    requires Live(s) && !s.router.RTaken? && t < |s.pubs|
    ensures s.capacity >= 2 && (Inside(s.pubs[t]) && !s.pubs[t].PRelease? ==> s.main.releasing == {})
    ensures s.pubs[t].PMakeRoom? && s.main.items != [] ==> s.main.CanTake()
  {
    hide OrderInv, Laws, CallbackInv, UniqueIds, FreeOk, StageOk, QueuesOk, QuietOk;
    if Inside(s.pubs[t]) && !s.pubs[t].PRelease? { NothingHanding(s, t); }
    if s.pubs[t].PMakeRoom? && s.main.items != [] { TakesAny(s, t); }
  }

  /** Closer to its return: the message gets its place, or a message less stands in the way, or the
      way is shorter. */
  ghost predicate Nearer(s: State, pc: PubPc, z: State, pc': PubPc) {
    || (Before(pc) && !Before(pc'))
    || (Before(pc) && Before(pc') && |z.main.items| < |s.main.items|)
    || (Before(pc) == Before(pc') && (Before(pc) ==> |z.main.items| == |s.main.items|) && PubRank(z, pc') < PubRank(s, pc))
  }

  lemma PubMoves(s: State, z: State, pc: PubPc)
    requires s.capacity >= 2 && !pc.PIdle? && (s.running && Before(pc) ==> s.main.items == [])
    requires Inside(pc) && !pc.PRelease? ==> s.main.releasing == {}
    requires pc.PMakeRoom? && s.main.items != [] ==> s.main.CanTake()
    requires z.capacity == s.capacity && z.running == s.running && z.main == PubMain(s, pc)
    ensures var pc' := PubNext(s, pc, false);
            Nearer(s, pc, z, pc') && !pc'.PLock? && (z.running && Before(pc') ==> z.main.items == [])
  {}

  lemma {:induction false} PublisherAlone(s: State, t: nat) returns (z: State)
    requires CanGo(s, t)
    ensures Reaches(s, z) && Live(z) && z.control == s.control && |z.pubs| == |s.pubs| && z.pubs[t].PIdle?
    ensures forall u :: 0 <= u < |s.pubs| && u != t ==> z.pubs[u] == s.pubs[u]
    ensures s.lock == [] || s.lock == [t] ==> z.lock == []
    decreases Before(s.pubs[t]), if Before(s.pubs[t]) then |s.main.items| else 0, PubRank(s, s.pubs[t])
  {
    hide Live, Reaches, Apply, Enabled, PubRank, Before;
    if s.pubs[t].PIdle? {
      ReachesItself(s);
      IdleHoldsNothing(s, t);
      z := s;
    } else {
      PubOne(s, t);
      var y := Go(s, Publisher(t, false));
      z := PublisherAlone(y, t);
      Through(s, y, z);
    }
  }

  lemma IdleHoldsNothing(s: State, t: nat)
    requires Live(s) && t < |s.pubs| && s.pubs[t].PIdle?
    ensures s.lock != [t]
  {
    hide Inv, LateInv, FreeOk, RouterReady;
  }

  lemma HolderInside(s: State)
    requires Live(s) && s.lock != []
    ensures |s.lock| == 1 && s.lock[0] < |s.pubs| && Inside(s.pubs[s.lock[0]])
  {
    hide Inv, LateInv, FreeOk, RouterReady;
  }

  // ---------- a stop can return ----------

  /** What a worker does on its last rounds, once the router is gone. */
  lemma LeaverAtWork(s: State, w: nat)
    requires Live(s) && s.control == JoiningWorkers && w < |s.workers|
    ensures Sized(s) && QueueReady(s.queues[w]) && s.drained && !s.running && (!s.workers[w].WExited? ==> Enabled(s, Worker(w)))
    ensures s.workers[w].WExited? ==> s.queues[w].items == []
  {
    hide OrderInv, LateInv, Laws, CallbackInv, UniqueIds, FreeOk, MainOk, QuietOk;
    assert QueueOk(s.router, w, s.workers[w], s.queues[w]);
  }

  lemma LeaverOne(s: State, w: nat)
    requires Live(s) && w < |s.workers| && s.drained && !s.running && Enabled(s, Worker(w)) && QueueReady(s.queues[w])
    ensures var z := Apply(s, Worker(w));
            && OnlyWorker(s, z, w)
            && (|z.queues[w].items| < |s.queues[w].items|
                || (|z.queues[w].items| == |s.queues[w].items|
                    && WorkerRank(z.workers[w], z.queues[w].items == []) < WorkerRank(s.workers[w], s.queues[w].items == [])))
  {
    hide Live, PubNext, PubMain, PubEvent, RouterNext, RouterMain, RouterEvent, RouterQueues, Record, Give, Claiming;
    SameOutcomes(s.log, WorkerEvent(s, w));
  }

  lemma {:induction false} WorkerLeaves(s: State, w: nat) returns (z: State)
    requires Live(s) && s.control == JoiningWorkers && w < |s.workers|
    ensures Reaches(s, z) && Live(z) && OnlyWorker(s, z, w) && z.workers[w].WExited?
    decreases if w < |s.queues| then |s.queues[w].items| else 0, if w < |s.queues| then WorkerRank(s.workers[w], s.queues[w].items == []) else 0
  {
    hide Live, Reaches, Apply, Enabled, WorkerRank;
    LeaverAtWork(s, w);
    if s.workers[w].WExited? {
      ReachesItself(s);
      z := s;
    } else {
      LeaverOne(s, w);
      var y := Go(s, Worker(w));
      z := WorkerLeaves(y, w);
      OnlyWorkerThrough(s, y, z, w);
      Through(s, y, z);
    }
  }

  lemma {:induction false} AllLeave(s: State, n: nat) returns (z: State)
    requires Live(s) && s.control == JoiningWorkers && n <= |s.workers| && forall w :: 0 <= w < n ==> s.workers[w].WExited?
    ensures Reaches(s, z) && Live(z) && z.control == JoiningWorkers && forall w :: 0 <= w < |z.workers| ==> z.workers[w].WExited?
    decreases |s.workers| - n
  {
    hide Live, Reaches, Apply, Enabled;
    if n == |s.workers| {
      ReachesItself(s);
      z := s;
    } else {
      var y := WorkerLeaves(s, n);
      z := AllLeave(y, n + 1);
      Through(s, y, z);
    }
  }

  /** The router leaves once it finds nothing to take. */
  lemma RouterLeaves(s: State) returns (z: State)
    requires Live(s) && s.control == JoiningRouter
    ensures Reaches(s, z) && Live(z) && z.control == JoiningRouter && z.router.RExited? && OnTheWay(s, z)
  {
    hide Live, Reaches, Apply, Enabled;
    z := s;
    ReachesItself(s);
    JoiningMeans(s);
    if !s.router.RExited? {
      var x := PublishAll(s);
      var y := RouterFinishes(x);
      Through(s, x, y);
      z := y;
      if y.router.RCheck? {
        JoiningMeans(y);
        RouterSees(y);
        var v := Go(y, Router);
        z := Go(v, Router);
        Through(s, y, v);
        Through(s, v, z);
      }
    }
  }

  lemma JoiningMeans(s: State)
    requires Live(s) && s.control == JoiningRouter
    ensures !s.running && !s.router.ROff? && RouterReady(s)
  {
    hide OrderInv, LateInv, Laws, CallbackInv, UniqueIds, FreeOk, MainOk, QueuesOk, QuietOk;
  }

  /** From its check to its exit. */
  lemma RouterSees(s: State)
    requires RouterReady(s) && s.router.RCheck? && !s.running && s.main.items == []
    ensures Enabled(s, Router) && Enabled(Apply(s, Router), Router)
    ensures var z := Apply(Apply(s, Router), Router); z.router.RExited? && z.control == s.control && OnTheWay(s, z)
  {
    hide PubNext, PubMain, PubEvent, WorkerNext, WorkerQueue, WorkerEvent, Claiming;
  }

  /** Whatever publishers, router and workers are in the middle of, some run lets stop return. */
  lemma StopCanReturn(s: State, acts: seq<Action>)
    requires Init(s) && Legal(s, acts) && (Exec(s, acts).control == JoiningRouter || Exec(s, acts).control == JoiningWorkers)
    ensures exists z :: Reaches(Exec(s, acts), z) && z.control == Stopped
  {
    hide Init, Live, Reaches, Legal, Exec;
    LiveFromInit(s, acts);
    var x := Exec(s, acts);
    var y := x;
    ReachesItself(x);
    if x.control == JoiningRouter {
      var v := RouterLeaves(x);
      IsReady(v);
      y := Go(v, RouterJoined);
      Through(x, v, y);
    }
    var w := AllLeave(y, 0);
    IsReady(w);
    var z := Go(w, WorkersJoined);
    Through(x, y, w);
    Through(x, w, z);
  }

  // ---------- a publish can return, whether or not the bus runs ----------

  /** The router lets go of the main queue: for the next poll, or for good. */
  lemma RouterYields(s: State) returns (z: State)
    requires Live(s)
    ensures Reaches(s, z) && Live(z) && !z.router.RTaken? && (z.running ==> z.main.items == []) && OnTheWay(s, z)
  {
    hide Live, Reaches, Apply, Enabled;
    match s.control
    case Up =>
      z := Settle(s);
    case JoiningRouter =>
      z := RouterLeaves(s);
      JoiningMeans(z);
    case _ =>
      DownMeans(s);
      ReachesItself(s);
      z := s;
  }

  lemma DownMeans(s: State)
    requires Live(s) && (s.control == Stopped || s.control == JoiningWorkers)
    ensures !s.running && !s.router.RTaken?
  {
    hide OrderInv, LateInv, Laws, CallbackInv, UniqueIds, FreeOk, MainOk, QueuesOk, QuietOk;
  }

  /** Whatever a publish is waiting for, some run lets it return. */
  lemma PublishCanReturn(s: State, acts: seq<Action>, t: nat)
    requires Init(s) && Legal(s, acts) && t < |Exec(s, acts).pubs|
    ensures exists z :: Reaches(Exec(s, acts), z) && |z.pubs| == |Exec(s, acts).pubs| && z.pubs[t].PIdle?
  {
    hide Init, Live, Reaches, Legal, Exec;
    LiveFromInit(s, acts);
    var x := Exec(s, acts);
    var y := RouterYields(x);
    if y.pubs[t].PLock? && y.lock != [] {
      HolderInside(y);
      var u := y.lock[0];
      var v := PublisherAlone(y, u);
      var w := RouterYields(v);
      Through(x, y, v);
      Through(x, v, w);
      y := w;
    }
    var z := PublisherAlone(y, t);
    Through(x, y, z);
  }
}
