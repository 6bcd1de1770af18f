/** The start and stop handshake: which loop every thread may be in, and why no queue is left
    with a message nobody will fetch. */
module BusShutdown {
  import opened FifoSpec
  import opened BusProtocol

  predicate InPhase(pc: WorkerPc, phase: Phase) {
    match pc
    case WOff => false
    case WExited => false
    case WCheck(p) => p == phase
    case WPoll(p) => p == phase
    case WTaken(_, _, p) => p == phase
    case WDispatch(_, p) => p == phase
  }

  predicate RouterUp(pc: RouterPc) {
    match pc
    case ROff => false
    case RExited => false
    case RCheck => true
    case RPoll(drain) => !drain
    case RTaken(_, _, drain) => !drain
    case RPush(_, drain) => !drain
    case RPublish(_, _, drain) => !drain
    case RDispatch(_, drain) => !drain
  }

  /** Which loop the router and a worker can be in, for each stage of the controlling thread. */
  ghost predicate StageOk(s: State) {
    match s.control
    case Stopped => !s.running && !s.drained && s.router == ROff && forall w :: 0 <= w < |s.workers| ==> s.workers[w] == WOff
    case Up => s.running && !s.drained && RouterUp(s.router) && forall w :: 0 <= w < |s.workers| ==> InPhase(s.workers[w], Run)
    case JoiningRouter =>
      && !s.running && !s.drained && s.router != ROff
      && forall w :: 0 <= w < |s.workers| ==> InPhase(s.workers[w], Run) || InPhase(s.workers[w], Drain)
    case JoiningWorkers =>
      && !s.running && s.drained == !Single(s) && s.router == RExited
      && forall w :: 0 <= w < |s.workers| ==> s.workers[w] != WOff
  }

  /** A worker queue holds an unpublished item only while the router is publishing it, and a
      worker that has left has left its queue empty. */
  ghost predicate QueueOk(router: RouterPc, w: nat, pc: WorkerPc, q: Fifo<Msg>) {
    && (forall i :: 0 <= i < |q.items| && !q.items[i].ready ==> router.RPublish? && router.w == w && router.pos == q.taken + i)
    && (pc.WOff? || pc.WExited? ==> q.items == [])
  }

  ghost predicate QueuesOk(s: State) {
    Sized(s) && forall w :: 0 <= w < |s.workers| ==> QueueOk(s.router, w, s.workers[w], s.queues[w])
  }

  ghost predicate Publishing(pubs: seq<PubPc>, pos: nat) {
    exists t :: 0 <= t < |pubs| && pubs[t] == PPublish(pos)
  }

  /** The main queue holds an unpublished item only while a publisher is publishing it. */
  ghost predicate MainOk(main: Fifo<Msg>, pubs: seq<PubPc>) {
    forall i :: 0 <= i < |main.items| && !main.items[i].ready ==> Publishing(pubs, main.taken + i)
  }

  ghost predicate QuietOk(s: State) {
    s.quiet ==>
      && (s.control == JoiningRouter || s.control == JoiningWorkers)
      && (forall t :: 0 <= t < |s.pubs| ==> s.pubs[t] == PIdle)
      && (s.router == RExited ==> s.main.items == [])
  }

  ghost predicate ShutdownInv(s: State) {
    StageOk(s) && QueuesOk(s) && MainOk(s.main, s.pubs) && QuietOk(s)
  }

  // ---------- publishers ----------

  lemma PubKeepsMain(s: State, t: nat, timedOut: bool)
    requires t < |s.pubs| && MainOk(s.main, s.pubs)
    ensures MainOk(PubMain(s, s.pubs[t]), s.pubs[t := PubNext(s, s.pubs[t], timedOut)])
  {
    var pc := s.pubs[t];
    var main', pubs' := PubMain(s, pc), s.pubs[t := PubNext(s, pc, timedOut)];
    forall i | 0 <= i < |main'.items| && !main'.items[i].ready
      ensures Publishing(pubs', main'.taken + i)
    {
      if i == |main'.items| - 1 && main' == s.main.Claim(if pc.PTry? || pc.PRetry? then pc.m else main'.items[i].value)
         && (pc.PTry? || pc.PRetry?) && s.main.CanClaim(s.capacity) {
        assert pubs'[t] == PPublish(s.main.Tail());
      } else {
        var j := main'.taken + i - s.main.taken;
        assert !s.main.items[j].ready;
        var u :| 0 <= u < |s.pubs| && s.pubs[u] == PPublish(s.main.taken + j);
        assert u != t && pubs'[u] == s.pubs[u];
      }
    }
  }

  lemma CallKeepsMain(main: Fifo<Msg>, pubs: seq<PubPc>, t: nat, pc: PubPc)
    requires MainOk(main, pubs) && t < |pubs| && pubs[t] == PIdle
    ensures MainOk(main, pubs[t := pc])
  {
    forall i | 0 <= i < |main.items| && !main.items[i].ready
      ensures Publishing(pubs[t := pc], main.taken + i)
    {
      var u :| 0 <= u < |pubs| && pubs[u] == PPublish(main.taken + i);
      assert pubs[t := pc][u] == pubs[u];
    }
  }

  lemma PublisherStep(s: State, a: Action)
    requires Enabled(s, a) && ShutdownInv(s) && (a.Publisher? || a.CallPublish?)
    ensures ShutdownInv(Apply(s, a))
  {
    if a.Publisher? {
      PubKeepsMain(s, a.t, a.timedOut);
    } else {
      CallKeepsMain(s.main, s.pubs, a.t, if s.policy == DropOldest then PLock(a.m) else PTry(a.m));
    }
    assert !s.quiet;
  }

  // ---------- the router ----------

  lemma RouterStage(s: State)
    requires Enabled(s, Router) && StageOk(s)
    ensures StageOk(Apply(s, Router))
  {}

  lemma RouterKeepsMain(s: State)
    requires Enabled(s, Router) && MainOk(s.main, s.pubs)
    ensures MainOk(RouterMain(s), s.pubs)
  {
    forall i | 0 <= i < |RouterMain(s).items| && !RouterMain(s).items[i].ready
      ensures Publishing(s.pubs, RouterMain(s).taken + i)
    {
      var j := RouterMain(s).taken + i - s.main.taken;
      assert !s.main.items[j].ready;
    }
  }

  lemma RouterKeepsQueue(s: State, w: nat)
    requires Enabled(s, Router) && StageOk(s) && QueuesOk(s) && w < |s.workers|
    ensures QueueOk(RouterNext(s), w, s.workers[w], RouterQueues(s)[w])
  {
    assert QueueOk(s.router, w, s.workers[w], s.queues[w]);
    if Pushes(s) {
      assert InPhase(s.workers[w], Run) || InPhase(s.workers[w], Drain);
    }
  }

  lemma RouterQuiet(s: State)
    requires Enabled(s, Router) && QuietOk(s) && MainOk(s.main, s.pubs)
    ensures QuietOk(Apply(s, Router))
  {
    assert s.quiet ==> s.main.items == [] || s.main.items[0].ready || Publishing(s.pubs, s.main.taken + 0);
  }

  lemma RouterKeeps(s: State)
    requires Enabled(s, Router) && ShutdownInv(s)
    ensures ShutdownInv(Apply(s, Router))
  {
    RouterStage(s);
    RouterKeepsMain(s);
    RouterQuiet(s);
    forall w | 0 <= w < |s.workers|
      ensures QueueOk(RouterNext(s), w, s.workers[w], RouterQueues(s)[w])
    {
      RouterKeepsQueue(s, w);
    }
  }

  // ---------- workers ----------

  lemma WorkerStage(s: State, w: nat)
    requires Enabled(s, Worker(w)) && StageOk(s)
    ensures StageOk(Apply(s, Worker(w)))
  {
    assert s.control == Up ==> InPhase(s.workers[w], Run);
    assert s.control == JoiningRouter ==> InPhase(s.workers[w], Run) || InPhase(s.workers[w], Drain);
  }

  lemma WorkerKeepsQueue(s: State, w: nat)
    requires Enabled(s, Worker(w)) && StageOk(s) && QueuesOk(s)
    ensures QueueOk(s.router, w, WorkerNext(s, w), WorkerQueue(s, w))
  {
    var q := s.queues[w];
    assert QueueOk(s.router, w, s.workers[w], q);
    if s.workers[w] == WPoll(Final) && !q.CanTake() {
      assert s.router == RExited;
    }
    if s.workers[w].WPoll? && q.CanTake() {
      assert forall i :: 0 <= i < |q.Take().items| ==> q.Take().items[i] == q.items[i + 1];
    }
  }

  lemma WorkerKeeps(s: State, w: nat)
    requires Enabled(s, Worker(w)) && ShutdownInv(s)
    ensures ShutdownInv(Apply(s, Worker(w)))
  {
    WorkerStage(s, w);
    WorkerKeepsQueue(s, w);
  }

  // ---------- start and stop ----------

  lemma ControlKeeps(s: State, a: Action)
    requires Enabled(s, a) && ShutdownInv(s) && (a.Start? || a.Stop? || a.RouterJoined? || a.WorkersJoined?)
    ensures ShutdownInv(Apply(s, a))
  {
    assert forall w :: 0 <= w < |s.workers| ==> QueueOk(s.router, w, s.workers[w], s.queues[w]);
  }

  lemma ShutdownStep(s: State, a: Action)
    requires Enabled(s, a) && ShutdownInv(s)
    ensures ShutdownInv(Apply(s, a))
  {
    match a
    case Router => RouterKeeps(s);
    case Worker(w) => WorkerKeeps(s, w);
    case Publisher(_, _) => PublisherStep(s, a);
    case CallPublish(_, _, _) => PublisherStep(s, a);
    case _ => ControlKeeps(s, a);
  }

  /** The router never pushes to a worker that has left its drain loop. */
  lemma PushFindsWorkerAlive(s: State)
    requires ShutdownInv(s) && RouterReady(s) && s.router.RPush?
    ensures var pc := s.workers[WorkerOf(s, s.router.m)]; InPhase(pc, Run) || InPhase(pc, Drain)
  {
    assert s.control == Up || s.control == JoiningRouter;
  }
}
