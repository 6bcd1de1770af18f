/** Order: what each worker dispatches, holds and has queued is what was routed to it, in
    order; what was routed is the acceptance order without the evicted messages. */
module BusOrder {
  import opened FifoSpec
  import opened Seqs
  import opened BusProtocol
  import opened BusAccounting

  /** The messages that hash to worker w of n. */
  function For(hash: nat -> nat, n: nat, w: nat): Msg -> bool
    requires n > 0
  {
    (m: Msg) => hash(m.topic) % n == w
  }

  function Kept(evicted: seq<Msg>): Msg -> bool { m => m !in evicted }

  /** The router took the accepted messages in order, except those that were evicted. */
  ghost predicate SurvivorLaw(main: Fifo<Msg>, g: Log)
    requires QueueLaw(main, g)
  {
    Filter(g.accepted[..main.taken], Kept(g.evicted)) == g.routed
  }

  ghost predicate WorkerOrder(keep: Msg -> bool, router: RouterPc, pc: WorkerPc, q: Fifo<Msg>, g: Log) {
    Filter(g.dispatched, keep) + Side(pc, q) + Filter(RouterHand(router), keep) == Filter(g.routed, keep)
  }

  ghost predicate OrderInv(s: State) {
    && Sized(s)
    && QueueLaw(s.main, s.log)
    && SurvivorLaw(s.main, s.log)
    && (Single(s) ==> s.log.routed == s.log.dispatched + RouterHand(s.router))
    && (!Single(s) ==> !s.router.RDispatch?)
    && forall w :: 0 <= w < |s.workers| ==>
         WorkerOrder(For(s.hash, |s.workers|, w), s.router, s.workers[w], s.queues[w], s.log)
  }

  // ---------- survivors ----------

  lemma EnterSurvivors(main: Fifo<Msg>, g: Log, x: Msg)
    requires QueueLaw(main, g) && SurvivorLaw(main, g)
    ensures QueueLaw(main.Claim(x), Record(g, Accept(x))) && SurvivorLaw(main.Claim(x), Record(g, Accept(x)))
  {
    MainEnterQueue(main, g, x);
    assert (g.accepted + [x])[..main.taken] == g.accepted[..main.taken];
  }

  lemma MainEnterQueue(main: Fifo<Msg>, g: Log, x: Msg)
    requires QueueLaw(main, g)
    ensures QueueLaw(main.Claim(x), Record(g, Accept(x)))
  {
    assert main.Claim(x).Values() == main.Values() + [x];
    assert (g.accepted + [x])[main.taken..] == g.accepted[main.taken..] + [x];
  }

  lemma HeadIsNext(main: Fifo<Msg>, g: Log)
    requires QueueLaw(main, g) && main.items != []
    ensures main.taken < |g.accepted| && g.accepted[main.taken] == main.items[0].value
    ensures g.accepted[..main.taken + 1] == g.accepted[..main.taken] + [main.items[0].value]
    ensures main.Take().Values() == g.accepted[main.taken + 1..]
  {
    assert main.Values()[0] == main.items[0].value;
    assert main.Values() == [main.items[0].value] + main.Take().Values();
    assert main.Take().Values() == g.accepted[main.taken..][1..];
  }

  /** A message taken by the router was not evicted, as accepted messages are distinct. */
  lemma RouteSurvivors(main: Fifo<Msg>, g: Log)
    requires QueueLaw(main, g) && SurvivorLaw(main, g) && main.items != []
    requires main.items[0].value !in g.evicted
    ensures var g' := Record(g, Route(main.items[0].value)); QueueLaw(main.Take(), g') && SurvivorLaw(main.Take(), g')
  {
    HeadIsNext(main, g);
    FilterPush(g.accepted[..main.taken], main.items[0].value, Kept(g.evicted));
  }

  lemma EvictSurvivors(main: Fifo<Msg>, g: Log)
    requires QueueLaw(main, g) && SurvivorLaw(main, g) && main.items != []
    requires main.items[0].value !in g.accepted[..main.taken]
    ensures var g' := Record(g, Evict(main.items[0].value)); QueueLaw(main.Take(), g') && SurvivorLaw(main.Take(), g')
  {
    var x, pre := main.items[0].value, g.accepted[..main.taken];
    HeadIsNext(main, g);
    FilterPush(pre, x, Kept(g.evicted + [x]));
    FilterSame(pre, Kept(g.evicted), Kept(g.evicted + [x]));
  }

  lemma StaySurvivors(main: Fifo<Msg>, main': Fifo<Msg>, g: Log, e: Event)
    requires QueueLaw(main, g) && SurvivorLaw(main, g) && main'.taken == main.taken && main'.Values() == main.Values()
    requires !e.Accept? && !e.Route? && !e.Evict?
    ensures QueueLaw(main', Record(g, e)) && SurvivorLaw(main', Record(g, e))
  {}

  /** The head of the queue is neither evicted yet nor among those that left before. */
  lemma HeadIsNew(main: Fifo<Msg>, g: Log)
    requires QueueLaw(main, g) && main.items != [] && NoDup(g.accepted)
    requires TakenLaw(main, g, main.items[0].value)
    ensures main.items[0].value !in g.evicted && main.items[0].value !in g.accepted[..main.taken]
  {
    var x := main.items[0].value;
    HeadIsNext(main, g);
    CountMember(g.accepted[..main.taken], x);
    CountMember(g.evicted, x);
  }

  lemma PubSurvivors(s: State, pc: PubPc, timedOut: bool)
    requires QueueLaw(s.main, s.log) && SurvivorLaw(s.main, s.log) && NoDup(s.log.accepted)
    requires s.main.items != [] ==> TakenLaw(s.main, s.log, s.main.items[0].value)
    ensures var g' := Record(s.log, PubEvent(s, pc, timedOut)); QueueLaw(PubMain(s, pc), g') && SurvivorLaw(PubMain(s, pc), g')
  {
    var e := PubEvent(s, pc, timedOut);
    PubMainMoves(s, pc, timedOut);
    if e.Accept? {
      EnterSurvivors(s.main, s.log, e.m);
    } else if e.Evict? {
      HeadIsNew(s.main, s.log);
      EvictSurvivors(s.main, s.log);
    } else {
      PubMainSame(s, pc, timedOut);
      StaySurvivors(s.main, PubMain(s, pc), s.log, e);
    }
  }

  lemma RouterSurvivors(s: State)
    requires QueueLaw(s.main, s.log) && SurvivorLaw(s.main, s.log) && NoDup(s.log.accepted)
    requires s.main.items != [] ==> TakenLaw(s.main, s.log, s.main.items[0].value)
    ensures var g' := Record(s.log, RouterEvent(s)); QueueLaw(RouterMain(s), g') && SurvivorLaw(RouterMain(s), g')
  {
    if RouterEvent(s).Route? {
      HeadIsNew(s.main, s.log);
      RouteSurvivors(s.main, s.log);
    } else {
      if s.router.RTaken? { SameValues(s.main, s.router.pos); }
      StaySurvivors(s.main, RouterMain(s), s.log, RouterEvent(s));
    }
  }

  // ---------- worker order ----------

  lemma FilterOne(x: Msg, keep: Msg -> bool)
    ensures Filter([x], keep) == if keep(x) then [x] else []
  {
    FilterPush([], x, keep);
    assert [] + [x] == [x];
  }

  /** A routed message goes into the router's empty hand. */
  lemma RouteOrder(done: seq<Msg>, side: seq<Msg>, routed: seq<Msg>, m: Msg, keep: Msg -> bool)
    requires Filter(done, keep) + side + Filter([], keep) == Filter(routed, keep)
    ensures Filter(done, keep) + side + Filter([m], keep) == Filter(routed + [m], keep)
  {
    FilterPush(routed, m, keep);
    FilterOne(m, keep);
    assert Filter(done, keep) + side + [] == Filter(done, keep) + side;
    assert Filter(routed, keep) + [] == Filter(routed, keep);
  }

  lemma RouterKeepsWorker(s: State, w: nat)
    requires RouterReady(s) && w < |s.workers| && !s.router.RDispatch?
    requires WorkerOrder(For(s.hash, |s.workers|, w), s.router, s.workers[w], s.queues[w], s.log)
    ensures WorkerOrder(For(s.hash, |s.workers|, w), RouterNext(s), s.workers[w], RouterQueues(s)[w],
                        Record(s.log, RouterEvent(s)))
  {
    hide Filter;
    var keep := For(s.hash, |s.workers|, w);
    var g, pc, q := s.log, s.workers[w], s.queues[w];
    if RouterEvent(s).Route? {
      RouteOrder(g.dispatched, Side(pc, q), g.routed, RouterEvent(s).m, keep);
    } else if Pushes(s) {
      PushOrder(s, w);
    } else if s.router.RPublish? {
      SameValues(q, s.router.pos);
    }
  }

  lemma FilterNothing(keep: Msg -> bool)
    ensures Filter([], keep) == []
  {}

  /** A message pushed from the router's hand goes to the end of the worker's side. */
  lemma ClaimOrder(done: seq<Msg>, pc: WorkerPc, q: Fifo<Msg>, m: Msg)
    ensures done + Side(pc, q.Claim(m)) + [] == done + Side(pc, q) + [m]
  {
    assert q.Claim(m).Values() == q.Values() + [m];
    assert Side(pc, q.Claim(m)) == Side(pc, q) + [m];
  }

  lemma PushOrder(s: State, w: nat)
    requires RouterReady(s) && w < |s.workers| && Pushes(s)
    requires WorkerOrder(For(s.hash, |s.workers|, w), s.router, s.workers[w], s.queues[w], s.log)
    ensures WorkerOrder(For(s.hash, |s.workers|, w), RouterNext(s), s.workers[w], RouterQueues(s)[w], s.log)
  {
    hide Filter, Fifo.Values;
    var keep, m := For(s.hash, |s.workers|, w), s.router.m;
    FilterOne(m, keep);
    FilterNothing(keep);
    if w == WorkerOf(s, m) {
      ClaimOrder(Filter(s.log.dispatched, keep), s.workers[w], s.queues[w], m);
    }
  }

  /** The head of a worker's side joins what it has dispatched. */
  lemma DispatchHead(done: seq<Msg>, m: Msg, side: seq<Msg>, hand: seq<Msg>, routed: seq<Msg>, keep: Msg -> bool)
    requires Filter(done, keep) + ([m] + side) + hand == Filter(routed, keep)
    ensures keep(m) && Filter(done + [m], keep) + side + hand == Filter(routed, keep)
  {
    var all := Filter(done, keep) + ([m] + side) + hand;
    assert all[|Filter(done, keep)|] == m && m in all;
    FilterMember(routed, keep, m);
    FilterPush(done, m, keep);
    assert all == (Filter(done, keep) + [m]) + side + hand;
  }

  lemma OwnWorkerOrder(s: State, w: nat)
    requires Sized(s) && w < |s.workers|
    requires WorkerOrder(For(s.hash, |s.workers|, w), s.router, s.workers[w], s.queues[w], s.log)
    ensures WorkerOrder(For(s.hash, |s.workers|, w), s.router, WorkerNext(s, w), WorkerQueue(s, w),
                        Record(s.log, WorkerEvent(s, w)))
    ensures WorkerEvent(s, w).Dispatch? ==> For(s.hash, |s.workers|, w)(WorkerEvent(s, w).m)
  {
    var keep, side' := For(s.hash, |s.workers|, w), Side(WorkerNext(s, w), WorkerQueue(s, w));
    WorkerSide(s, w);
    if WorkerEvent(s, w).Dispatch? {
      DispatchHead(s.log.dispatched, WorkerEvent(s, w).m, side', Filter(RouterHand(s.router), keep), s.log.routed, keep);
    } else {
      assert [] + side' == side';
    }
  }

  /** What worker w dispatches is nothing to worker v. */
  lemma OtherWorkerOrder(s: State, w: nat, v: nat)
    requires Sized(s) && w < |s.workers| && v < |s.workers| && v != w
    requires WorkerOrder(For(s.hash, |s.workers|, v), s.router, s.workers[v], s.queues[v], s.log)
    requires WorkerEvent(s, w).Dispatch? ==> For(s.hash, |s.workers|, w)(WorkerEvent(s, w).m)
    ensures WorkerOrder(For(s.hash, |s.workers|, v), s.router, s.workers[v], s.queues[v], Record(s.log, WorkerEvent(s, w)))
  {
    hide Filter, WorkerNext, WorkerQueue, Side;
    var e := WorkerEvent(s, w);
    if e.Dispatch? {
      FilterPush(s.log.dispatched, e.m, For(s.hash, |s.workers|, v));
    } else {
      assert e == Nothing;
    }
  }

  // ---------- one step ----------

  lemma PublisherOrder(s: State, a: Action)
    requires Enabled(s, a) && (a.Publisher? || a.CallPublish?) && OrderInv(s) && NoDup(s.log.accepted)
    requires s.main.items != [] ==> TakenLaw(s.main, s.log, s.main.items[0].value)
    ensures OrderInv(Apply(s, a))
  {
    if a.Publisher? {
      PubSurvivors(s, s.pubs[a.t], a.timedOut);
      PubOldHands(s, s.pubs[a.t], a.timedOut);
    }
    var g' := Apply(s, a).log;
    assert g'.routed == s.log.routed && g'.dispatched == s.log.dispatched;
    forall w | 0 <= w < |s.workers|
      ensures WorkerOrder(For(s.hash, |s.workers|, w), s.router, s.workers[w], s.queues[w], g')
    {
      assert WorkerOrder(For(s.hash, |s.workers|, w), s.router, s.workers[w], s.queues[w], s.log);
    }
  }

  lemma RouterOrder(s: State)
    requires Enabled(s, Router) && OrderInv(s) && NoDup(s.log.accepted)
    requires s.main.items != [] ==> TakenLaw(s.main, s.log, s.main.items[0].value)
    ensures OrderInv(Apply(s, Router))
  {
    RouterSurvivors(s);
    forall w | 0 <= w < |s.workers|
      ensures WorkerOrder(For(s.hash, |s.workers|, w), RouterNext(s), s.workers[w], RouterQueues(s)[w],
                          Record(s.log, RouterEvent(s)))
    {
      RouterKeepsWorker(s, w);
    }
    if Single(s) { RouterSingle(s); }
  }

  lemma RouterSingle(s: State)
    requires RouterReady(s) && Single(s) && s.log.routed == s.log.dispatched + RouterHand(s.router)
    ensures var g' := Record(s.log, RouterEvent(s)); g'.routed == g'.dispatched + RouterHand(RouterNext(s))
  {
    if RouterEvent(s).Route? { assert s.log.dispatched + [] == s.log.dispatched; }
    if RouterEvent(s).Dispatch? { assert s.log.dispatched + [s.router.m] + [] == s.log.dispatched + [s.router.m]; }
  }

  lemma WorkersOrder(s: State, w: nat)
    requires Enabled(s, Worker(w)) && OrderInv(s)
    ensures OrderInv(Apply(s, Worker(w)))
  {
    var s' := Apply(s, Worker(w));
    OwnWorkerOrder(s, w);
    forall v | 0 <= v < |s.workers|
      ensures WorkerOrder(For(s.hash, |s.workers|, v), s.router, s'.workers[v], s'.queues[v], s'.log)
    {
      if v != w { OtherWorkerOrder(s, w, v); }
    }
  }

  lemma ControlOrder(s: State, a: Action)
    requires Enabled(s, a) && OrderInv(s) && (a.Start? || a.Stop? || a.RouterJoined? || a.WorkersJoined?)
    requires a.Start? || a.WorkersJoined? ==>
               RouterHand(s.router) == [] && forall w :: 0 <= w < |s.workers| ==> Side(s.workers[w], s.queues[w]) == []
    ensures OrderInv(Apply(s, a))
  {
    var s' := Apply(s, a);
    forall w | 0 <= w < |s.workers|
      ensures WorkerOrder(For(s.hash, |s.workers|, w), s'.router, s'.workers[w], s'.queues[w], s.log)
    {
      assert WorkerOrder(For(s.hash, |s.workers|, w), s.router, s.workers[w], s.queues[w], s.log);
      if a.Start? || a.WorkersJoined? { assert Side(s'.workers[w], s'.queues[w]) == []; }
    }
  }
}
