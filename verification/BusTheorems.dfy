/** What the bus promises in every run: conservation, per-topic order, loss-free shutdown and
    drop callbacks. */
module BusTheorems {
  import opened Seqs
  import opened BusProtocol
  import opened BusAccounting
  import opened BusShutdown
  import opened BusOrder
  import opened BusLateness

  ghost predicate UniqueIds(given: seq<Msg>) {
    forall i, j :: 0 <= i < j < |given| ==> given[i].id != given[j].id
  }

  ghost predicate Laws(s: State, m: Msg)
    requires Sized(s) && QueueLaw(s.main, s.log)
  {
    && GivenLaw(s.pubs, s.log, m)
    && EvictedLaw(s.pubs, s.log, m)
    && TakenLaw(s.main, s.log, m)
    && RoutedLaw(s.router, s.workers, s.queues, s.log, m)
  }

  predicate Dropped(g: Log, m: Msg) { m in g.droppedNew || m in g.droppedOld }

  /** A callback has run exactly for the dropped messages that were given with one. */
  ghost predicate CallbackInv(g: Log) {
    && NoDup(g.callbacks)
    && (forall id :: id in g.hooked ==> id in g.armed || id in g.callbacks)
    && (forall id :: id in g.armed ==> id in g.hooked && id !in g.callbacks)
    && (forall id :: id in g.callbacks ==> id in g.hooked && exists m :: Dropped(g, m) && m.id == id)
    && (forall m :: Dropped(g, m) ==> m.id !in g.armed)
    && (forall id :: id in g.hooked ==> exists i :: 0 <= i < |g.given| && g.given[i].id == id)
  }

  ghost predicate Inv(s: State) {
    && OrderInv(s)
    && ShutdownInv(s)
    && UniqueIds(s.log.given)
    && (forall m: Msg :: Laws(s, m))
    && CallbackInv(s.log)
  }

  // ---------- consequences of the counting laws ----------

  lemma {:induction false} UniqueCount(given: seq<Msg>, m: Msg)
    requires UniqueIds(given)
    ensures Count(given, m) == Ones(m in given)
  {
    if given != [] {
      UniqueCount(given[..|given| - 1], m);
      assert given == given[..|given| - 1] + [given[|given| - 1]];
    }
  }

  lemma AcceptedOnce(s: State)
    requires Inv(s)
    ensures NoDup(s.log.accepted)
  {
    forall m: Msg
      ensures Count(s.log.accepted, m) <= 1
    {
      assert Laws(s, m);
      UniqueCount(s.log.given, m);
    }
    NoDupCount(s.log.accepted);
  }

  lemma DroppedWasGiven(s: State, m: Msg)
    requires Inv(s) && Dropped(s.log, m)
    ensures m in s.log.given
  {
    assert Laws(s, m);
    var g, k := s.log, s.main.taken;
    UniqueCount(g.given, m);
    CountMember(g.droppedNew, m);
    CountMember(g.droppedOld, m);
    assert g.accepted == g.accepted[..k] + g.accepted[k..];
    CountConcat(g.accepted[..k], g.accepted[k..], m);
  }

  // ---------- one step ----------

  lemma PublisherLaws(s: State, t: nat, timedOut: bool, m: Msg)
    requires Enabled(s, Publisher(t, timedOut)) && QueueLaw(s.main, s.log) && Laws(s, m)
    ensures var s' := Apply(s, Publisher(t, timedOut)); Sized(s') && QueueLaw(s'.main, s'.log) && Laws(s', m)
  {
    hide GivenLaw, EvictedLaw, QueueLaw, TakenLaw, PubNext, PubMain, PubEvent, Count, Record;
    PubLaws(s, t, timedOut, m);
    PubMainLaw(s, s.pubs[t], timedOut, m);
    PubOldHands(s, s.pubs[t], timedOut);
    RecordCounts(s.log, PubEvent(s, s.pubs[t], timedOut), m);
  }

  lemma NotOfPublisher(pubs: seq<PubPc>, g: Log, e: Event, m: Msg)
    requires e.Nothing? || e.Route? || e.Dispatch?
    requires GivenLaw(pubs, g, m) && EvictedLaw(pubs, g, m)
    ensures GivenLaw(pubs, Record(g, e), m) && EvictedLaw(pubs, Record(g, e), m)
  {}

  lemma RouterLaws(s: State, m: Msg)
    requires Enabled(s, Router) && QueueLaw(s.main, s.log) && Laws(s, m)
    ensures var s' := Apply(s, Router); Sized(s') && QueueLaw(s'.main, s'.log) && Laws(s', m)
  {
    hide GivenLaw, EvictedLaw, TakenLaw, RoutedLaw;
    RouterMainLaw(s, m);
    RouterLaw(s, m);
    NotOfPublisher(s.pubs, s.log, RouterEvent(s), m);
  }

  lemma WorkerLaws(s: State, w: nat, m: Msg)
    requires Enabled(s, Worker(w)) && QueueLaw(s.main, s.log) && Laws(s, m)
    ensures var s' := Apply(s, Worker(w)); Sized(s') && QueueLaw(s'.main, s'.log) && Laws(s', m)
  {
    WorkerLaw(s, w, m);
    MainSame(s.main, s.main, s.log, WorkerEvent(s, w), m);
    NotOfPublisher(s.pubs, s.log, WorkerEvent(s, w), m);
  }

  lemma CallPublishLaws(s: State, a: Action, m: Msg)
    requires Enabled(s, a) && a.CallPublish? && QueueLaw(s.main, s.log) && Laws(s, m)
    ensures var s' := Apply(s, a); Sized(s') && QueueLaw(s'.main, s'.log) && Laws(s', m)
  {
    hide GivenLaw, EvictedLaw;
    CallLaws(s.pubs, s.log, a.t, a.m, a.hook, if s.policy == DropOldest then PLock(a.m) else PTry(a.m), m);
  }

  lemma LawsStep(s: State, a: Action, m: Msg)
    requires Enabled(s, a) && ShutdownInv(s) && QueueLaw(s.main, s.log) && Laws(s, m)
    ensures var s' := Apply(s, a); Sized(s') && QueueLaw(s'.main, s'.log) && Laws(s', m)
  {
    match a
    case Publisher(t, timedOut) => PublisherLaws(s, t, timedOut, m);
    case CallPublish(_, _, _) => CallPublishLaws(s, a, m);
    case Router => RouterLaws(s, m);
    case Worker(w) => WorkerLaws(s, w, m);
    case _ =>
      if a.Start? || a.WorkersJoined? { SidesEmpty(s); }
      ControlLaws(s, a, m);
  }

  lemma SidesEmpty(s: State)
    requires ShutdownInv(s) && (s.control == Stopped || Enabled(s, WorkersJoined))
    ensures RouterHand(s.router) == [] && forall w :: 0 <= w < |s.workers| ==> Side(s.workers[w], s.queues[w]) == []
  {
    forall w | 0 <= w < |s.workers|
      ensures Side(s.workers[w], s.queues[w]) == []
    {
      assert QueueOk(s.router, w, s.workers[w], s.queues[w]);
      assert s.queues[w].Values() == [];
    }
  }

  lemma ControlLaws(s: State, a: Action, m: Msg)
    requires Enabled(s, a) && (a.Start? || a.Stop? || a.RouterJoined? || a.WorkersJoined?)
    requires QueueLaw(s.main, s.log) && Laws(s, m)
    requires a.Start? || a.WorkersJoined? ==>
               RouterHand(s.router) == [] && forall w :: 0 <= w < |s.workers| ==> Side(s.workers[w], s.queues[w]) == []
    ensures var s' := Apply(s, a); Sized(s') && QueueLaw(s'.main, s'.log) && Laws(s', m)
  {
    hide PubNext, PubMain, PubEvent, RouterNext, RouterMain, RouterEvent, RouterQueues, WorkerNext, WorkerQueue, WorkerEvent,
         GivenLaw, EvictedLaw, TakenLaw, Sum;
    if a.Start? || a.WorkersJoined? {
      var s' := Apply(s, a);
      forall w | 0 <= w < |s.workers|
        ensures Side(s'.workers[w], s'.queues[w]) == []
      {
        assert s'.queues[w].Values() == [];
      }
      assert SideCounts(s'.workers, s'.queues, m) == SideCounts(s.workers, s.queues, m);
    }
  }

  lemma NotifyKeeps(g: Log, g': Log, m: Msg)
    requires CallbackInv(g) && g'.given == g.given && g'.hooked == g.hooked && g'.armed == g.armed && g'.callbacks == g.callbacks
    requires forall x :: Dropped(g', x) <==> Dropped(g, x) || x == m
    ensures CallbackInv(Notify(g', m))
  {
    var z := Notify(g', m);
    assert Dropped(z, m);
    forall id | id in z.callbacks
      ensures id in z.hooked && exists x :: Dropped(z, x) && x.id == id
    {
      if id in g.callbacks {
        var x :| Dropped(g, x) && x.id == id;
        assert Dropped(z, x);
      }
    }
  }

  lemma RecordKeepsCallbacks(g: Log, e: Event)
    requires CallbackInv(g)
    ensures CallbackInv(Record(g, e))
  {
    match e
    case DropNew(m) => NotifyKeeps(g, g.(droppedNew := g.droppedNew + [m]), m);
    case DropOld(m) => NotifyKeeps(g, g.(droppedOld := g.droppedOld + [m]), m);
    case _ =>
      var z := Record(g, e);
      forall id | id in z.callbacks
        ensures exists x :: Dropped(z, x) && x.id == id
      {
        var x :| Dropped(g, x) && x.id == id;
        assert Dropped(z, x);
      }
  }

  lemma GiveKeepsCallbacks(g: Log, m: Msg, hook: bool)
    requires CallbackInv(g)
    requires forall i :: 0 <= i < |g.given| ==> g.given[i].id != m.id
    requires forall x :: Dropped(g, x) ==> x in g.given
    ensures CallbackInv(Give(g, m, hook))
  {
    var z := Give(g, m, hook);
    forall id | id in z.callbacks
      ensures exists x :: Dropped(z, x) && x.id == id
    {
      var x :| Dropped(g, x) && x.id == id;
      assert Dropped(z, x);
    }
    forall x | Dropped(z, x)
      ensures x.id !in z.armed
    {
      assert Dropped(g, x) && x in g.given;
    }
    forall id | id in z.hooked
      ensures exists i :: 0 <= i < |z.given| && z.given[i].id == id
    {
      if id in g.hooked {
        var i :| 0 <= i < |g.given| && g.given[i].id == id;
        assert z.given[i].id == id;
      } else {
        assert z.given[|g.given|].id == id;
      }
    }
  }

  lemma CallbackStep(s: State, a: Action)
    requires Inv(s) && Enabled(s, a)
    ensures CallbackInv(Apply(s, a).log)
  {
    match a
    case Publisher(t, timedOut) => RecordKeepsCallbacks(s.log, PubEvent(s, s.pubs[t], timedOut));
    case Router => RecordKeepsCallbacks(s.log, RouterEvent(s));
    case Worker(w) => RecordKeepsCallbacks(s.log, WorkerEvent(s, w));
    case CallPublish(_, m, hook) =>
      forall x | Dropped(s.log, x)
        ensures x in s.log.given
      {
        DroppedWasGiven(s, x);
      }
      GiveKeepsCallbacks(s.log, m, hook);
    case _ =>
  }

  lemma OrderStep(s: State, a: Action)
    requires Inv(s) && Enabled(s, a)
    ensures OrderInv(Apply(s, a))
  {
    AcceptedOnce(s);
    if s.main.items != [] { assert Laws(s, s.main.items[0].value); }
    match a
    case Publisher(_, _) => PublisherOrder(s, a);
    case CallPublish(_, _, _) => PublisherOrder(s, a);
    case Router => RouterOrder(s);
    case Worker(w) => WorkersOrder(s, w);
    case _ =>
      if a.Start? || a.WorkersJoined? { SidesEmpty(s); }
      ControlOrder(s, a);
  }

  /** Each step of any thread keeps every law of the bus. */
  lemma StepInv(s: State, a: Action)
    requires Inv(s) && Enabled(s, a)
    ensures Inv(Apply(s, a))
  {
    hide Laws, CallbackInv, ShutdownInv, UniqueIds, QueueLaw, SurvivorLaw, WorkerOrder, Apply;
    OrderStep(s, a);
    ShutdownStep(s, a);
    CallbackStep(s, a);
    var s' := Apply(s, a);
    forall m: Msg
      ensures Laws(s', m)
    {
      LawsStep(s, a, m);
    }
    UniqueStep(s, a);
  }

  lemma UniqueStep(s: State, a: Action)
    requires Enabled(s, a) && UniqueIds(s.log.given)
    ensures UniqueIds(Apply(s, a).log.given)
  {
    hide PubNext, PubMain, PubEvent, RouterNext, RouterMain, RouterEvent, RouterQueues, WorkerNext, WorkerQueue, WorkerEvent;
  }

  lemma InitInv(s: State)
    requires Init(s)
    ensures Inv(s)
  {
    InitOrder(s);
    InitShutdown(s);
    hide OrderInv, ShutdownInv, Laws;
    forall m: Msg
      ensures Laws(s, m)
    {
      InitLaws(s, m);
    }
  }

  lemma NothingOnSides(s: State)
    requires Init(s)
    ensures Sized(s) && s.main.Values() == []
    ensures forall w :: 0 <= w < |s.workers| ==> s.queues[w].Values() == [] && Side(s.workers[w], s.queues[w]) == []
  {
    forall w | 0 <= w < |s.workers|
      ensures Side(s.workers[w], s.queues[w]) == []
    {
      assert s.queues[w].Values() == [];
    }
  }

  lemma InitOrder(s: State)
    requires Init(s)
    ensures OrderInv(s)
  {
    hide Side;
    NothingOnSides(s);
  }

  lemma InitShutdown(s: State)
    requires Init(s)
    ensures ShutdownInv(s)
  {
    NothingOnSides(s);
    assert forall w :: 0 <= w < |s.workers| ==> QueueOk(s.router, w, s.workers[w], s.queues[w]);
  }

  lemma InitLaws(s: State, m: Msg)
    requires Init(s) && Sized(s) && QueueLaw(s.main, s.log)
    ensures Laws(s, m)
  {
    hide Count, Side, Sum;
    NothingOnSides(s);
    CountNone(m);
    SumZero(NewCounts(s.pubs, m));
    SumZero(OldCounts(s.pubs, m));
    SumZero(SideCounts(s.workers, s.queues, m));
  }

  lemma {:induction false} RunInv(s: State, acts: seq<Action>)
    requires Inv(s) && Legal(s, acts)
    ensures Inv(Exec(s, acts))
    decreases |acts|
  {
    if acts != [] {
      StepInv(s, acts[0]);
      RunInv(Apply(s, acts[0]), acts[1..]);
    }
  }

  // ---------- conservation ----------

  /** How many places hold m: a publisher's hands, the main queue, the router's hand, a worker's
      hand or queue, or one of the four final outcomes. */
  ghost function Places(s: State, m: Msg): nat
    requires Sized(s)
  {
    Sum(NewCounts(s.pubs, m)) + Sum(OldCounts(s.pubs, m)) + Count(s.main.Values(), m)
    + Count(RouterHand(s.router), m) + Sum(SideCounts(s.workers, s.queues, m))
    + Count(s.log.dispatched, m) + Count(s.log.droppedNew, m) + Count(s.log.droppedOld, m) + Count(s.log.rejected, m)
  }

  /** In every run, under every policy, each message given to the bus is in exactly one place,
      and nothing else is anywhere. */
  lemma Conservation(s: State, acts: seq<Action>, m: Msg)
    requires Init(s) && Legal(s, acts)
    ensures Sized(Exec(s, acts)) && Places(Exec(s, acts), m) == if m in Exec(s, acts).log.given then 1 else 0
  {
    InitInv(s);
    RunInv(s, acts);
    assert Laws(Exec(s, acts), m);
    OnePlace(Exec(s, acts), m);
  }

  lemma OnePlace(z: State, m: Msg)
    requires Sized(z) && QueueLaw(z.main, z.log) && UniqueIds(z.log.given) && Laws(z, m)
    ensures Places(z, m) == if m in z.log.given then 1 else 0
  {
    UniqueCount(z.log.given, m);
    var k := z.main.taken;
    assert z.log.accepted == z.log.accepted[..k] + z.log.accepted[k..];
    CountConcat(z.log.accepted[..k], z.log.accepted[k..], m);
  }

  /** A drop callback runs at most once, and it has run exactly when its message was dropped. */
  lemma Callbacks(s: State, acts: seq<Action>)
    requires Init(s) && Legal(s, acts)
    ensures var g := Exec(s, acts).log;
            && NoDup(g.callbacks)
            && (forall m :: m in g.given && m.id in g.hooked ==> (m.id in g.callbacks <==> Dropped(g, m)))
            && (forall id :: id in g.callbacks ==> id in g.hooked)
  {
    InitInv(s);
    RunInv(s, acts);
    var z := Exec(s, acts);
    forall m | m in z.log.given && m.id in z.log.hooked
      ensures m.id in z.log.callbacks <==> Dropped(z.log, m)
    {
      if m.id in z.log.callbacks {
        var x :| Dropped(z.log, x) && x.id == m.id;
        DroppedWasGiven(z, x);
        assert x == m;
      }
    }
  }

  // ---------- order ----------

  function OfTopic(topic: nat): Msg -> bool { (m: Msg) => m.topic == topic }

  /** The accepted messages without those a DropOldest publisher evicted, in acceptance order. */
  ghost function Survivors(g: Log): seq<Msg> { Filter(g.accepted, Kept(g.evicted)) }

  lemma SurvivorsAre(s: State)
    requires Inv(s)
    ensures Survivors(s.log) == s.log.routed + s.main.Values()
  {
    var g, k := s.log, s.main.taken;
    assert g.accepted == g.accepted[..k] + g.accepted[k..];
    FilterConcat(g.accepted[..k], g.accepted[k..], Kept(g.evicted));
    AcceptedOnce(s);
    forall x | x in g.accepted[k..]
      ensures x !in g.evicted
    {
      assert Laws(s, x);
      CountMember(g.evicted, x);
      CountMember(g.accepted[..k], x);
      var j :| k <= j < |g.accepted| && g.accepted[j] == x;
    }
    FilterSame(g.accepted[k..], Kept(g.evicted), (m: Msg) => true);
    FilterAll(g.accepted[k..]);
  }

  lemma {:induction false} FilterAll(xs: seq<Msg>)
    ensures Filter(xs, (m: Msg) => true) == xs
  {
    if xs != [] {
      FilterAll(xs[..|xs| - 1]);
      assert xs == xs[..|xs| - 1] + [xs[|xs| - 1]];
    }
  }

  /** What follows the dispatched messages of a topic on their way: the hand and queue of the
      one worker that serves it, the router's hand, the main queue. */
  ghost function Pipeline(s: State, topic: nat): seq<Msg>
    requires Sized(s)
  {
    (if Single(s) then [] else
       var w := s.hash(topic) % |s.workers|;
       Side(s.workers[w], s.queues[w]))
    + RouterHand(s.router) + s.main.Values()
  }

  /** Per-topic order, for one dispatcher or N workers: what was dispatched, followed by what is
      in the pipeline, is the topic's acceptance order without the evicted messages. */
  lemma TopicOrder(s: State, acts: seq<Action>, topic: nat)
    requires Init(s) && Legal(s, acts)
    ensures var z := Exec(s, acts);
            Sized(z)
            && Filter(z.log.dispatched + Pipeline(z, topic), OfTopic(topic)) == Filter(Survivors(z.log), OfTopic(topic))
  {
    InitInv(s);
    RunInv(s, acts);
    TopicOrderInv(Exec(s, acts), topic);
  }

  lemma TopicOrderInv(z: State, topic: nat)
    requires Inv(z)
    ensures Filter(z.log.dispatched + Pipeline(z, topic), OfTopic(topic)) == Filter(Survivors(z.log), OfTopic(topic))
  {
    SurvivorsAre(z);
    if Single(z) {
      assert z.log.dispatched + Pipeline(z, topic) == z.log.routed + z.main.Values();
    } else {
      var w := z.hash(topic) % |z.workers|;
      ThroughWorker(z.log.dispatched, Side(z.workers[w], z.queues[w]), RouterHand(z.router), z.main.Values(), z.log.routed,
                    For(z.hash, |z.workers|, w), OfTopic(topic)) by {
        assert WorkerOrder(For(z.hash, |z.workers|, w), z.router, z.workers[w], z.queues[w], z.log);
      }
    }
  }

  lemma ThroughWorker(done: seq<Msg>, side: seq<Msg>, hand: seq<Msg>, main: seq<Msg>, routed: seq<Msg>,
                      keep: Msg -> bool, t: Msg -> bool)
    requires forall m :: t(m) ==> keep(m)
    requires Filter(done, keep) + side + Filter(hand, keep) == Filter(routed, keep)
    ensures Filter(done + (side + hand + main), t) == Filter(routed + main, t)
  {
    hide Filter;
    Project(done, side, hand, routed, keep, t);
    assert done + (side + hand + main) == (done + side + hand) + main;
    FilterConcat(done + side + hand, main, t);
    FilterConcat(routed, main, t);
  }

  /** Projecting a worker's order to one of its topics. */
  lemma Project(done: seq<Msg>, side: seq<Msg>, hand: seq<Msg>, routed: seq<Msg>, keep: Msg -> bool, t: Msg -> bool)
    requires forall m :: t(m) ==> keep(m)
    requires Filter(done, keep) + side + Filter(hand, keep) == Filter(routed, keep)
    ensures Filter(done + side + hand, t) == Filter(routed, t)
  {
    hide Filter;
    FilterTwice(routed, keep, t);
    FilterTwice(done, keep, t);
    FilterTwice(hand, keep, t);
    FilterConcat(Filter(done, keep) + side, Filter(hand, keep), t);
    FilterConcat(Filter(done, keep), side, t);
    FilterConcat(done + side, hand, t);
    FilterConcat(done, side, t);
  }

  // ---------- shutdown ----------

  /** In every run, whenever the router holds a message to push, the worker it goes to has not
      begun its final pass, so it will still poll its queue. */
  lemma RouterPushesToLiveWorker(s: State, acts: seq<Action>)
    requires Init(s) && Legal(s, acts) && RouterReady(Exec(s, acts)) && Exec(s, acts).router.RPush?
    ensures var z := Exec(s, acts); var pc := z.workers[WorkerOf(z, z.router.m)]; InPhase(pc, Run) || InPhase(pc, Drain)
  {
    hide CallbackInv, OrderInv, Laws, ShutdownInv;
    InitInv(s);
    RunInv(s, acts);
    PushFindsWorkerAlive(Exec(s, acts));
  }

  /** When stop() returns, no worker has anything left, whatever publishers did meanwhile. Under
      every policy, all accepted messages that were not evicted are dispatched, each topic in
      order, if and only if nothing was late: when the router left, no publisher was between its
      claim and its publication, and none has claimed since. Nothing is late when no publish
      overlapped the stop. */
  lemma ShutdownLosesNothing(s: State, acts: seq<Action>)
    requires Init(s) && Legal(s, acts) && Enabled(Exec(s, acts), WorkersJoined)
    ensures var z := Exec(s, acts);
            && Sized(z) && RouterHand(z.router) == []
            && (forall w :: 0 <= w < |z.workers| ==> Side(z.workers[w], z.queues[w]) == [])
            && ((forall m :: m in z.log.accepted && m !in z.log.evicted ==> m in z.log.dispatched) <==> !z.late)
            && (z.main.items == [] <==> !z.late)
            && (z.quiet ==> !z.late)
            && (!z.late ==> forall topic ::
                  Filter(z.log.dispatched, OfTopic(topic)) == Filter(Survivors(z.log), OfTopic(topic)))
  {
    hide CallbackInv, QueueOk, MainOk, Apply, Laws;
    InitInv(s);
    RunInv(s, acts);
    var z := Exec(s, acts);
    LateAtStop(s, acts);
    SidesEmpty(z);
    forall m
      ensures m in z.log.accepted && m !in z.log.evicted <==> m in Survivors(z.log)
      ensures m in z.log.dispatched <==> m in z.log.routed
    {
      FilterMember(z.log.accepted, Kept(z.log.evicted), m);
      EmptySidesDispatched(z, m);
    }
    SurvivorsAre(z);
    if z.main.items != [] {
      LeftInMain(z);
    } else {
      forall topic
        ensures Filter(z.log.dispatched, OfTopic(topic)) == Filter(Survivors(z.log), OfTopic(topic))
      {
        EmptySidesInOrder(z, topic);
      }
    }
  }

  lemma LateAtStop(s: State, acts: seq<Action>)
    requires Init(s) && Legal(s, acts) && Enabled(Exec(s, acts), WorkersJoined)
    ensures var z := Exec(s, acts); z.router.RExited? && (z.late <==> z.main.items != [])
  {
    hide OrderInv, CallbackInv, Laws, QueuesOk, QuietOk, Apply;
    InitInv(s);
    LateInvInit(s);
    LateRun(s, acts);
    RunInv(s, acts);
  }

  lemma EmptySidesDispatched(z: State, m: Msg)
    requires Inv(z) && RouterHand(z.router) == []
    requires forall w :: 0 <= w < |z.workers| ==> Side(z.workers[w], z.queues[w]) == []
    ensures m in z.log.dispatched <==> m in z.log.routed
  {
    hide CallbackInv, ShutdownInv;
    assert Laws(z, m);
    SumZero(SideCounts(z.workers, z.queues, m));
    CountMember(z.log.dispatched, m);
    CountMember(z.log.routed, m);
  }

  lemma EmptySidesInOrder(z: State, topic: nat)
    requires Inv(z) && z.main.items == [] && RouterHand(z.router) == []
    requires forall w :: 0 <= w < |z.workers| ==> Side(z.workers[w], z.queues[w]) == []
    ensures Filter(z.log.dispatched, OfTopic(topic)) == Filter(Survivors(z.log), OfTopic(topic))
  {
    hide CallbackInv, ShutdownInv, Laws;
    TopicOrderInv(z, topic);
    assert z.log.dispatched + Pipeline(z, topic) == z.log.dispatched;
  }

  lemma LeftInMain(z: State)
    requires Inv(z) && z.main.items != []
    ensures exists m :: m in Survivors(z.log) && m !in z.log.routed
  {
    hide CallbackInv, ShutdownInv, Laws;
    var m := z.main.Values()[0];
    SurvivorsAre(z);
    assert m in z.main.Values() && m in Survivors(z.log);
    AcceptedOnce(z);
    QueuedNotRouted(z, m);
  }

  lemma QueuedNotRouted(z: State, m: Msg)
    requires Inv(z) && m in z.main.Values() && NoDup(z.log.accepted)
    ensures m !in z.log.routed
  {
    var k := z.main.taken;
    assert Laws(z, m);
    CountMember(z.log.routed, m);
    CountMember(z.log.accepted[..k], m);
    var j :| k <= j < |z.log.accepted| && z.log.accepted[j] == m;
  }
}
