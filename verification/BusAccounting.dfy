/** Where every message is: no step loses, duplicates or invents one. The laws count one
    message m at a time. */
module BusAccounting {
  import opened FifoSpec
  import opened Seqs
  import opened BusProtocol

  function NewCounts(pubs: seq<PubPc>, m: Msg): (r: seq<nat>)
    ensures |r| == |pubs| && forall t :: 0 <= t < |pubs| ==> r[t] == Count(NewHand(pubs[t]), m)
  {
    seq(|pubs|, t requires 0 <= t < |pubs| => Count(NewHand(pubs[t]), m))
  }

  function OldCounts(pubs: seq<PubPc>, m: Msg): (r: seq<nat>)
    ensures |r| == |pubs| && forall t :: 0 <= t < |pubs| ==> r[t] == Count(OldHand(pubs[t]), m)
  {
    seq(|pubs|, t requires 0 <= t < |pubs| => Count(OldHand(pubs[t]), m))
  }

  function SideCounts(workers: seq<WorkerPc>, queues: seq<Fifo<Msg>>, m: Msg): (r: seq<nat>)
    requires |workers| == |queues|
    ensures |r| == |workers| && forall w :: 0 <= w < |workers| ==> r[w] == Count(Side(workers[w], queues[w]), m)
  {
    seq(|workers|, w requires 0 <= w < |workers| => Count(Side(workers[w], queues[w]), m))
  }

  /** A given message is with its publisher, accepted, rejected or dropped as the newest. */
  ghost predicate GivenLaw(pubs: seq<PubPc>, g: Log, m: Msg) {
    Count(g.given, m) ==
    Sum(NewCounts(pubs, m)) + Count(g.accepted, m) + Count(g.rejected, m) + Count(g.droppedNew, m)
  }

  /** An evicted message is in the hand of the publisher that took it, or dropped as the oldest. */
  ghost predicate EvictedLaw(pubs: seq<PubPc>, g: Log, m: Msg) {
    Count(g.evicted, m) == Sum(OldCounts(pubs, m)) + Count(g.droppedOld, m)
  }

  /** The accepted messages still queued are the tail of the acceptance order. */
  ghost predicate QueueLaw(main: Fifo<Msg>, g: Log) {
    main.taken <= |g.accepted| && main.Values() == g.accepted[main.taken..]
  }

  /** An accepted message that left the main queue went to the router or was evicted. */
  ghost predicate TakenLaw(main: Fifo<Msg>, g: Log, m: Msg)
    requires QueueLaw(main, g)
  {
    Count(g.accepted[..main.taken], m) == Count(g.routed, m) + Count(g.evicted, m)
  }

  /** A routed message is in the router's hand, on a worker's side, or dispatched. */
  ghost predicate RoutedLaw(router: RouterPc, workers: seq<WorkerPc>, queues: seq<Fifo<Msg>>, g: Log, m: Msg)
    requires |workers| == |queues|
  {
    Count(g.routed, m) == Count(RouterHand(router), m) + Sum(SideCounts(workers, queues, m)) + Count(g.dispatched, m)
  }

  // ---------- events ----------

  function Ones(b: bool): nat { if b then 1 else 0 }

  lemma RecordCounts(g: Log, e: Event, m: Msg)
    ensures var g' := Record(g, e);
            && g'.given == g.given
            && Count(g'.accepted, m) == Count(g.accepted, m) + Ones(e == Accept(m))
            && Count(g'.rejected, m) == Count(g.rejected, m) + Ones(e == Reject(m))
            && Count(g'.droppedNew, m) == Count(g.droppedNew, m) + Ones(e == DropNew(m))
            && Count(g'.evicted, m) == Count(g.evicted, m) + Ones(e == Evict(m))
            && Count(g'.droppedOld, m) == Count(g.droppedOld, m) + Ones(e == DropOld(m))
            && Count(g'.routed, m) == Count(g.routed, m) + Ones(e == Route(m))
            && Count(g'.dispatched, m) == Count(g.dispatched, m) + Ones(e == Dispatch(m))
  {
    hide Count;
    match e
    case Nothing =>
    case Accept(x) => CountPush(g.accepted, x, m);
    case Reject(x) => CountPush(g.rejected, x, m);
    case DropNew(x) => CountPush(g.droppedNew, x, m);
    case Evict(x) => CountPush(g.evicted, x, m);
    case DropOld(x) => CountPush(g.droppedOld, x, m);
    case Route(x) => CountPush(g.routed, x, m);
    case Dispatch(x) => CountPush(g.dispatched, x, m);
  }

  lemma CountNone(m: Msg)
    ensures Count([], m) == 0
  {}

  lemma CountOne(x: Msg, m: Msg)
    ensures Count([x], m) == Ones(x == m)
  {
    CountPush([], x, m);
  }

  // ---------- publishers ----------

  lemma PubAt(pubs: seq<PubPc>, t: nat, pc: PubPc, m: Msg)
    requires t < |pubs|
    ensures Sum(NewCounts(pubs[t := pc], m)) + Count(NewHand(pubs[t]), m) == Sum(NewCounts(pubs, m)) + Count(NewHand(pc), m)
    ensures Sum(OldCounts(pubs[t := pc], m)) + Count(OldHand(pubs[t]), m) == Sum(OldCounts(pubs, m)) + Count(OldHand(pc), m)
  {
    SumUpdate(NewCounts(pubs, m), t, Count(NewHand(pc), m));
    assert NewCounts(pubs[t := pc], m) == NewCounts(pubs, m)[t := Count(NewHand(pc), m)];
    SumUpdate(OldCounts(pubs, m), t, Count(OldHand(pc), m));
    assert OldCounts(pubs[t := pc], m) == OldCounts(pubs, m)[t := Count(OldHand(pc), m)];
  }

  /** What leaves a publisher's hands is what the event says. */
  lemma PubHands(s: State, pc: PubPc, timedOut: bool)
    ensures var pc', e := PubNext(s, pc, timedOut), PubEvent(s, pc, timedOut);
            NewHand(pc) == if e.Accept? || e.Reject? || e.DropNew? then [e.m] + NewHand(pc') else NewHand(pc')
    ensures var e := PubEvent(s, pc, timedOut); (e.Accept? || e.Reject? || e.DropNew?) ==> NewHand(PubNext(s, pc, timedOut)) == []
  {}

  lemma PubOldHands(s: State, pc: PubPc, timedOut: bool)
    ensures var pc', e := PubNext(s, pc, timedOut), PubEvent(s, pc, timedOut);
            if e.Evict? then OldHand(pc) == [] && OldHand(pc') == [e.m]
            else if e.DropOld? then OldHand(pc) == [e.m] && OldHand(pc') == []
            else OldHand(pc') == OldHand(pc)
    ensures var e := PubEvent(s, pc, timedOut); !e.Route? && !e.Dispatch?
  {}

  lemma PubLaws(s: State, t: nat, timedOut: bool, m: Msg)
    requires t < |s.pubs| && GivenLaw(s.pubs, s.log, m) && EvictedLaw(s.pubs, s.log, m)
    ensures var pc := s.pubs[t];
            var pubs', g' := s.pubs[t := PubNext(s, pc, timedOut)], Record(s.log, PubEvent(s, pc, timedOut));
            GivenLaw(pubs', g', m) && EvictedLaw(pubs', g', m)
  {
    var pc, pc', e := s.pubs[t], PubNext(s, s.pubs[t], timedOut), PubEvent(s, s.pubs[t], timedOut);
    RecordCounts(s.log, e, m);
    PubHands(s, pc, timedOut);
    PubOldHands(s, pc, timedOut);
    PubAt(s.pubs, t, pc', m);
    CountNone(m);
    if !e.Nothing? { CountOne(e.m, m); assert [e.m] + [] == [e.m]; }
  }

  lemma CallLaws(pubs: seq<PubPc>, g: Log, t: nat, x: Msg, hook: bool, pc: PubPc, m: Msg)
    requires t < |pubs| && GivenLaw(pubs, g, m) && EvictedLaw(pubs, g, m)
    requires pubs[t].PIdle? && (pc == PLock(x) || pc == PTry(x))
    ensures GivenLaw(pubs[t := pc], Give(g, x, hook), m) && EvictedLaw(pubs[t := pc], Give(g, x, hook), m)
  {
    PubAt(pubs, t, pc, m);
    CountPush(g.given, x, m);
    CountNone(m);
    CountOne(x, m);
  }

  // ---------- the main queue ----------

  lemma MainEnter(main: Fifo<Msg>, g: Log, x: Msg, m: Msg)
    requires QueueLaw(main, g) && TakenLaw(main, g, m)
    ensures QueueLaw(main.Claim(x), Record(g, Accept(x))) && TakenLaw(main.Claim(x), Record(g, Accept(x)), m)
  {
    var xs := g.accepted + [x];
    assert xs[..main.taken] == g.accepted[..main.taken];
    assert main.Claim(x).Values() == main.Values() + [x];
    assert xs[main.taken..] == g.accepted[main.taken..] + [x];
  }

  lemma MainLeave(main: Fifo<Msg>, g: Log, e: Event, m: Msg)
    requires QueueLaw(main, g) && TakenLaw(main, g, m) && main.items != []
    requires e == Evict(main.items[0].value) || e == Route(main.items[0].value)
    ensures main.taken < |g.accepted| && g.accepted[main.taken] == e.m
    ensures QueueLaw(main.Take(), Record(g, e)) && TakenLaw(main.Take(), Record(g, e), m)
  {
    var k, x := main.taken, main.items[0].value;
    assert main.Values()[0] == x;
    assert main.Values() == [x] + main.Take().Values();
    assert g.accepted[..k + 1] == g.accepted[..k] + [x];
    assert main.Take().Values() == g.accepted[k..][1..] == g.accepted[k + 1..];
    CountPush(g.accepted[..k], x, m);
    RecordCounts(g, e, m);
  }

  lemma MainSame(main: Fifo<Msg>, main': Fifo<Msg>, g: Log, e: Event, m: Msg)
    requires QueueLaw(main, g) && TakenLaw(main, g, m) && main'.taken == main.taken && main'.Values() == main.Values()
    requires !e.Accept? && !e.Route? && !e.Evict?
    ensures QueueLaw(main', Record(g, e)) && TakenLaw(main', Record(g, e), m)
  {}

  lemma SameValues(f: Fifo<Msg>, pos: nat)
    ensures f.Publish(pos).Values() == f.Values() && f.Release(pos).Values() == f.Values()
  {}

  lemma PubMainSame(s: State, pc: PubPc, timedOut: bool)
    requires var e := PubEvent(s, pc, timedOut); !e.Accept? && !e.Evict?
    ensures PubMain(s, pc).taken == s.main.taken && PubMain(s, pc).Values() == s.main.Values()
  {
    if pc.PPublish? || pc.PRelease? { SameValues(s.main, pc.pos); }
  }

  lemma PubMainMoves(s: State, pc: PubPc, timedOut: bool)
    ensures var e := PubEvent(s, pc, timedOut);
            && !e.Route?
            && (e.Accept? ==> PubMain(s, pc) == s.main.Claim(e.m))
            && (e.Evict? ==> s.main.items != [] && e.m == s.main.items[0].value && PubMain(s, pc) == s.main.Take())
  {}

  lemma PubMainLaw(s: State, pc: PubPc, timedOut: bool, m: Msg)
    requires QueueLaw(s.main, s.log) && TakenLaw(s.main, s.log, m)
    ensures var g' := Record(s.log, PubEvent(s, pc, timedOut)); QueueLaw(PubMain(s, pc), g') && TakenLaw(PubMain(s, pc), g', m)
  {
    var e := PubEvent(s, pc, timedOut);
    PubMainMoves(s, pc, timedOut);
    if e.Accept? {
      MainEnter(s.main, s.log, e.m, m);
    } else if e.Evict? {
      MainLeave(s.main, s.log, e, m);
    } else {
      PubMainSame(s, pc, timedOut);
      MainSame(s.main, PubMain(s, pc), s.log, e, m);
    }
  }

  lemma RouterMainLaw(s: State, m: Msg)
    requires QueueLaw(s.main, s.log) && TakenLaw(s.main, s.log, m)
    ensures var g' := Record(s.log, RouterEvent(s)); QueueLaw(RouterMain(s), g') && TakenLaw(RouterMain(s), g', m)
  {
    if RouterEvent(s).Route? {
      MainLeave(s.main, s.log, RouterEvent(s), m);
    } else {
      if s.router.RTaken? { SameValues(s.main, s.router.pos); }
      MainSame(s.main, RouterMain(s), s.log, RouterEvent(s), m);
    }
  }

  // ---------- router and workers ----------

  lemma SideAt(workers: seq<WorkerPc>, queues: seq<Fifo<Msg>>, w: nat, pc: WorkerPc, q: Fifo<Msg>, m: Msg)
    requires |workers| == |queues| && w < |workers|
    ensures Sum(SideCounts(workers[w := pc], queues[w := q], m)) + Count(Side(workers[w], queues[w]), m)
            == Sum(SideCounts(workers, queues, m)) + Count(Side(pc, q), m)
  {
    SumUpdate(SideCounts(workers, queues, m), w, Count(Side(pc, q), m));
    assert SideCounts(workers[w := pc], queues[w := q], m) == SideCounts(workers, queues, m)[w := Count(Side(pc, q), m)];
  }

  function Out(e: Event): seq<Msg> { if e.Dispatch? then [e.m] else [] }

  /** A worker's own step keeps its side, until it dispatches the head of it. */
  lemma WorkerSide(s: State, w: nat)
    requires Sized(s) && w < |s.workers|
    ensures Side(s.workers[w], s.queues[w]) == Out(WorkerEvent(s, w)) + Side(WorkerNext(s, w), WorkerQueue(s, w))
  {
    var q, q' := s.queues[w], WorkerQueue(s, w);
    if s.workers[w].WPoll? && q.CanTake() {
      assert q.Values() == [q.items[0].value] + q'.Values();
    } else {
      if s.workers[w].WTaken? { SameValues(q, s.workers[w].pos); }
      assert q'.Values() == q.Values();
    }
  }

  lemma WorkerLaw(s: State, w: nat, m: Msg)
    requires Sized(s) && w < |s.workers| && RoutedLaw(s.router, s.workers, s.queues, s.log, m)
    ensures RoutedLaw(s.router, s.workers[w := WorkerNext(s, w)], s.queues[w := WorkerQueue(s, w)],
                      Record(s.log, WorkerEvent(s, w)), m)
  {
    var pc', q', e := WorkerNext(s, w), WorkerQueue(s, w), WorkerEvent(s, w);
    RecordCounts(s.log, e, m);
    WorkerSide(s, w);
    SideAt(s.workers, s.queues, w, pc', q', m);
    CountConcat(Out(e), Side(pc', q'), m);
    if e.Dispatch? { CountOne(e.m, m); }
  }

  /** What the router gives out in a step: to a worker queue, or dispatched. */
  function RouterOut(s: State): seq<Msg>
    requires RouterReady(s)
  {
    if Pushes(s) || s.router.RDispatch? then [s.router.m] else []
  }

  function RouterIn(s: State): seq<Msg> { if RouterEvent(s).Route? then [RouterEvent(s).m] else [] }

  lemma RouterHands(s: State)
    requires RouterReady(s)
    ensures RouterHand(s.router) + RouterIn(s) == RouterOut(s) + RouterHand(RouterNext(s))
  {}

  lemma SideAppend(pc: WorkerPc, q: Fifo<Msg>, q': Fifo<Msg>, more: seq<Msg>, m: Msg)
    requires q'.Values() == q.Values() + more
    ensures Side(pc, q') == Side(pc, q) + more && Count(Side(pc, q'), m) == Count(Side(pc, q), m) + Count(more, m)
  {
    assert Side(pc, q') == Side(pc, q) + more;
    CountConcat(Side(pc, q), more, m);
  }

  lemma QueueTouched(workers: seq<WorkerPc>, queues: seq<Fifo<Msg>>, w: nat, q: Fifo<Msg>, more: seq<Msg>, m: Msg)
    requires |workers| == |queues| && w < |workers| && q.Values() == queues[w].Values() + more
    ensures Sum(SideCounts(workers, queues[w := q], m)) == Sum(SideCounts(workers, queues, m)) + Count(more, m)
  {
    SideAppend(workers[w], queues[w], q, more, m);
    var ns := SideCounts(workers, queues, m);
    SumUpdate(ns, w, Count(Side(workers[w], q), m));
    assert SideCounts(workers, queues[w := q], m) == ns[w := Count(Side(workers[w], q), m)];
  }

  lemma RouterQueueCounts(s: State, m: Msg)
    requires RouterReady(s)
    ensures Sum(SideCounts(s.workers, RouterQueues(s), m))
            == Sum(SideCounts(s.workers, s.queues, m)) + (if Pushes(s) then Ones(s.router.m == m) else 0)
  {
    if Pushes(s) {
      var w := WorkerOf(s, s.router.m);
      assert s.queues[w].Claim(s.router.m).Values() == s.queues[w].Values() + [s.router.m];
      QueueTouched(s.workers, s.queues, w, s.queues[w].Claim(s.router.m), [s.router.m], m);
      CountOne(s.router.m, m);
    } else if s.router.RPublish? {
      var w := s.router.w;
      SameValues(s.queues[w], s.router.pos);
      assert s.queues[w].Values() + [] == s.queues[w].Values();
      QueueTouched(s.workers, s.queues, w, s.queues[w].Publish(s.router.pos), [], m);
      CountNone(m);
    }
  }

  lemma RouterLaw(s: State, m: Msg)
    requires RouterReady(s) && RoutedLaw(s.router, s.workers, s.queues, s.log, m)
    ensures RoutedLaw(RouterNext(s), s.workers, RouterQueues(s), Record(s.log, RouterEvent(s)), m)
  {
    RecordCounts(s.log, RouterEvent(s), m);
    RouterQueueCounts(s, m);
    RouterHands(s);
    CountConcat(RouterHand(s.router), RouterIn(s), m);
    CountConcat(RouterOut(s), RouterHand(RouterNext(s)), m);
    CountNone(m);
    if RouterEvent(s).Route? { CountOne(RouterEvent(s).m, m); }
    if RouterOut(s) != [] { CountOne(s.router.m, m); }
  }
}
