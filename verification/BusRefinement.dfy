/** Seen through one topic, the routed bus with N workers is a bus with one queue and one
    dispatcher. */
module BusRefinement {
  import opened FifoSpec
  import opened Seqs
  import opened BusProtocol
  import opened BusAccounting
  import opened BusShutdown
  import opened BusOrder
  import opened BusTheorems

  /** done: dispatched so far, in order. waiting: accepted, to be dispatched from the front. */
  datatype TopicBus = TopicBus(done: seq<Msg>, waiting: seq<Msg>)

  ghost function View(s: State, topic: nat): TopicBus
    requires Sized(s)
  {
    TopicBus(Filter(s.log.dispatched, OfTopic(topic)), Filter(Pipeline(s, topic), OfTopic(topic)))
  }

  function EventOf(s: State, a: Action): Event
    requires Enabled(s, a)
  {
    match a
    case Publisher(t, timedOut) => PubEvent(s, s.pubs[t], timedOut)
    case Router => RouterEvent(s)
    case Worker(w) => WorkerEvent(s, w)
    case _ => Nothing
  }

  /** x is one element of xs, and ys is xs without it. */
  ghost predicate Without(xs: seq<Msg>, x: Msg, ys: seq<Msg>) {
    exists i :: 0 <= i < |xs| && xs[i] == x && ys == xs[..i] + xs[i + 1..]
  }

  /** The single queue: accept at the back, dispatch from the front, evict anywhere, and react
      to nothing else. */
  ghost predicate Next(b: TopicBus, b': TopicBus, e: Event, topic: nat) {
    if e.Accept? && e.m.topic == topic then b' == TopicBus(b.done, b.waiting + [e.m])
    else if e.Dispatch? && e.m.topic == topic then b.waiting == [e.m] + b'.waiting && b'.done == b.done + [e.m]
    else if e.Evict? && e.m.topic == topic then b'.done == b.done && Without(b.waiting, e.m, b'.waiting)
    else b' == b
  }

  lemma ViewSplits(s: State, topic: nat)
    requires Inv(s)
    ensures View(s, topic).done + View(s, topic).waiting == Filter(s.log.routed + s.main.Values(), OfTopic(topic))
    ensures View(s, topic).done <= Filter(s.log.routed, OfTopic(topic))
  {
    TopicOrderInv(s, topic);
    SurvivorsAre(s);
    FilterConcat(s.log.dispatched, Pipeline(s, topic), OfTopic(topic));
    var t := OfTopic(topic);
    if Single(s) {
      FilterConcat(s.log.dispatched, RouterHand(s.router), t);
    } else {
      var w := s.hash(topic) % |s.workers|;
      var side, hand := Side(s.workers[w], s.queues[w]), RouterHand(s.router);
      Project(s.log.dispatched, side, hand, s.log.routed, For(s.hash, |s.workers|, w), t) by {
        assert WorkerOrder(For(s.hash, |s.workers|, w), s.router, s.workers[w], s.queues[w], s.log);
      }
      FilterConcat(s.log.dispatched + side, hand, t);
      FilterConcat(s.log.dispatched, side, t);
    }
  }

  /** What a step does to routed ++ main queue, and to the dispatched log. */
  lemma Flow(s: State, a: Action)
    requires Inv(s) && Enabled(s, a)
    ensures var s', e := Apply(s, a), EventOf(s, a);
            && s'.log.dispatched == (if e.Dispatch? then s.log.dispatched + [e.m] else s.log.dispatched)
            && (e.Accept? ==> s'.log.routed + s'.main.Values() == (s.log.routed + s.main.Values()) + [e.m])
            && (e.Evict? ==> s'.log.routed == s.log.routed && s.main.Values() == [e.m] + s'.main.Values())
            && (!e.Accept? && !e.Evict? ==> s'.log.routed + s'.main.Values() == s.log.routed + s.main.Values())
  {
    hide ShutdownInv, CallbackInv, Laws;
    var s' := Apply(s, a);
    match a
    case Publisher(t, timedOut) => PublisherFlow(s, t, timedOut);
    case Router =>
      if RouterEvent(s).Route? {
        assert s.main.Values() == [RouterEvent(s).m] + s'.main.Values();
      } else if s.router.RTaken? {
        SameValues(s.main, s.router.pos);
      }
    case _ =>
  }

  lemma PubRecords(s: State, pc: PubPc, timedOut: bool)
    ensures var e := PubEvent(s, pc, timedOut); var g := Record(s.log, e);
            g.dispatched == s.log.dispatched && g.routed == s.log.routed && !e.Dispatch?
  {
    hide PubEvent, PubNext;
    PubOldHands(s, pc, timedOut);
  }

  lemma PublisherFlow(s: State, t: nat, timedOut: bool)
    requires Enabled(s, Publisher(t, timedOut))
    ensures var s', e := Apply(s, Publisher(t, timedOut)), PubEvent(s, s.pubs[t], timedOut);
            && s'.log.dispatched == s.log.dispatched && s'.log.routed == s.log.routed && !e.Dispatch?
            && (if e.Accept? then s'.main.Values() == s.main.Values() + [e.m]
                else if e.Evict? then s.main.Values() == [e.m] + s'.main.Values()
                else s'.main.Values() == s.main.Values())
  {
    hide PubNext, PubMain, PubEvent, Fifo.Values, Record, WorkerOf;
    var pc, e := s.pubs[t], PubEvent(s, s.pubs[t], timedOut);
    PubRecords(s, pc, timedOut);
    PubMainMoves(s, pc, timedOut);
    if e.Accept? {
      ClaimValues(s.main, e.m);
    } else if e.Evict? {
      TakeValues(s.main);
    } else {
      PubMainSame(s, pc, timedOut);
    }
  }

  lemma ClaimValues(f: Fifo<Msg>, m: Msg)
    ensures f.Claim(m).Values() == f.Values() + [m]
  {
    assert f.Claim(m).Values() == f.Values() + [m];
  }

  lemma TakeValues(f: Fifo<Msg>)
    requires f.items != []
    ensures f.Values() == [f.items[0].value] + f.Take().Values()
  {
    assert f.Values() == [f.items[0].value] + f.Take().Values();
  }

  /** Every step of the bus, seen through any topic, is a step of the single-queue bus. */
  lemma StepRefinesSingleQueue(s: State, a: Action, topic: nat)
    requires Inv(s) && Enabled(s, a)
    ensures Inv(Apply(s, a)) && Next(View(s, topic), View(Apply(s, a), topic), EventOf(s, a), topic)
  {
    var s' := Apply(s, a);
    StepInv(s, a);
    ViewSplits(s, topic);
    ViewSplits(s', topic);
    Flow(s, a);
    Seen(View(s, topic), View(s', topic), EventOf(s, a), topic, s.log.dispatched, s.log.routed, s.main.Values(),
         s'.log.dispatched, s'.log.routed, s'.main.Values());
  }

  lemma Seen(v: TopicBus, v': TopicBus, e: Event, topic: nat, dispatched: seq<Msg>, routed: seq<Msg>, main: seq<Msg>,
             dispatched': seq<Msg>, routed': seq<Msg>, main': seq<Msg>)
    requires v.done == Filter(dispatched, OfTopic(topic)) <= Filter(routed, OfTopic(topic))
    requires v'.done == Filter(dispatched', OfTopic(topic))
    requires v.done + v.waiting == Filter(routed + main, OfTopic(topic))
    requires v'.done + v'.waiting == Filter(routed' + main', OfTopic(topic))
    requires dispatched' == if e.Dispatch? then dispatched + [e.m] else dispatched
    requires e.Accept? ==> routed' + main' == (routed + main) + [e.m]
    requires e.Evict? ==> routed' == routed && main == [e.m] + main'
    requires !e.Accept? && !e.Evict? ==> routed' + main' == routed + main
    ensures Next(v, v', e, topic)
  {
    if e.Accept? {
      FlowAccept(v, v', e.m, topic, dispatched, routed + main, routed' + main');
    } else if e.Dispatch? {
      FlowDispatch(v, v', e.m, topic, dispatched, routed + main);
    } else if e.Evict? {
      FlowEvict(v, v', e.m, topic, dispatched, routed, main');
    } else {
      assert (v.done + v.waiting) + [] == v.done + v.waiting;
      AppendBack(v.done, v.waiting, v'.waiting, []);
    }
  }

  lemma FlowAccept(v: TopicBus, v': TopicBus, m: Msg, topic: nat, dispatched: seq<Msg>, all: seq<Msg>, all': seq<Msg>)
    requires v.done == v'.done == Filter(dispatched, OfTopic(topic)) && all' == all + [m]
    requires v.done + v.waiting == Filter(all, OfTopic(topic)) && v'.done + v'.waiting == Filter(all', OfTopic(topic))
    ensures Next(v, v', Accept(m), topic)
  {
    FilterPush(all, m, OfTopic(topic));
    AppendBack(v.done, v.waiting, v'.waiting, if m.topic == topic then [m] else []);
  }

  lemma FlowDispatch(v: TopicBus, v': TopicBus, m: Msg, topic: nat, dispatched: seq<Msg>, all: seq<Msg>)
    requires v.done == Filter(dispatched, OfTopic(topic)) && v'.done == Filter(dispatched + [m], OfTopic(topic))
    requires v.done + v.waiting == Filter(all, OfTopic(topic)) == v'.done + v'.waiting
    ensures Next(v, v', Dispatch(m), topic)
  {
    FilterPush(dispatched, m, OfTopic(topic));
    MoveFront(v.done, v.waiting, if m.topic == topic then [m] else [], v'.waiting);
  }

  lemma FlowEvict(v: TopicBus, v': TopicBus, m: Msg, topic: nat, dispatched: seq<Msg>, routed: seq<Msg>, rest: seq<Msg>)
    requires v.done == v'.done <= Filter(routed, OfTopic(topic))
    requires v.done + v.waiting == Filter(routed + ([m] + rest), OfTopic(topic))
    requires v'.done + v'.waiting == Filter(routed + rest, OfTopic(topic))
    ensures Next(v, v', Evict(m), topic)
  {
    var t := OfTopic(topic);
    FilterConcat(routed, [m] + rest, t);
    FilterConcat([m], rest, t);
    FilterConcat(routed, rest, t);
    FilterOne(m, t);
    CutMiddle(v.done, v.waiting, v'.waiting, Filter(routed, t), Filter([m], t), Filter(rest, t));
  }

  lemma AppendBack(done: seq<Msg>, w: seq<Msg>, w': seq<Msg>, more: seq<Msg>)
    requires done + w' == (done + w) + more
    ensures w' == w + more
  {
    assert w' == (done + w')[|done|..] == ((done + w) + more)[|done|..] == w + more;
  }

  lemma MoveFront(done: seq<Msg>, w: seq<Msg>, one: seq<Msg>, w': seq<Msg>)
    requires done + w == (done + one) + w'
    ensures w == one + w'
  {
    assert w == (done + w)[|done|..] == ((done + one) + w')[|done|..] == one + w';
  }

  lemma CutMiddle(done: seq<Msg>, w: seq<Msg>, w': seq<Msg>, before: seq<Msg>, one: seq<Msg>, after: seq<Msg>)
    requires done <= before && |one| <= 1
    requires done + w == before + (one + after) && done + w' == before + after
    ensures if one == [] then w' == w else Without(w, one[0], w')
  {
    var i := |before| - |done|;
    assert w == (done + w)[|done|..] == before[|done|..] + one + after;
    assert w' == (done + w')[|done|..] == before[|done|..] + after;
    if one != [] {
      assert w[i] == one[0] && w' == w[..i] + w[i + 1..];
    }
  }
}
