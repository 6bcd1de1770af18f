/** A publish that overlaps a stop can be accepted and left behind, under every policy and with any
    number of workers. */
module BusLatePublish {
  import opened FifoSpec
  import opened BusProtocol
  import opened BusRuns

  /** Stopped at once, the router finds nothing and leaves; the workers have not moved yet. */
  ghost predicate RouterGone(s: State) {
    && Sized(s) && s.capacity >= 2 && !s.running && !s.drained && !s.quiet && s.control == JoiningRouter
    && s.router == RExited && s.main == NewFifo() && s.lock == []
    && s.pubs != [] && s.pubs[0] == PIdle
    && s.log == Log([], [], [], [], [], [], [], [], {}, {}, [])
    && forall w :: 0 <= w < |s.workers| ==> s.workers[w] == WCheck(Run) && s.queues[w] == NewFifo()
  }

  lemma RouterLeaves(s: State) returns (z: State)
    requires Init(s) && s.pubs != []
    ensures Reaches(s, z) && RouterGone(z) && |z.workers| == |s.workers| && z.policy == s.policy
  {
    hide PubNext, PubMain, PubEvent, WorkerNext, WorkerQueue, WorkerEvent, Give, Claiming, Reaches;
    ReachesItself(s);
    AndThen(s, s, Start);
    var w := Apply(s, Start);
    AndThen(s, w, Stop(false));
    var x := Apply(w, Stop(false));
    AndThen(s, x, Router);
    var y := Apply(x, Router);
    AndThen(s, y, Router);
    z := Apply(y, Router);
  }

  /** A publisher that has got through: its message is in the queue, and it has reported success. */
  ghost predicate Accepted(s: State, m: Msg) {
    && s.pubs != [] && s.pubs[0] == PReturn(true)
    && s.main.Values() == [m] && s.log.accepted == [m] && s.log.evicted == [] && s.log.dispatched == []
  }

  /** One step of publisher 0, which is all that changes. */
  lemma PublisherMoves(s: State, y: State) returns (z: State)
    requires Reaches(s, y) && Sized(y) && y.pubs != [] && !y.pubs[0].PIdle? && (y.pubs[0].PLock? ==> y.lock == [])
    ensures z == Apply(y, Publisher(0, false)) && Reaches(s, z)
    ensures z.pubs == y.pubs[0 := PubNext(y, y.pubs[0], false)] && z.main == PubMain(y, y.pubs[0])
    ensures z.log == Record(y.log, PubEvent(y, y.pubs[0], false))
  {
    hide PubNext, PubMain, PubEvent, Record, Reaches;
    AndThen(s, y, Publisher(0, false));
    z := Apply(y, Publisher(0, false));
  }

  lemma Publishes(s: State, y: State, m: Msg) returns (z: State)
    requires Reaches(s, y) && RouterGone(y)
    ensures Reaches(s, z) && Accepted(z, m) && |z.workers| == |y.workers| && z.policy == y.policy
    ensures Sized(z) && !z.running && !z.drained && z.control == JoiningRouter && z.router == RExited
    ensures z.workers == y.workers && z.queues == y.queues
  {
    hide RouterNext, RouterMain, RouterEvent, RouterQueues, WorkerNext, WorkerQueue, WorkerEvent, Claiming, Notify, Reaches;
    AndThen(s, y, CallPublish(0, m, false));
    var v := Apply(y, CallPublish(0, m, false));
    if v.pubs[0].PLock? {
      v := PublisherMoves(s, v);
    }
    assert v.pubs[0] == PTry(m) && v.main == NewFifo() && v.main.CanClaim(v.capacity);
    var w := PublisherMoves(s, v);
    assert w.main == NewFifo().Claim(m) && w.pubs[0] == PPublish(0) && w.log.accepted == [m];
    z := PublisherMoves(s, w);
  }

  // ---------- the workers leave ----------

  /** The first n workers have left, the others have not moved. */
  ghost predicate Leaving(s: State, n: nat) {
    && Sized(s) && n <= |s.workers| && !s.running && s.control == JoiningWorkers && s.router == RExited
    && (!Single(s) ==> s.drained)
    && (forall w :: 0 <= w < |s.workers| ==> s.workers[w] == (if w < n then WExited else WCheck(Run)) && s.queues[w] == NewFifo())
  }

  /** One step of a worker that has nothing to do. */
  lemma WorkerMoves(s: State, y: State, w: nat) returns (z: State)
    requires Reaches(s, y) && Sized(y) && w < |y.workers| && !y.running && y.drained && y.queues[w] == NewFifo()
    requires y.workers[w] == WCheck(Run) || y.workers[w] == WCheck(Drain) || y.workers[w] == WPoll(Final)
    ensures Reaches(s, z) && z.workers == y.workers[w := WorkerNext(y, w)] && z.queues == y.queues
    ensures z.pubs == y.pubs && z.main == y.main && z.log == y.log && z.running == y.running && z.drained == y.drained
    ensures z.control == y.control && z.router == y.router && z.late == y.late
    ensures WorkerNext(y, w) == if y.workers[w] == WCheck(Run) then WCheck(Drain)
                                else if y.workers[w] == WCheck(Drain) then WPoll(Final) else WExited
  {
    hide Reaches, RouterNext, RouterMain, RouterQueues, RouterEvent, PubNext, PubMain, PubEvent;
    AndThen(s, y, Worker(w));
    z := Apply(y, Worker(w));
    assert z.queues == y.queues[w := y.queues[w]] == y.queues;
  }

  lemma {:induction false} WorkersLeave(s: State, y: State, n: nat) returns (z: State)
    requires Reaches(s, y) && Leaving(y, n)
    ensures Reaches(s, z) && Leaving(z, |z.workers|) && |z.workers| == |y.workers|
    ensures z.pubs == y.pubs && z.main == y.main && z.log == y.log && z.late == y.late
    decreases |y.workers| - n
  {
    hide Reaches, WorkerNext;
    if n == |y.workers| {
      z := y;
    } else {
      var a := WorkerMoves(s, y, n);
      var b := WorkerMoves(s, a, n);
      var c := WorkerMoves(s, b, n);
      z := WorkersLeave(s, c, n + 1);
    }
  }

  lemma Joined(s: State, y: State) returns (z: State)
    requires Reaches(s, y) && Sized(y) && !y.running && !y.drained && y.control == JoiningRouter && y.router == RExited
    requires forall w :: 0 <= w < |y.workers| ==> y.workers[w] == WCheck(Run) && y.queues[w] == NewFifo()
    ensures Reaches(s, z) && Leaving(z, 0) && |z.workers| == |y.workers|
    ensures z.pubs == y.pubs && z.main == y.main && z.log == y.log
  {
    hide Reaches;
    AndThen(s, y, RouterJoined);
    z := Apply(y, RouterJoined);
  }

  /** Under every policy, with any number of workers and publishers, some run ends with stop about
      to return, a publish that has reported success, and its message neither dispatched nor
      dropped but still in the queue. */
  lemma LatePublishIsLeftBehind(s: State, m: Msg)
    requires Init(s) && s.pubs != []
    ensures exists acts :: Legal(s, acts) && LeftBehind(Exec(s, acts), m)
  {
    hide Init;
    var x := RouterLeaves(s);
    var y := Publishes(s, x, m);
    var v := Joined(s, y);
    var z := WorkersLeave(s, v, 0);
    assert LeftBehind(z, m);
  }

  ghost predicate LeftBehind(z: State, m: Msg) {
    && Enabled(z, WorkersJoined) && Accepted(z, m)
    && m in z.log.accepted && m !in z.log.evicted && m !in z.log.dispatched && m in z.main.Values()
  }
}
