/** What a stop can leave behind in the main queue: exactly when it leaves something. */
module BusLateness {
  import opened FifoSpec
  import opened BusProtocol
  import opened BusShutdown

  /** Only DropOldest publishers take from the queue. */
  predicate Takes(pc: PubPc) { pc.PMakeRoom? || pc.PRelease? || pc.PNotifyOld? }

  /** Past publish_mutex_, under DropOldest. */
  predicate Inside(pc: PubPc) { !pc.PIdle? && !pc.PLock? }

  ghost predicate PolicyOk(policy: FullPolicy, lock: seq<nat>, pubs: seq<PubPc>) {
    forall t :: 0 <= t < |pubs| ==>
      && (policy != DropOldest ==> !Takes(pubs[t]))
      && (policy == DropOldest && Inside(pubs[t]) ==> lock == [t])
  }

  /** A claim that is not published yet is in the queue, unready, and nobody else's. */
  ghost predicate ClaimOk(main: Fifo<Msg>, pubs: seq<PubPc>) {
    && (forall t :: 0 <= t < |pubs| && pubs[t].PPublish? ==>
          main.taken <= pubs[t].pos < main.Tail() && !main.items[pubs[t].pos - main.taken].ready)
    && (forall t, u :: 0 <= t < |pubs| && 0 <= u < |pubs| && t != u && pubs[t].PPublish? && pubs[u].PPublish? ==>
          pubs[t].pos != pubs[u].pos)
  }

  /** A cell that is being handed back is in some hand. */
  ghost predicate ReleaseOk(main: Fifo<Msg>, pubs: seq<PubPc>, router: RouterPc) {
    forall p :: p in main.releasing ==> (router.RTaken? && router.pos == p) || Handing(pubs, p)
  }

  ghost predicate Handing(pubs: seq<PubPc>, p: nat) {
    exists t :: 0 <= t < |pubs| && pubs[t].PRelease? && pubs[t].pos == p
  }

  /** With the router gone, a publisher that makes room never takes the only message. */
  ghost predicate RoomOk(s: State) {
    s.router.RExited? ==> forall t :: 0 <= t < |s.pubs| && s.pubs[t].PMakeRoom? ==> |s.main.items| != 1
  }

  /** With the router gone, something is in the queue exactly if something was late. */
  ghost predicate LateOk(s: State) { s.router.RExited? ==> (s.late <==> s.main.items != []) }

  ghost predicate LateInv(s: State) {
    && s.capacity >= 2
    && PolicyOk(s.policy, s.lock, s.pubs)
    && ClaimOk(s.main, s.pubs)
    && ReleaseOk(s.main, s.pubs, s.router)
    && RoomOk(s)
    && LateOk(s)
  }

  lemma PolicyStep(s: State, a: Action)
    requires PolicyOk(s.policy, s.lock, s.pubs) && Enabled(s, a)
    ensures var z := Apply(s, a); PolicyOk(z.policy, z.lock, z.pubs)
  {
    hide RouterNext, RouterMain, RouterEvent, RouterQueues, WorkerNext, WorkerEvent, WorkerQueue, Record, Give, PubEvent, PubMain, Claiming;
  }

  lemma ClaimStep(s: State, a: Action)
    requires ClaimOk(s.main, s.pubs) && Enabled(s, a)
    ensures var z := Apply(s, a); ClaimOk(z.main, z.pubs)
  {
    hide ClaimOk, RouterNext, RouterEvent, RouterQueues, WorkerNext, WorkerEvent, WorkerQueue, Record, Give, PubEvent, Claiming;
    match a
    case Publisher(t, timedOut) => PublisherClaim(s, t, timedOut);
    case Router => RouterClaim(s);
    case CallPublish(t, m, hook) => SameClaim(s.main, s.pubs, t, if s.policy == DropOldest then PLock(m) else PTry(m));
    case _ =>
  }

  lemma SameClaim(main: Fifo<Msg>, pubs: seq<PubPc>, t: nat, pc: PubPc)
    requires ClaimOk(main, pubs) && t < |pubs| && !pc.PPublish?
    ensures ClaimOk(main, pubs[t := pc])
  {}

  lemma RouterClaim(s: State)
    requires ClaimOk(s.main, s.pubs) && RouterReady(s)
    ensures ClaimOk(RouterMain(s), s.pubs)
  {}

  lemma PublisherClaim(s: State, t: nat, timedOut: bool)
    requires ClaimOk(s.main, s.pubs) && t < |s.pubs|
    ensures ClaimOk(PubMain(s, s.pubs[t]), s.pubs[t := PubNext(s, s.pubs[t], timedOut)])
  {
    var pc := s.pubs[t];
    if (pc.PTry? || pc.PRetry?) && s.main.CanClaim(s.capacity) {
      OneMoreClaim(s.main, s.pubs, t, pc.m);
    } else if pc.PPublish? {
      Published(s.main, s.pubs, t);
    } else {
      FewerItems(s.main, PubMain(s, pc), s.pubs);
      SameClaim(PubMain(s, pc), s.pubs, t, PubNext(s, pc, timedOut));
    }
  }

  lemma OneMoreClaim(main: Fifo<Msg>, pubs: seq<PubPc>, t: nat, m: Msg)
    requires ClaimOk(main, pubs) && t < |pubs|
    ensures ClaimOk(main.Claim(m), pubs[t := PPublish(main.Tail())])
  {}

  lemma Published(main: Fifo<Msg>, pubs: seq<PubPc>, t: nat)
    requires ClaimOk(main, pubs) && t < |pubs| && pubs[t].PPublish?
    ensures ClaimOk(main.Publish(pubs[t].pos), pubs[t := PReturn(true)])
  {}

  lemma FewerItems(main: Fifo<Msg>, main': Fifo<Msg>, pubs: seq<PubPc>)
    requires ClaimOk(main, pubs)
    requires (main'.items == main.items && main'.taken == main.taken) || (main.CanTake() && main' == main.Take())
    ensures ClaimOk(main', pubs)
  {}

  lemma ReleaseStep(s: State, a: Action)
    requires ReleaseOk(s.main, s.pubs, s.router) && StageOk(s) && Enabled(s, a)
    ensures var z := Apply(s, a); ReleaseOk(z.main, z.pubs, z.router)
  {
    hide ReleaseOk, RouterNext, RouterEvent, RouterQueues, WorkerNext, WorkerEvent, WorkerQueue, Record, Give, PubEvent, Claiming;
    match a
    case Publisher(t, timedOut) => PublisherRelease(s, t, timedOut);
    case Router => RouterRelease(s);
    case CallPublish(t, m, hook) => SameRelease(s.main, s.pubs, s.router, t, if s.policy == DropOldest then PLock(m) else PTry(m));
    case _ => RouterIdle(s.main, s.pubs, s.router, Apply(s, a).router);
  }

  lemma SameRelease(main: Fifo<Msg>, pubs: seq<PubPc>, router: RouterPc, t: nat, pc: PubPc)
    requires ReleaseOk(main, pubs, router) && t < |pubs| && !pubs[t].PRelease?
    ensures ReleaseOk(main, pubs[t := pc], router)
  {
    forall p | p in main.releasing && !(router.RTaken? && router.pos == p)
      ensures Handing(pubs[t := pc], p)
    {
      var u: nat :| u < |pubs| && pubs[u].PRelease? && pubs[u].pos == p;
      assert pubs[t := pc][u] == pubs[u];
    }
  }

  lemma RouterIdle(main: Fifo<Msg>, pubs: seq<PubPc>, router: RouterPc, router': RouterPc)
    requires ReleaseOk(main, pubs, router) && (!router.RTaken? || router' == router)
    ensures ReleaseOk(main, pubs, router')
  {}

  lemma RouterRelease(s: State)
    requires ReleaseOk(s.main, s.pubs, s.router) && RouterReady(s)
    ensures ReleaseOk(RouterMain(s), s.pubs, RouterNext(s))
  {}

  lemma PublisherRelease(s: State, t: nat, timedOut: bool)
    requires ReleaseOk(s.main, s.pubs, s.router) && t < |s.pubs|
    ensures ReleaseOk(PubMain(s, s.pubs[t]), s.pubs[t := PubNext(s, s.pubs[t], timedOut)], s.router)
  {
    var pc := s.pubs[t];
    var main', pubs' := PubMain(s, pc), s.pubs[t := PubNext(s, pc, timedOut)];
    forall p | p in main'.releasing && !(s.router.RTaken? && s.router.pos == p)
      ensures Handing(pubs', p)
    {
      if p in s.main.releasing {
        var u: nat :| u < |s.pubs| && s.pubs[u].PRelease? && s.pubs[u].pos == p;
        assert pubs'[u] == s.pubs[u];
      } else {
        assert pubs'[t].PRelease? && pubs'[t].pos == p;
      }
    }
  }

  // ---------- with the router gone ----------

  /** When the router leaves, the queue is empty unless a publisher is claiming. */
  lemma ExitLeaves(s: State)
    requires ClaimOk(s.main, s.pubs) && MainOk(s.main, s.pubs) && !s.main.CanTake()
    ensures s.main.items != [] <==> Claiming(s.pubs)
  {
    if s.main.items != [] {
      assert Publishing(s.pubs, s.main.taken + 0);
    }
  }

  /** A DropOldest publisher past the lock is alone there. */
  lemma Alone(s: State, t: nat, u: nat)
    requires PolicyOk(s.policy, s.lock, s.pubs) && s.policy == DropOldest
    requires t < |s.pubs| && u < |s.pubs| && Inside(s.pubs[t]) && Inside(s.pubs[u])
    ensures t == u
  {}

  /** With the router gone, a full queue is full of messages. */
  lemma FullOfItems(s: State, t: nat)
    requires LateInv(s) && s.router.RExited? && s.policy == DropOldest && t < |s.pubs| && s.pubs[t].PTry?
    requires !s.main.CanClaim(s.capacity)
    ensures |s.main.items| >= s.capacity
  {
    if |s.main.items| < s.capacity {
      var u: nat :| u < |s.pubs| && s.pubs[u].PRelease? && s.pubs[u].pos == s.main.Tail() - s.capacity;
      Alone(s, t, u);
    }
  }

  lemma RoomStep(s: State, a: Action)
    requires LateInv(s) && MainOk(s.main, s.pubs) && StageOk(s) && Enabled(s, a)
    ensures RoomOk(Apply(s, a))
  {
    hide ReleaseOk, ClaimOk, LateOk, RouterEvent, RouterQueues, WorkerNext, WorkerEvent, WorkerQueue, Record, Give, PubEvent, Claiming;
    var z := Apply(s, a);
    if z.router.RExited? {
      forall u | 0 <= u < |z.pubs| && z.pubs[u].PMakeRoom?
        ensures |z.main.items| != 1
      {
        match a
        case Publisher(t, timedOut) => RoomPublisher(s, t, timedOut, u);
        case Router => RoomRouter(s, u);
        case _ =>
      }
    }
  }

  lemma RoomPublisher(s: State, t: nat, timedOut: bool, u: nat)
    requires LateInv(s) && s.router.RExited? && Enabled(s, Publisher(t, timedOut))
    requires u < |s.pubs| && Apply(s, Publisher(t, timedOut)).pubs[u].PMakeRoom?
    ensures |Apply(s, Publisher(t, timedOut)).main.items| != 1
  {
    hide ReleaseOk, ClaimOk, LateOk, Record, PubEvent, Claiming;
    if u == t {
      FullOfItems(s, t);
    }
  }

  lemma RoomRouter(s: State, u: nat)
    requires LateInv(s) && MainOk(s.main, s.pubs) && Enabled(s, Router) && RouterNext(s).RExited?
    requires u < |s.pubs| && s.pubs[u].PMakeRoom?
    ensures |RouterMain(s).items| != 1
  {
    hide ReleaseOk, LateOk;
    ExitLeaves(s);
    if s.main.items != [] {
      var t :| 0 <= t < |s.pubs| && s.pubs[t].PPublish?;
      assert Takes(s.pubs[u]);
      Alone(s, t, u);
    }
  }

  lemma LateStep(s: State, a: Action)
    requires LateInv(s) && MainOk(s.main, s.pubs) && StageOk(s) && Enabled(s, a)
    ensures LateOk(Apply(s, a))
  {
    hide ReleaseOk, RouterEvent, RouterQueues, WorkerNext, WorkerEvent, WorkerQueue, Record, Give, ClaimOk, MainOk, Claiming, PolicyOk;
    match a
    case Publisher(t, timedOut) => LatePublisher(s, t, timedOut);
    case Router => if RouterNext(s).RExited? { ExitLeaves(s); }
    case _ =>
  }

  lemma LatePublisher(s: State, t: nat, timedOut: bool)
    requires LateInv(s) && Enabled(s, Publisher(t, timedOut))
    ensures LateOk(Apply(s, Publisher(t, timedOut)))
  {
    hide ReleaseOk, Record, ClaimOk, PubNext, Claiming;
  }

  /** Every step keeps the account of what is late, under all five policies. */
  lemma LateInvStep(s: State, a: Action)
    requires LateInv(s) && ShutdownInv(s) && Enabled(s, a)
    ensures LateInv(Apply(s, a))
  {
    hide PolicyOk, ClaimOk, ReleaseOk, RoomOk, LateOk, MainOk, QueuesOk, QuietOk, StageOk;
    PolicyStep(s, a);
    ClaimStep(s, a);
    ReleaseStep(s, a);
    RoomStep(s, a);
    LateStep(s, a);
    SameCapacity(s, a);
  }

  lemma SameCapacity(s: State, a: Action)
    requires Enabled(s, a)
    ensures Apply(s, a).capacity == s.capacity && Apply(s, a).policy == s.policy
  {}

  lemma LateInvInit(s: State)
    requires Init(s)
    ensures LateInv(s)
  {}

  lemma {:induction false} LateRun(s: State, acts: seq<Action>)
    requires LateInv(s) && ShutdownInv(s) && Legal(s, acts)
    ensures LateInv(Exec(s, acts))
    decreases |acts|
  {
    hide LateInv, ShutdownInv, Apply, Enabled;
    if acts != [] {
      LateInvStep(s, acts[0]);
      ShutdownStep(s, acts[0]);
      LateRun(Apply(s, acts[0]), acts[1..]);
    }
  }
}
