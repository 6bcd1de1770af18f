/** The message bus as a transition system: any number of publishers under one of the five
    full-queue policies, the router (or the single dispatcher), N workers and the thread that
    starts and stops the bus. The queues behave as the lock-free queue was proved to behave. */
module BusProtocol {
  import opened FifoSpec

  datatype Msg = Msg(id: nat, topic: nat)

  datatype FullPolicy = ReturnFalse | DropOldest | DropNewest | Block | BlockTimeout

  datatype PubPc =
    | PIdle
    | PLock(m: Msg)
    | PTry(m: Msg)
    | PPublish(pos: nat)
    | PMakeRoom(m: Msg)
    | PRelease(m: Msg, oldest: Msg, pos: nat)
    | PNotifyOld(m: Msg, oldest: Msg)
    | PNotifyNew(m: Msg)
    | PWait(m: Msg)
    | PRetry(m: Msg)
    | PReturn(ok: bool)

  /** drain tells the loop that runs while the bus is up from the loop that empties the queue. */
  datatype RouterPc =
    | ROff
    | RCheck
    | RPoll(drain: bool)
    | RTaken(m: Msg, pos: nat, drain: bool)
    | RPush(m: Msg, drain: bool)
    | RPublish(w: nat, pos: nat, drain: bool)
    | RDispatch(m: Msg, drain: bool)
    | RExited

  datatype Phase = Run | Drain | Final

  datatype WorkerPc =
    | WOff
    | WCheck(phase: Phase)
    | WPoll(phase: Phase)
    | WTaken(m: Msg, pos: nat, phase: Phase)
    | WDispatch(m: Msg, phase: Phase)
    | WExited

  datatype Control = Stopped | Up | JoiningRouter | JoiningWorkers

  /** History. given: passed to enqueueMessage. accepted: claimed a place, in order. routed: taken
      by the router. evicted: taken by a DropOldest publisher. hooked, armed: messages given with
      a drop callback, and those whose callback is still set. */
  datatype Log = Log(
    given: seq<Msg>,
    accepted: seq<Msg>,
    rejected: seq<Msg>,
    droppedNew: seq<Msg>,
    routed: seq<Msg>,
    evicted: seq<Msg>,
    droppedOld: seq<Msg>,
    dispatched: seq<Msg>,
    hooked: set<nat>,
    armed: set<nat>,
    callbacks: seq<nat>)

  /** late: when the router left, a publisher was between its claim and its publication, or a
      message has been accepted since. */
  datatype State = State(
    policy: FullPolicy,
    capacity: nat,
    hash: nat -> nat,
    running: bool,
    drained: bool,
    quiet: bool,
    late: bool,
    lock: seq<nat>,
    main: Fifo<Msg>,
    queues: seq<Fifo<Msg>>,
    pubs: seq<PubPc>,
    router: RouterPc,
    workers: seq<WorkerPc>,
    control: Control,
    log: Log)

  datatype Action =
    | CallPublish(t: nat, m: Msg, hook: bool)
    | Publisher(t: nat, timedOut: bool)
    | Router
    | Worker(w: nat)
    | Start
    | Stop(quiet: bool)
    | RouterJoined
    | WorkersJoined

  ghost predicate Init(s: State) {
    && s.capacity >= 2 && |s.workers| != 1
    && !s.running && !s.drained && !s.quiet && !s.late && s.lock == []
    && s.main == NewFifo()
    && s.queues == seq(|s.workers|, i => NewFifo())
    && (forall t :: 0 <= t < |s.pubs| ==> s.pubs[t] == PIdle)
    && s.router == ROff
    && (forall w :: 0 <= w < |s.workers| ==> s.workers[w] == WOff)
    && s.control == Stopped
    && s.log == Log([], [], [], [], [], [], [], [], {}, {}, [])
  }

  /** Zero workers stands for the single dispatcher, which dispatches what it takes. */
  predicate Single(s: State) { |s.workers| == 0 }

  function WorkerOf(s: State, m: Msg): (w: nat)
    requires !Single(s)
    ensures w < |s.workers|
  {
    s.hash(m.topic) % |s.workers|
  }

  predicate Sized(s: State) { |s.queues| == |s.workers| }

  predicate Enabled(s: State, a: Action) {
    && Sized(s)
    && match a
       case CallPublish(t, m, _) =>
         t < |s.pubs| && s.pubs[t].PIdle? && !s.quiet && forall i :: 0 <= i < |s.log.given| ==> s.log.given[i].id != m.id
       case Publisher(t, _) =>
         t < |s.pubs| && !s.pubs[t].PIdle? && (s.pubs[t].PLock? ==> s.lock == [])
       case Router => !s.router.ROff? && !s.router.RExited? && RouterReady(s)
       case Worker(w) => w < |s.workers| && !s.workers[w].WOff? && !s.workers[w].WExited?
       case Start => s.control == Stopped
       // quiet promises that no publish is in flight now and none starts before the stop returns
       case Stop(quiet) => s.control == Up && (quiet ==> forall t :: 0 <= t < |s.pubs| ==> s.pubs[t].PIdle?)
       case RouterJoined => s.control == JoiningRouter && s.router.RExited?
       case WorkersJoined => s.control == JoiningWorkers && forall w :: 0 <= w < |s.workers| ==> s.workers[w].WExited?
  }

  // ---------- history ----------

  /** What a step does to the messages, as the logs record it. */
  datatype Event =
    | Nothing
    | Accept(m: Msg)
    | Reject(m: Msg)
    | DropNew(m: Msg)
    | Evict(m: Msg)
    | DropOld(m: Msg)
    | Route(m: Msg)
    | Dispatch(m: Msg)

  /** notify_drop: run and clear the callback, if there is one. */
  function Notify(g: Log, m: Msg): Log {
    if m.id in g.armed then g.(armed := g.armed - {m.id}, callbacks := g.callbacks + [m.id]) else g
  }

  function Give(g: Log, m: Msg, hook: bool): Log {
    var g1 := g.(given := g.given + [m]);
    if hook then g1.(hooked := g1.hooked + {m.id}, armed := g1.armed + {m.id}) else g1
  }

  function Record(g: Log, e: Event): Log {
    match e
    case Nothing => g
    case Accept(m) => g.(accepted := g.accepted + [m])
    case Reject(m) => g.(rejected := g.rejected + [m])
    case DropNew(m) => Notify(g.(droppedNew := g.droppedNew + [m]), m)
    case Evict(m) => g.(evicted := g.evicted + [m])
    case DropOld(m) => Notify(g.(droppedOld := g.droppedOld + [m]), m)
    case Route(m) => g.(routed := g.routed + [m])
    case Dispatch(m) => g.(dispatched := g.dispatched + [m])
  }

  // ---------- publishers ----------

  /** Where enqueueMessage goes next. */
  function PubNext(s: State, pc: PubPc, timedOut: bool): PubPc {
    match pc
    case PIdle => PIdle
    case PLock(m) => PTry(m)
    case PTry(m) =>
      if s.main.CanClaim(s.capacity) then PPublish(s.main.Tail())
      else (match s.policy
            case ReturnFalse => PReturn(false)
            case DropNewest => PNotifyNew(m)
            case DropOldest => PMakeRoom(m)
            case Block => PWait(m)
            case BlockTimeout => PWait(m))
    case PPublish(_) => PReturn(true)
    case PMakeRoom(m) => if s.main.CanTake() then PRelease(m, s.main.items[0].value, s.main.taken) else PTry(m)
    case PRelease(m, oldest, _) => PNotifyOld(m, oldest)
    case PNotifyOld(m, _) => PTry(m)
    case PNotifyNew(_) => PReturn(true)
    case PWait(m) => if s.running then PRetry(m) else PReturn(false)
    case PRetry(m) =>
      if s.main.CanClaim(s.capacity) then PPublish(s.main.Tail())
      else if s.policy == BlockTimeout && timedOut then PReturn(false)
      else PWait(m)
    case PReturn(_) => PIdle
  }

  function PubEvent(s: State, pc: PubPc, timedOut: bool): Event {
    match pc
    case PTry(m) =>
      if s.main.CanClaim(s.capacity) then Accept(m) else if s.policy == ReturnFalse then Reject(m) else Nothing
    case PMakeRoom(_) => if s.main.CanTake() then Evict(s.main.items[0].value) else Nothing
    case PNotifyOld(_, oldest) => DropOld(oldest)
    case PNotifyNew(m) => DropNew(m)
    case PWait(m) => if s.running then Nothing else Reject(m)
    case PRetry(m) =>
      if s.main.CanClaim(s.capacity) then Accept(m)
      else if s.policy == BlockTimeout && timedOut then Reject(m)
      else Nothing
    case _ => Nothing
  }

  function PubMain(s: State, pc: PubPc): Fifo<Msg> {
    if (pc.PTry? || pc.PRetry?) && s.main.CanClaim(s.capacity) then s.main.Claim(pc.m)
    else if pc.PMakeRoom? && s.main.CanTake() then s.main.Take()
    else if pc.PPublish? then s.main.Publish(pc.pos)
    else if pc.PRelease? then s.main.Release(pc.pos)
    else s.main
  }

  /** publish_mutex_ is held from PLock to the return of a DropOldest publisher. */
  function PubLock(s: State, t: nat, pc: PubPc): seq<nat> {
    if pc.PLock? then [t] else if pc.PReturn? && s.lock == [t] then [] else s.lock
  }

  // ---------- the router, or the single dispatcher ----------

  function Resume(drain: bool): RouterPc { if drain then RPoll(true) else RCheck }

  function RouterNext(s: State): RouterPc
    requires RouterReady(s)
  {
    match s.router
    case RCheck => RPoll(!s.running)
    case RPoll(drain) =>
      if s.main.CanTake() then RTaken(s.main.items[0].value, s.main.taken, drain)
      else if drain then RExited
      else RCheck
    case RTaken(m, _, drain) => if Single(s) then RDispatch(m, drain) else RPush(m, drain)
    case RPush(m, drain) =>
      var w := WorkerOf(s, m);
      if s.queues[w].CanClaim(s.capacity) then RPublish(w, s.queues[w].Tail(), drain) else RPush(m, drain)
    case RPublish(_, _, drain) => Resume(drain)
    case RDispatch(_, drain) => Resume(drain)
    case ROff => ROff
    case RExited => RExited
  }

  function RouterEvent(s: State): Event {
    if s.router.RPoll? && s.main.CanTake() then Route(s.main.items[0].value)
    else if s.router.RDispatch? then Dispatch(s.router.m)
    else Nothing
  }

  function RouterMain(s: State): Fifo<Msg> {
    if s.router.RPoll? && s.main.CanTake() then s.main.Take()
    else if s.router.RTaken? then s.main.Release(s.router.pos)
    else s.main
  }

  predicate RouterReady(s: State) {
    Sized(s) && (s.router.RPush? ==> !Single(s)) && (s.router.RPublish? ==> s.router.w < |s.queues|)
  }

  predicate Pushes(s: State)
    requires RouterReady(s)
  {
    s.router.RPush? && s.queues[WorkerOf(s, s.router.m)].CanClaim(s.capacity)
  }

  function RouterQueues(s: State): seq<Fifo<Msg>>
    requires RouterReady(s)
  {
    if Pushes(s) then
      var w := WorkerOf(s, s.router.m);
      s.queues[w := s.queues[w].Claim(s.router.m)]
    else if s.router.RPublish? then
      s.queues[s.router.w := s.queues[s.router.w].Publish(s.router.pos)]
    else s.queues
  }

  // ---------- workers ----------

  function WorkerNext(s: State, w: nat): WorkerPc
    requires Sized(s) && w < |s.workers|
  {
    match s.workers[w]
    case WOff => WOff
    case WExited => WExited
    case WCheck(phase) =>
      if phase == Run then (if s.running then WPoll(Run) else WCheck(Drain))
      else if s.drained then WPoll(Final)
      else WPoll(Drain)
    case WPoll(phase) =>
      if s.queues[w].CanTake() then WTaken(s.queues[w].items[0].value, s.queues[w].taken, phase)
      else if phase == Final then WExited
      else WCheck(phase)
    case WTaken(m, _, phase) => WDispatch(m, phase)
    case WDispatch(_, phase) => if phase == Final then WPoll(Final) else WCheck(phase)
  }

  function WorkerEvent(s: State, w: nat): Event
    requires w < |s.workers|
  {
    if s.workers[w].WDispatch? then Dispatch(s.workers[w].m) else Nothing
  }

  function WorkerQueue(s: State, w: nat): Fifo<Msg>
    requires Sized(s) && w < |s.workers|
  {
    if s.workers[w].WPoll? && s.queues[w].CanTake() then s.queues[w].Take()
    else if s.workers[w].WTaken? then s.queues[w].Release(s.workers[w].pos)
    else s.queues[w]
  }

  /** Some publisher is between its claim and its publication. */
  predicate Claiming(pubs: seq<PubPc>) { exists t :: 0 <= t < |pubs| && pubs[t].PPublish? }

  function Apply(s: State, a: Action): State
    requires Enabled(s, a)
  {
    match a
    case CallPublish(t, m, hook) =>
      s.(pubs := s.pubs[t := if s.policy == DropOldest then PLock(m) else PTry(m)], log := Give(s.log, m, hook))
    case Publisher(t, timedOut) =>
      var pc := s.pubs[t];
      s.(pubs := s.pubs[t := PubNext(s, pc, timedOut)], main := PubMain(s, pc),
         lock := PubLock(s, t, pc), late := s.late || (s.router.RExited? && PubEvent(s, pc, timedOut).Accept?),
         log := Record(s.log, PubEvent(s, pc, timedOut)))
    case Router =>
      s.(router := RouterNext(s), main := RouterMain(s), queues := RouterQueues(s),
         late := if RouterNext(s).RExited? then Claiming(s.pubs) else s.late, log := Record(s.log, RouterEvent(s)))
    case Worker(w) =>
      s.(workers := s.workers[w := WorkerNext(s, w)], queues := s.queues[w := WorkerQueue(s, w)],
         log := Record(s.log, WorkerEvent(s, w)))
    case Start =>
      s.(running := true, control := Up, router := RCheck, quiet := false, late := false,
         workers := seq(|s.workers|, i => WCheck(Run)), queues := seq(|s.workers|, i => NewFifo()))
    case Stop(quiet) => s.(running := false, control := JoiningRouter, quiet := quiet)
    case RouterJoined => s.(drained := !Single(s), control := JoiningWorkers)
    case WorkersJoined =>
      s.(drained := false, control := Stopped, router := ROff, quiet := false,
         workers := seq(|s.workers|, i => WOff), queues := seq(|s.workers|, i => NewFifo()))
  }

  ghost predicate Legal(s: State, acts: seq<Action>)
    decreases |acts|
  {
    acts == [] || (Enabled(s, acts[0]) && Legal(Apply(s, acts[0]), acts[1..]))
  }

  ghost function Exec(s: State, acts: seq<Action>): State
    requires Legal(s, acts)
    decreases |acts|
  {
    if acts == [] then s else Exec(Apply(s, acts[0]), acts[1..])
  }

  // ---------- where messages are ----------

  /** The new message a publisher still holds, and the old one it has taken out. */
  function NewHand(pc: PubPc): seq<Msg> {
    if pc.PLock? || pc.PTry? || pc.PMakeRoom? || pc.PRelease? || pc.PNotifyOld? || pc.PNotifyNew? || pc.PWait? || pc.PRetry?
    then [pc.m] else []
  }

  function OldHand(pc: PubPc): seq<Msg> {
    if pc.PRelease? || pc.PNotifyOld? then [pc.oldest] else []
  }

  function RouterHand(pc: RouterPc): seq<Msg> {
    if pc.RTaken? || pc.RPush? || pc.RDispatch? then [pc.m] else []
  }

  function WorkerHand(pc: WorkerPc): seq<Msg> {
    if pc.WTaken? || pc.WDispatch? then [pc.m] else []
  }

  /** Everything on a worker's side: what it holds, then its queue. */
  function Side(pc: WorkerPc, q: Fifo<Msg>): seq<Msg> { WorkerHand(pc) + q.Values() }
}
