/** enqueueMessage with its five full-queue policies, run by one publisher at a time. What other
    threads do meanwhile is a parameter. */
module Intakes {
  import opened Seqs
  import opened LockFreeQueues
  import opened Messages
  import opened BusProtocol

  /** What other threads did before a waiting publisher woke up: messages taken from the queue, and
      perhaps a stop. */
  datatype WakeUp = WakeUp(takes: nat, stopped: bool)

  /** The first wake-up before which something was taken or the bus was stopped, or how many there are. */
  function FirstNews(wakeUps: seq<WakeUp>): (n: nat)
    ensures n <= |wakeUps|
    ensures forall i :: 0 <= i < n ==> wakeUps[i].takes == 0 && !wakeUps[i].stopped
    ensures n < |wakeUps| ==> wakeUps[n].takes > 0 || wakeUps[n].stopped
  {
    if wakeUps == [] || wakeUps[0].takes > 0 || wakeUps[0].stopped then 0 else 1 + FirstNews(wakeUps[1..])
  }

  function Min(x: nat, y: nat): nat { if x < y then x else y }

  /** A Block publisher whose wake-ups ran out is still waiting. */
  datatype Outcome = Returned(ok: bool) | Waiting

  /** The last n elements, or all when there are fewer. */
  function Last<T>(xs: seq<T>, n: nat): (r: seq<T>)
    ensures |r| <= n && |r| <= |xs|
  {
    if |xs| <= n then xs else xs[|xs| - n..]
  }

  /** The callbacks that run when messages with these hooks are dropped, in order. */
  function Callbacks(hooks: seq<Callback>): seq<nat> {
    if hooks == [] then []
    else
      var c := hooks[|hooks| - 1];
      Callbacks(hooks[..|hooks| - 1]) + (if c.OnDrop? then [c.id] else [])
  }

  ghost function Hooks(ms: seq<Message>): (hooks: seq<Callback>)
    reads ms
    ensures |hooks| == |ms|
    ensures forall i :: 0 <= i < |ms| ==> hooks[i] == ms[i].onDrop
  {
    seq(|ms|, i requires 0 <= i < |ms| reads ms => ms[i].onDrop)
  }

  ghost function NonNull(xs: seq<Message?>): (ys: seq<Message>)
    requires null !in xs
    ensures ys == xs
  {
    seq(|xs|, i requires 0 <= i < |xs| => assert xs[i] in xs; xs[i])
  }

  /** How many of n queued messages a DropOldest publisher drops: one when the queue is full, and one,
      while there is one, for each attempt that a busy consumer makes fail. */
  function Evictions(n: nat, capacity: nat, busy: nat): (d: nat)
  {
    if busy > 0 then Min(busy, n) else if n < capacity then 0 else 1
  }

  /** How a blocking publisher fares that finds n messages queued: what it answers, how many messages
      consumers take meanwhile, and whether the bus still runs. */
  function Blocked(n: nat, capacity: nat, running: bool, wakeUps: seq<WakeUp>): (Outcome, nat, bool) {
    var k := FirstNews(wakeUps);
    if n < capacity then (Returned(true), 0, running)
    else if !running then (Returned(false), 0, false)
    else if k == |wakeUps| then (Waiting, 0, true)
    else (Returned(!wakeUps[k].stopped), Min(wakeUps[k].takes, n), !wakeUps[k].stopped)
  }

  /** A publisher that is still waiting when its time is up is refused. */
  function TimedOut(b: (Outcome, nat, bool)): (Outcome, nat, bool) {
    if b.0 == Waiting then (Returned(false), b.1, b.2) else b
  }

  class Intake {
    const policy: FullPolicy
    const queue: LockFreeQueue<Message?>
    var running: bool

    ghost predicate Valid()
      reads this, queue, queue.buffer
    {
      queue.Valid() && NoDup(queue.Contents()) && null !in queue.Contents()
    }

    ghost function Queued(): (ms: seq<Message>)
      requires Valid()
      reads this, queue, queue.buffer
      ensures ms == queue.Contents()
    {
      NonNull(queue.Contents())
    }

    constructor (capacity: nat, policy: FullPolicy)
      requires capacity < 0x1_0000_0000_0000_0000
      ensures Valid() && Queued() == [] && this.policy == policy && !running && fresh(queue) && fresh(queue.buffer)
    {
      this.policy, running := policy, false;
      queue := new LockFreeQueue<Message?>(capacity);
    }

    /** Takes out the oldest message, if there is one, and tells its publisher. */
    method Discard() returns (ok: bool, ran: seq<nat>)
      requires Valid()
      modifies queue, queue.buffer, Queued()`onDrop
      ensures Valid() && (ok <==> old(Queued()) != [])
      ensures Queued() == if ok then old(Queued())[1..] else []
      ensures ran == if ok then Callbacks(old(Hooks(Queued()))[..1]) else []
      ensures ok ==> old(Queued())[0].onDrop == NoCallback
      ensures forall i :: 1 <= i < |old(Queued())| ==> old(Queued())[i].onDrop == old(Queued()[i].onDrop)
    {
      hide LockFreeQueue.Valid, LockFreeQueue.Contents;
      ghost var before := Queued();
      var oldest;
      ok, oldest := queue.TryDequeue(0);
      ran := [];
      if ok {
        assert before[0] == oldest;
        TailDistinct(before, queue.Contents());
        ran := oldest.NotifyDrop();
        OneCallback(old(Hooks(Queued()))[..1]);
      }
    }

    /** One try_enqueue. Once for each busy, a consumer that has claimed a cell but not released it
        makes the attempt fail. */
    method Attempt(m: Message, busy: nat) returns (ok: bool, left: nat)
      requires Valid() && m !in Queued()
      modifies queue, queue.buffer
      ensures Valid()
      ensures ok <==> busy == 0 && |old(Queued())| < queue.capacity
      ensures Queued() == if ok then old(Queued()) + [m] else old(Queued())
      ensures left == if busy == 0 then 0 else busy - 1
    {
      hide LockFreeQueue.Valid, LockFreeQueue.Contents;
      if busy > 0 {
        return false, busy - 1;
      }
      ok := queue.TryEnqueue(m, 0);
      left := 0;
    }

    method TryReturnFalse(m: Message) returns (ok: bool)
      requires Valid() && m !in Queued()
      modifies queue, queue.buffer
      ensures Valid() && (ok <==> |old(Queued())| < queue.capacity)
      ensures Queued() == if ok then old(Queued()) + [m] else old(Queued())
    {
      var left;
      ok, left := Attempt(m, 0);
    }

    /** Reports success even when it drops the message. */
    method TryDropNewest(m: Message) returns (ok: bool, ran: seq<nat>)
      requires Valid() && m !in Queued()
      modifies queue, queue.buffer, m`onDrop
      ensures Valid() && ok
      ensures if |old(Queued())| < queue.capacity
              then Queued() == old(Queued()) + [m] && ran == [] && m.onDrop == old(m.onDrop)
              else Queued() == old(Queued()) && ran == Callbacks([old(m.onDrop)]) && m.onDrop == NoCallback
    {
      var enqueued, left := Attempt(m, 0);
      ran := [];
      if !enqueued {
        ran := m.NotifyDrop();
        OneCallback([old(m.onDrop)]);
      }
      ok := true;
    }

    /** Makes room by dropping the oldest messages. With no consumer in the way that is just one,
        and only when the queue is full: what is left are the last capacity messages. */
    method TryDropOldest(m: Message, busy: nat) returns (ok: bool, ran: seq<nat>, ghost d: nat)
      requires Valid() && m !in Queued()
      modifies queue, queue.buffer, Queued()`onDrop
      ensures Valid() && ok && d == Evictions(|old(Queued())|, queue.capacity, busy)
      ensures Queued() == old(Queued())[d..] + [m]
      ensures Dropped(old(Queued()), old(Hooks(Queued())), d, ran)
      ensures busy == 0 ==> Queued() == Last(old(Queued()) + [m], queue.capacity)
    {
      hide LockFreeQueue.Valid, LockFreeQueue.Contents, Dropped, NoDup;
      ghost var before, hooks := Queued(), Hooks(Queued());
      ran, d := [], 0;
      NoneDropped(before, hooks);
      Roomy();
      NeverOverfull();
      var enqueued, left := Attempt(m, busy);
      if !enqueued {
        ran, d := DropOne(ran, before, hooks, d);
        enqueued, left := Attempt(m, left);
        ghost var drops := 1;
        while !enqueued
          invariant Valid() && drops >= 1 && d == Min(drops, |before|)
          invariant Queued() == if enqueued then before[d..] + [m] else before[d..]
          invariant Dropped(before, hooks, d, ran)
          invariant if enqueued then drops == if busy == 0 then 1 else busy else drops + left + 1 == busy
          decreases left, !enqueued
        {
          ran, d := DropOne(ran, before, hooks, d);
          drops := drops + 1;
          enqueued, left := Attempt(m, left);
        }
      }
      ok := true;
    }

    /** What other threads do before a waiting publisher wakes up. */
    method Others(w: WakeUp) returns (ghost taken: seq<Message>)
      requires Valid()
      modifies `running, queue, queue.buffer
      ensures Valid() && old(Queued()) == taken + Queued() && |taken| == Min(w.takes, |old(Queued())|)
      ensures running == (old(running) && !w.stopped)
    {
      hide LockFreeQueue.Valid, LockFreeQueue.Contents, NoDup;
      taken := [];
      for n := 0 to w.takes
        invariant Valid() && old(Queued()) == taken + Queued() && running == old(running)
        invariant |taken| == Min(n, |old(Queued())|)
      {
        ghost var before := Queued();
        var ok, x := queue.TryDequeue(0);
        if ok {
          TailDistinct(before, queue.Contents());
          MoveHead(taken, before, Queued());
          taken := taken + [before[0]];
        }
      }
      running := running && !w.stopped;
    }

    /** Waits for room; the condition is tested before the first wait and after each wake-up. Nothing
        leaves the queue but what consumers took before the first wake-up with news, and that wake-up
        decides: a stop means refusal, and otherwise there is room. */
    method TryBlock(m: Message, wakeUps: seq<WakeUp>) returns (r: Outcome, ghost taken: seq<Message>)
      requires Valid() && m !in Queued()
      modifies `running, queue, queue.buffer
      ensures Valid()
      ensures old(Queued()) + (if r == Returned(true) then [m] else []) == taken + Queued()
      ensures (r, |taken|, running) == Blocked(|old(Queued())|, queue.capacity, old(running), wakeUps)
    {
      hide LockFreeQueue.Valid, LockFreeQueue.Contents, NoDup, NonNull, FirstNews;
      Roomy();
      NeverOverfull();
      taken := [];
      var ok, left := Attempt(m, 0);
      if ok {
        return Returned(true), taken;
      }
      r, taken := AwaitRoom(m, wakeUps);
    }

    /** The wait of a publisher that found the queue full. */
    method AwaitRoom(m: Message, wakeUps: seq<WakeUp>) returns (r: Outcome, ghost taken: seq<Message>)
      requires Valid() && m !in Queued() && |Queued()| == queue.capacity >= 2
      modifies `running, queue, queue.buffer
      ensures Valid()
      ensures old(Queued()) + (if r == Returned(true) then [m] else []) == taken + Queued()
      ensures (r, |taken|, running) == Blocked(queue.capacity, queue.capacity, old(running), wakeUps)
    {
      hide LockFreeQueue.Valid, LockFreeQueue.Contents, NoDup, NonNull, FirstNews;
      ghost var k := FirstNews(wakeUps);
      taken := [];
      var ok, left;
      var i := 0;
      while true
        invariant Valid() && m !in Queued() && i <= |wakeUps| && old(Queued()) == taken + Queued()
        invariant i <= k + 1 && (i > 0 ==> old(running))
        invariant if i <= k then running == old(running) && taken == []
                  else running == !wakeUps[k].stopped && |taken| == Min(wakeUps[k].takes, queue.capacity)
        decreases |wakeUps| - i
      {
        if !running {
          return Returned(false), taken;
        }
        ok, left := Attempt(m, 0);
        if ok {
          return Returned(true), taken;
        }
        if i == |wakeUps| {
          return Waiting, taken;
        }
        ghost var more := Others(wakeUps[i]);
        taken := taken + more;
        i := i + 1;
      }
    }

    /** Every message given is accepted or refused, and nothing else enters; what leaves the queue
        was taken by a consumer or dropped, oldest first, and exactly the dropped messages have
        their callbacks run. */
    method EnqueueMessage(m: Message, busy: nat, wakeUps: seq<WakeUp>)
      returns (r: Outcome, ran: seq<nat>, ghost accepted: bool, ghost taken: seq<Message>, ghost d: nat)
      requires Valid() && m !in Queued()
      modifies `running, queue, queue.buffer, Queued()`onDrop, m`onDrop
      ensures Valid() && d <= |old(Queued())|
      ensures old(Queued())[d..] + (if accepted then [m] else []) == taken + Queued()
      ensures accepted ==> m.onDrop == old(m.onDrop) && Dropped(old(Queued()), old(Hooks(Queued())), d, ran)
      ensures !accepted && policy != DropNewest ==> d == 0 && ran == [] && m.onDrop == old(m.onDrop)
      ensures policy == ReturnFalse ==> r == Returned(accepted) && d == 0 && taken == []
                                        && (accepted <==> |old(Queued())| < queue.capacity)
      ensures policy == DropNewest ==> r == Returned(true) && d == 0 && taken == []
                                       && (accepted <==> |old(Queued())| < queue.capacity)
                                       && (!accepted ==> ran == Callbacks([old(m.onDrop)]) && m.onDrop == NoCallback)
      ensures policy == DropOldest ==> r == Returned(true) && accepted && taken == []
                                       && d == Evictions(|old(Queued())|, queue.capacity, busy)
                                       && (busy == 0 ==> Queued() == Last(old(Queued()) + [m], queue.capacity))
      ensures policy != Block && policy != BlockTimeout ==> running == old(running)
      ensures policy == Block ==>
                && d == 0 && (accepted <==> r == Returned(true))
                && (r, |taken|, running) == Blocked(|old(Queued())|, queue.capacity, old(running), wakeUps)
      ensures policy == BlockTimeout ==>
                && d == 0 && r == Returned(accepted)
                && (r, |taken|, running)
                   == TimedOut(Blocked(|old(Queued())|, queue.capacity, old(running), wakeUps))
    {
      hide LockFreeQueue.Valid, LockFreeQueue.Contents, NoDup, Dropped;
      ran, accepted, taken, d := [], false, [], 0;
      NoneDropped(Queued(), Hooks(Queued()));
      match policy
      case ReturnFalse =>
        var ok := TryReturnFalse(m);
        r, accepted := Returned(ok), ok;
      case DropNewest =>
        var ok;
        accepted := |Queued()| < queue.capacity;
        ok, ran := TryDropNewest(m);
        r := Returned(ok);
      case DropOldest =>
        var ok;
        ok, ran, d := TryDropOldest(m, busy);
        r, accepted := Returned(ok), true;
      case Block =>
        r, taken := TryBlock(m, wakeUps);
        accepted := r == Returned(true);
      case BlockTimeout =>
        r, taken := TryBlock(m, wakeUps);
        accepted := r == Returned(true);
        if r == Waiting {
          r := Returned(false);
        }
    }

    lemma NeverOverfull()
      requires Valid()
      ensures |Queued()| <= queue.capacity
    {}

    lemma Roomy()
      requires Valid()
      ensures queue.capacity >= 2 && NoDup(Queued())
    {}

    /** Drops one more message, if one is left. */
    method DropOne(ran: seq<nat>, ghost before: seq<Message>, ghost hooks: seq<Callback>, ghost d: nat)
      returns (ran': seq<nat>, ghost d': nat)
      requires Valid() && NoDup(before) && d <= |before| && Queued() == before[d..] && Dropped(before, hooks, d, ran)
      modifies queue, queue.buffer, Queued()`onDrop
      ensures Valid() && d' == (if d < |before| then d + 1 else d) && Queued() == before[d'..]
      ensures Dropped(before, hooks, d', ran')
    {
      hide LockFreeQueue.Valid, LockFreeQueue.Contents, Dropped, Callbacks;
      if d < |before| { HeadHook(before, hooks, d, ran); }
      assert forall i :: d <= i < |before| ==> before[i] == Queued()[i - d];
      label discard:
      var dropped, more := Discard();
      ran', d' := ran, d;
      if dropped {
        ran', d' := ran + more, d + 1;
        OneMoreDropped@discard(before, hooks, d, ran, more);
      }
    }
  }

  /** The first d of these messages have been dropped, and their callbacks have run. */
  ghost predicate Dropped(before: seq<Message>, hooks: seq<Callback>, d: nat, ran: seq<nat>)
    reads before
  {
    && d <= |before| == |hooks|
    && ran == Callbacks(hooks[..d])
    && forall i :: 0 <= i < |before| ==> before[i].onDrop == if i < d then NoCallback else hooks[i]
  }

  lemma HeadHook(before: seq<Message>, hooks: seq<Callback>, d: nat, ran: seq<nat>)
    requires Dropped(before, hooks, d, ran) && d < |before|
    ensures |hooks| == |before| && Hooks(before[d..])[..1] == [hooks[d]]
  {}

  twostate lemma OneMoreDropped(before: seq<Message>, new hooks: seq<Callback>, new d: nat, new ran: seq<nat>, new more: seq<nat>)
    requires old(Dropped(before, hooks, d, ran)) && d < |before| && |hooks| == |before|
    requires more == Callbacks([hooks[d]]) && before[d].onDrop == NoCallback
    requires forall i :: 0 <= i < |before| && i != d ==> before[i].onDrop == old(before[i].onDrop)
    ensures Dropped(before, hooks, d + 1, ran + more)
  {
    assert hooks[..d + 1][..d] == hooks[..d];
    OneCallback([hooks[d]]);
  }

  lemma NoneDropped(before: seq<Message>, hooks: seq<Callback>)
    requires hooks == Hooks(before)
    ensures Dropped(before, hooks, 0, [])
  {}

  lemma OneCallback(hooks: seq<Callback>)
    requires |hooks| == 1
    ensures Callbacks(hooks) == if hooks[0].OnDrop? then [hooks[0].id] else []
  {
    assert hooks[..0] == [];
  }

  lemma MoveHead(taken: seq<Message>, before: seq<Message>, after: seq<Message>)
    requires before != [] && before == [before[0]] + after
    ensures taken + before == (taken + [before[0]]) + after
  {}

  lemma TailDistinct(before: seq<Message?>, after: seq<Message?>)
    requires before != [] && before == [before[0]] + after && NoDup(before) && null !in before
    ensures NoDup(after) && null !in after && before[0] !in after && after == before[1..]
  {
    assert forall i :: 0 <= i < |after| ==> after[i] == before[i + 1] && after[i] in before;
  }
}
