/** Who a dispatch calls, in every interleaving: what one thread looks up and loads on its way is
    read off the states it passes through, and held against its calls. */
module DispatchTheorems {
  import opened Seqs
  import opened TopicLevels
  import opened SubscriptionProtocol
  import opened SubscriptionProofs
  import opened SubscriptionShape
  import TrieSpec

  // ---------- what thread i looks at in a run ----------

  datatype Load = Load(slot: nat, list: seq<nat>)

  /** What a step from here looks at: the slot map, the trie, or the list of the next slot. */
  function LookedAt(s: State, pc: Pc): seq<State> { if pc.DExact? then [s] else [] }

  function WalkedAt(s: State, pc: Pc): seq<State> { if pc.DTrie? then [s] else [] }

  function LoadedAt(s: State, pc: Pc): seq<Load> {
    if pc.DList? && pc.todo != [] then [Load(pc.todo[0], ListOf(s, pc.todo[0]))] else []
  }

  /** The states in which it looks for the topic's own slot. */
  ghost function Lookups(s: State, acts: seq<Action>, i: nat): seq<State>
    requires Legal(s, acts)
    decreases |acts|
  {
    if acts == [] then []
    else (if acts[0] == Step(i) then LookedAt(s, s.pcs[i]) else []) + Lookups(Apply(s, acts[0]), acts[1..], i)
  }

  /** The states in which it loads the trie. */
  ghost function Walks(s: State, acts: seq<Action>, i: nat): seq<State>
    requires Legal(s, acts)
    decreases |acts|
  {
    if acts == [] then []
    else (if acts[0] == Step(i) then WalkedAt(s, s.pcs[i]) else []) + Walks(Apply(s, acts[0]), acts[1..], i)
  }

  /** The slots it visits, with the list it loads from each. */
  ghost function Loads(s: State, acts: seq<Action>, i: nat): seq<Load>
    requires Legal(s, acts)
    decreases |acts|
  {
    if acts == [] then []
    else (if acts[0] == Step(i) then LoadedAt(s, s.pcs[i]) else []) + Loads(Apply(s, acts[0]), acts[1..], i)
  }

  function Visited(loads: seq<Load>): seq<nat> {
    if loads == [] then [] else [loads[0].slot] + Visited(loads[1..])
  }

  function AllLists(loads: seq<Load>): seq<nat> {
    if loads == [] then [] else loads[0].list + AllLists(loads[1..])
  }

  /** The calls of thread i. */
  function By(i: nat): Call -> bool { (c: Call) => c.thread == i }

  function CallAll(i: nat, m: Msg, ids: seq<nat>): (calls: seq<Call>)
    ensures |calls| == |ids|
  {
    seq(|ids|, n requires 0 <= n < |ids| => Call(i, ids[n], m))
  }

  /** From the first step on, thread i does not begin another call. */
  predicate OneCall(acts: seq<Action>, i: nat) { forall n :: 0 <= n < |acts| && acts[n].i == i ==> acts[n] == Step(i) }

  predicate Dispatching(pc: Pc) { pc.DExact? || pc.DTrie? || pc.DList? || pc.DRun? }

  // ---------- every list it loads is called to its end ----------

  /** The ids still to be called from the list loaded last. */
  function Rest(pc: Pc): seq<nat> { if pc.DRun? then pc.list else [] }

  /** The slots still to be visited before the trie is loaded, or to the end. */
  function Todo(pc: Pc): seq<nat> { if pc.DList? || pc.DRun? then pc.todo else [] }

  function ExactSlot(x: State, m: Msg): seq<nat> {
    if m.tid in x.slots && TagOf(x, x.slots[m.tid]) == m.tag && x.slots[m.tid] < |x.arena| then [x.slots[m.tid]] else []
  }

  /** What is still to be visited, given the states in which the lookups happen. */
  ghost predicate VisitsRight(pc: Pc, m: Msg, lookups: seq<State>, walks: seq<State>, visited: seq<nat>) {
    match pc
    case Idle => lookups == [] && walks == [] && visited == []
    case DExact(_) => |lookups| == 1 && |walks| == 1 && visited == ExactSlot(lookups[0], m) + Matched(walks[0].trie, m)
    case DTrie(_) => lookups == [] && |walks| == 1 && visited == Matched(walks[0].trie, m)
    case DList(_, todo, wild) =>
      lookups == [] && if wild then walks == [] && visited == todo else |walks| == 1 && visited == todo + Matched(walks[0].trie, m)
    case DRun(_, todo, wild, _) =>
      lookups == [] && if wild then walks == [] && visited == todo else |walks| == 1 && visited == todo + Matched(walks[0].trie, m)
    case _ => false
  }

  ghost predicate Delivers(s: State, acts: seq<Action>, i: nat, m: Msg)
    requires Legal(s, acts) && i < |s.pcs|
  {
    && Filter(Exec(s, acts).calls, By(i)) == Filter(s.calls, By(i)) + CallAll(i, m, Rest(s.pcs[i]) + AllLists(Loads(s, acts, i)))
    && VisitsRight(s.pcs[i], m, Lookups(s, acts, i), Walks(s, acts, i), Visited(Loads(s, acts, i)))
  }

  predicate About(pc: Pc, m: Msg) { pc.Idle? || (Dispatching(pc) && pc.msg == m) }

  /** One step of another thread. */
  lemma OtherStep(s: State, a: Action, i: nat)
    requires Enabled(s, a) && i < |s.pcs| && a.i != i
    ensures i < |Apply(s, a).pcs| && Apply(s, a).pcs[i] == s.pcs[i] && Filter(Apply(s, a).calls, By(i)) == Filter(s.calls, By(i))
  {
    hide ArenaNext, TrieNext, InfoNext, Next, Filter, SlotsFree, TrieFree, SlotFree;
    if Apply(s, a).calls != s.calls {
      FilterPush(s.calls, Apply(s, a).calls[|s.calls|], By(i));
      assert Filter(s.calls, By(i)) + [] == Filter(s.calls, By(i));
    }
  }

  /** What a step of the thread itself does: to its calls, and to where it is. */
  lemma OwnStep(s: State, i: nat, m: Msg)
    requires Enabled(s, Step(i)) && Dispatching(s.pcs[i]) && s.pcs[i].msg == m
    ensures var z, pc := Apply(s, Step(i)), s.pcs[i];
            && i < |z.pcs| && z.pcs[i] == Next(s, pc) && About(z.pcs[i], m)
            && Filter(z.calls, By(i)) == Filter(s.calls, By(i)) + (if Rest(pc) != [] then [Call(i, pc.list[0], m)] else [])
  {
    hide ArenaNext, TrieNext, InfoNext, Filter, SlotsFree, TrieFree, SlotFree, Matched, ListOf;
    var pc := s.pcs[i];
    if Rest(pc) != [] {
      FilterPush(s.calls, Call(i, pc.list[0], m), By(i));
    } else {
      assert Filter(s.calls, By(i)) + [] == Filter(s.calls, By(i));
    }
  }

  lemma OneMoreCall(i: nat, m: Msg, before: seq<Call>, list: seq<nat>, more: seq<nat>)
    requires list != []
    ensures before + [Call(i, list[0], m)] + CallAll(i, m, list[1..] + more) == before + CallAll(i, m, list + more)
  {
    assert list + more == [list[0]] + (list[1..] + more);
    assert CallAll(i, m, list + more) == [Call(i, list[0], m)] + CallAll(i, m, list[1..] + more);
  }

  /** An idle thread that begins nothing calls nobody. */
  lemma {:induction false} IdleRun(s: State, acts: seq<Action>, i: nat, m: Msg)
    requires Legal(s, acts) && i < |s.pcs| && s.pcs[i].Idle? && OneCall(acts, i)
    ensures Delivers(s, acts, i, m)
    decreases |acts|
  {
    hide Apply, Filter;
    assert CallAll(i, m, []) == [];
    if acts == [] {
      assert Filter(s.calls, By(i)) + [] == Filter(s.calls, By(i));
    } else {
      assert acts[0].i != i by { NotIdle(s, acts[0], i); }
      OtherStep(s, acts[0], i);
      IdleRun(Apply(s, acts[0]), acts[1..], i, m);
    }
  }

  lemma NotIdle(s: State, a: Action, i: nat)
    requires Enabled(s, a) && i < |s.pcs| && (a.i == i ==> a == Step(i)) && s.pcs[i].Idle?
    ensures a.i != i
  {}

  /** From wherever thread i is in its dispatch, to its end. */
  lemma {:induction false} DeliversRun(s: State, acts: seq<Action>, i: nat, m: Msg)
    requires Legal(s, acts) && i < |s.pcs| && About(s.pcs[i], m) && OneCall(acts, i)
    requires i < |Exec(s, acts).pcs| && Exec(s, acts).pcs[i].Idle?
    ensures Delivers(s, acts, i, m)
    decreases |acts|
  {
    hide Apply, Filter, Delivers, Enabled;
    if s.pcs[i].Idle? {
      IdleRun(s, acts, i, m);
    } else {
      assert acts != [];
      if acts[0].i != i {
        OtherStep(s, acts[0], i);
        DeliversRun(Apply(s, acts[0]), acts[1..], i, m);
        DeliversOther(s, acts, i, m);
      } else {
        OwnStep(s, i, m);
        DeliversRun(Apply(s, acts[0]), acts[1..], i, m);
        DeliversOwn(s, acts, i, m);
      }
    }
  }

  lemma DeliversOther(s: State, acts: seq<Action>, i: nat, m: Msg)
    requires Legal(s, acts) && acts != [] && i < |s.pcs| && acts[0].i != i
    requires i < |Apply(s, acts[0]).pcs| && Delivers(Apply(s, acts[0]), acts[1..], i, m)
    ensures Delivers(s, acts, i, m)
  {
    hide Apply, Filter, Enabled, VisitsRight;
    OtherStep(s, acts[0], i);
    var z := Apply(s, acts[0]);
    assert Lookups(s, acts, i) == Lookups(z, acts[1..], i) && Walks(s, acts, i) == Walks(z, acts[1..], i)
           && Loads(s, acts, i) == Loads(z, acts[1..], i);
  }

  lemma DeliversOwn(s: State, acts: seq<Action>, i: nat, m: Msg)
    requires Legal(s, acts) && acts != [] && i < |s.pcs| && acts[0] == Step(i) && Dispatching(s.pcs[i]) && s.pcs[i].msg == m
    requires i < |Apply(s, acts[0]).pcs| && Delivers(Apply(s, acts[0]), acts[1..], i, m)
    ensures Delivers(s, acts, i, m)
  {
    OwnStep(s, i, m);
    hide Apply, Filter, Enabled, VisitsRight, LookedAt, WalkedAt, LoadedAt, Next, Rest, AllLists, Visited, CallAll, Lookups, Walks, Loads,
         Exec;
    var pc, z := s.pcs[i], Apply(s, acts[0]);
    var later := Loads(z, acts[1..], i);
    VisitedMore(LoadedAt(s, pc), later);
    OwnVisits(s, pc, m, Lookups(z, acts[1..], i), Walks(z, acts[1..], i), Visited(later));
    OwnCalls(s, pc, i, m, Filter(s.calls, By(i)), later);
    Unrolled(s, acts, i);
  }

  lemma Unrolled(s: State, acts: seq<Action>, i: nat)
    requires Legal(s, acts) && acts != [] && i < |s.pcs| && acts[0] == Step(i)
    ensures var pc, z := s.pcs[i], Apply(s, acts[0]);
            && Exec(s, acts) == Exec(z, acts[1..])
            && Lookups(s, acts, i) == LookedAt(s, pc) + Lookups(z, acts[1..], i)
            && Walks(s, acts, i) == WalkedAt(s, pc) + Walks(z, acts[1..], i)
            && Loads(s, acts, i) == LoadedAt(s, pc) + Loads(z, acts[1..], i)
  {
    hide Apply, Enabled, LookedAt, WalkedAt, LoadedAt;
  }

  lemma {:induction false} VisitedMore(loads: seq<Load>, more: seq<Load>)
    requires |loads| <= 1
    ensures Visited(loads + more) == Visited(loads) + Visited(more)
  {
    if loads == [] { assert loads + more == more; } else { assert (loads + more)[1..] == more; }
  }

  /** Its calls, and those still to come. */
  lemma OwnCalls(s: State, pc: Pc, i: nat, m: Msg, before: seq<Call>, later: seq<Load>)
    requires Dispatching(pc)
    ensures before + (if Rest(pc) != [] then [Call(i, pc.list[0], m)] else []) + CallAll(i, m, Rest(Next(s, pc)) + AllLists(later))
            == before + CallAll(i, m, Rest(pc) + AllLists(LoadedAt(s, pc) + later))
  {
    hide Matched, ListOf, CallAll;
    if Rest(pc) != [] {
      assert LoadedAt(s, pc) + later == later;
      OneMoreCall(i, m, before, pc.list, AllLists(later));
    } else {
      ListsMore(s, pc, later);
      assert before + [] == before;
    }
  }

  lemma ListsMore(s: State, pc: Pc, later: seq<Load>)
    requires Dispatching(pc) && Rest(pc) == []
    ensures Rest(Next(s, pc)) + AllLists(later) == Rest(pc) + AllLists(LoadedAt(s, pc) + later)
  {
    hide Matched, ListOf;
    if pc.DList? && pc.todo != [] {
      var x := Load(pc.todo[0], ListOf(s, pc.todo[0]));
      assert ([x] + later)[1..] == later;
    } else {
      assert LoadedAt(s, pc) + later == later;
    }
  }

  /** What it visits, and what it has still to visit. */
  lemma OwnVisits(s: State, pc: Pc, m: Msg, lookups: seq<State>, walks: seq<State>, visited: seq<nat>)
    requires Dispatching(pc) && pc.msg == m && VisitsRight(Next(s, pc), m, lookups, walks, visited)
    ensures VisitsRight(pc, m, LookedAt(s, pc) + lookups, WalkedAt(s, pc) + walks, Visited(LoadedAt(s, pc)) + visited)
  {
    hide Matched, ListOf;
    match pc
    case DExact(_) =>
    case DTrie(_) =>
    case DList(_, todo, _) => if todo != [] { assert [todo[0]] + todo[1..] == todo; }
    case DRun(_, _, _, _) =>
  }

  // ---------- the whole of a dispatch ----------

  /** How often a walk over these entries visits slot k for the message. */
  ghost function WalkCount(items: seq<Item>, m: Msg, k: nat): nat {
    if items == [] then 0
    else
      var x := items[|items| - 1];
      WalkCount(items[..|items| - 1], m, k)
      + (if x.slot == k && x.tag == m.tag then TrieSpec.Visits(Split(m.topic), Split(x.pattern)) else 0)
  }

  /** The slots of a walk, each as often as it is visited. */
  ghost predicate WalkedSlots(items: seq<Item>, m: Msg, wild: seq<nat>) { forall k :: Count(wild, k) == WalkCount(items, m, k) }

  lemma {:induction false} MatchedCount(items: seq<Item>, m: Msg, k: nat)
    ensures Count(Matched(items, m), k) == WalkCount(items, m, k)
  {
    hide Split, TrieSpec.Visits, Copies;
    if items != [] {
      var before, x := items[..|items| - 1], items[|items| - 1];
      var more := if x.tag == m.tag then Copies(TrieSpec.Visits(Split(m.topic), Split(x.pattern)), x.slot) else [];
      MatchedCount(before, m, k);
      CountConcat(Matched(before, m), more, k);
      CopiesCount(TrieSpec.Visits(Split(m.topic), Split(x.pattern)), x.slot, k);
    }
  }

  /** A run in which thread i, and nobody else for it, dispatches m from the call to its return. */
  ghost predicate DispatchRun(s: State, i: nat, m: Msg, acts: seq<Action>) {
    && Enabled(s, Dispatch(i, m)) && Legal(Apply(s, Dispatch(i, m)), acts) && OneCall(acts, i)
    && var z := Exec(Apply(s, Dispatch(i, m)), acts); i < |z.pcs| && z.pcs[i].Idle?
  }

  /** In every interleaving a dispatch looks up the topic's slot once and loads the trie once, also
      when the topic has a slot. It visits that slot if it has the type, and then the slots of the
      loaded trie, each as often as the walk visits its pattern. Its calls are, list by list, the
      whole of each list it loaded, in order, and no other. */
  lemma DispatchDelivers(s: State, i: nat, m: Msg, acts: seq<Action>)
    requires DispatchRun(s, i, m, acts)
    ensures var y := Apply(s, Dispatch(i, m));
            var z, loads, lookups, walks := Exec(y, acts), Loads(y, acts, i), Lookups(y, acts, i), Walks(y, acts, i);
            && Filter(z.calls, By(i)) == Filter(s.calls, By(i)) + CallAll(i, m, AllLists(loads))
            && |lookups| == 1 && |walks| == 1
            && exists wild :: Visited(loads) == ExactSlot(lookups[0], m) + wild && WalkedSlots(walks[0].trie, m, wild)
  {
    hide Filter, Count, Matched, AllLists, Visited;
    var y := Apply(s, Dispatch(i, m));
    Begins(s, i, m);
    hide Apply, Enabled;
    DeliversRun(y, acts, i, m);
    var items := Walks(y, acts, i)[0].trie;
    forall k
      ensures Count(Matched(items, m), k) == WalkCount(items, m, k)
    {
      MatchedCount(items, m, k);
    }
    assert WalkedSlots(items, m, Matched(items, m));
    assert Rest(y.pcs[i]) + AllLists(Loads(y, acts, i)) == AllLists(Loads(y, acts, i));
  }

  lemma Begins(s: State, i: nat, m: Msg)
    requires Enabled(s, Dispatch(i, m))
    ensures var y := Apply(s, Dispatch(i, m)); i < |y.pcs| && y.pcs[i] == DExact(m) && y.calls == s.calls
  {}

  // ---------- each subscriber is called ----------

  /** The id is recorded, and listed in slot k. */
  ghost predicate Subscribed(s: State, id: nat, ask: Ask, k: nat) {
    && Inv(s) && ShapeInv(s) && AskOk(s, id, ask)
    && 1 <= id <= s.issued && id in s.info && Live(s, id, k)
  }

  /** As long as no unsubscribe of it is called. */
  lemma SubscribedStays(s: State, a: Action, id: nat, ask: Ask, k: nat)
    requires Subscribed(s, id, ask, k) && Enabled(s, a) && id !in Apply(s, a).past.leaving
    ensures Subscribed(Apply(s, a), id, ask, k)
  {
    StepInv(s, a);
    ShapeStep(s, a);
    AskStep(s, a, id, ask);
    IssuedStep(s, a);
    StaysRecorded(s, a, id);
    NotItsOwner(s, a, id);
    LiveStays(s, a, id, k);
  }

  lemma StaysRecorded(s: State, a: Action, id: nat)
    requires Inv(s) && Enabled(s, a) && id in s.info && id !in Apply(s, a).past.leaving
    ensures id in Apply(s, a).info
  {
    hide ArenaNext, TrieNext, Next, ArenaOk, MapOk, TrieOk, InfoOk, GoneOk, Exclusive, Owners, LiveOwned;
    assert PcOk(s, s.pcs[a.i]);
  }

  lemma NotItsOwner(s: State, a: Action, id: nat)
    requires Inv(s) && Enabled(s, a) && id in s.info
    ensures Owned(s.pcs[a.i]) != [id]
  {
    hide ArenaOk, MapOk, TrieOk, InfoOk, GoneOk, Exclusive, LiveOwned;
  }

  /** A list has it exactly once, or it is not its slot's. */
  lemma ListedOnce(s: State, id: nat, ask: Ask, k: nat, l: nat)
    requires Subscribed(s, id, ask, k)
    ensures Count(ListOf(s, l), id) == if l == k then 1 else 0
  {
    hide ShapeInv, AskOk, MapOk, TrieOk, InfoOk, GoneOk, PcsOk, PastOk, LiveOwned, Exclusive, Owners, Count, Filter;
    CountMember(ListOf(s, l), id);
    if l < |s.arena| {
      var x := s.arena[l];
      assert SlotOk(x, s.issued);
      FilterMember(x.added, NotIn(x.removed), id);
      FilterDistinct(x.added, NotIn(x.removed));
      OnceAtMost(x.subs, id);
    }
  }

  lemma LeavingGrows(s: State, a: Action)
    requires Enabled(s, a)
    ensures s.past.leaving <= Apply(s, a).past.leaving
  {
    PastGrows(s, a);
  }

  lemma {:induction false} LeavingRun(s: State, acts: seq<Action>)
    requires Legal(s, acts)
    ensures s.past.leaving <= Exec(s, acts).past.leaving
    decreases |acts|
  {
    hide Apply, Enabled;
    if acts != [] {
      LeavingGrows(s, acts[0]);
      LeavingRun(Apply(s, acts[0]), acts[1..]);
    }
  }

  /** Whenever thread i looks, the id is where it was; and it is once in what a visit of its slot
      loads, and in no other list. */
  lemma {:induction false} LoadsRun(s: State, acts: seq<Action>, i: nat, id: nat, ask: Ask, k: nat)
    requires Legal(s, acts) && Subscribed(s, id, ask, k) && id !in Exec(s, acts).past.leaving
    ensures Count(AllLists(Loads(s, acts, i)), id) == Count(Visited(Loads(s, acts, i)), k)
    ensures forall x :: x in Lookups(s, acts, i) || x in Walks(s, acts, i) ==> Subscribed(x, id, ask, k)
    decreases |acts|
  {
    hide Apply, Enabled, Subscribed, Count, AllLists, Visited, LookedAt, WalkedAt, LoadedAt;
    if acts == [] {
      NoLoads(id, k);
    } else {
      var z := Apply(s, acts[0]);
      LeavingRun(z, acts[1..]);
      SubscribedStays(s, acts[0], id, ask, k);
      LoadsRun(z, acts[1..], i, id, ask, k);
      if acts[0] == Step(i) {
        StepIndex(s, i);
        LooksHere(s, s.pcs[i]);
        OneLoad(s, s.pcs[i], Loads(z, acts[1..], i), id, ask, k);
      } else {
        assert Loads(s, acts, i) == Loads(z, acts[1..], i) && Lookups(s, acts, i) == Lookups(z, acts[1..], i)
               && Walks(s, acts, i) == Walks(z, acts[1..], i);
      }
    }
  }

  lemma StepIndex(s: State, i: nat)
    requires Enabled(s, Step(i))
    ensures i < |s.pcs|
  {}

  lemma NoLoads(id: nat, k: nat)
    ensures Count(AllLists([]), id) == Count(Visited([]), k) == 0
  {}

  lemma LooksHere(s: State, pc: Pc)
    ensures forall x :: x in LookedAt(s, pc) || x in WalkedAt(s, pc) ==> x == s
  {}

  lemma OneLoad(s: State, pc: Pc, later: seq<Load>, id: nat, ask: Ask, k: nat)
    requires Subscribed(s, id, ask, k) && Count(AllLists(later), id) == Count(Visited(later), k)
    ensures Count(AllLists(LoadedAt(s, pc) + later), id) == Count(Visited(LoadedAt(s, pc) + later), k)
  {
    hide Subscribed, Count, ListOf;
    if pc.DList? && pc.todo != [] {
      var l := pc.todo[0];
      assert ([Load(l, ListOf(s, l))] + later)[1..] == later;
      ListedOnce(s, id, ask, k, l);
      CountConcat(ListOf(s, l), AllLists(later), id);
      CountConcat([l], Visited(later), k);
      CountSingle(l, k);
    } else {
      assert LoadedAt(s, pc) + later == later;
    }
  }

  lemma CountSingle(x: nat, y: nat)
    ensures Count([x], y) == if x == y then 1 else 0
  {
    assert [x] == [] + [x];
    CountPush([], x, y);
  }

  // ---------- how often its slot is visited ----------

  /** How often a message reaches a subscription: once through the slot of its topic, or as often as
      the walk visits its pattern. */
  function Due(ask: Ask, m: Msg): nat {
    if ask.tag != m.tag then 0
    else match ask.target
         case Exact(tid) => if tid == m.tid then 1 else 0
         case Wild(pattern) => TrieSpec.Visits(Split(m.topic), Split(pattern))
  }

  /** An exact subscription is in the slot of its topic; a wildcard one in the slot of its entry. */
  lemma WhereItIs(x: State, id: nat, ask: Ask, k: nat)
    requires Subscribed(x, id, ask, k)
    ensures ask.target.Exact? ==> ask.target.tid in x.slots && x.slots[ask.target.tid] == k
    ensures ask.target.Wild? ==> exists j :: 0 <= j < |x.trie| && x.trie[j].id == id && x.trie[j].slot == k
                                             && x.trie[j].pattern == ask.target.pattern
    ensures k < |x.arena| && x.arena[k].tag == ask.tag
  {
    hide TrieOk, GoneOk, PcsOk, PastOk, LiveOwned, Exclusive, Owners, SlotOk;
    assert Home(x, id, ask.target);
    if ask.target.Wild? {
      var j :| 0 <= j < |x.trie| && x.trie[j].id == id && x.trie[j].pattern == ask.target.pattern;
      assert ItemOk(x, x.trie[j]) && id in x.arena[x.trie[j].slot].added;
    }
  }

  lemma ExactDue(x: State, id: nat, ask: Ask, k: nat, m: Msg)
    requires Subscribed(x, id, ask, k)
    ensures Count(ExactSlot(x, m), k) == if ask.target.Exact? then Due(ask, m) else 0
  {
    WhereItIs(x, id, ask, k);
    if ask.target.Wild? {
      var j :| 0 <= j < |x.trie| && x.trie[j].id == id && x.trie[j].slot == k;
      assert ItemOk(x, x.trie[j]);
    }
    InvParts(x);
    hide Inv, ShapeInv, AskOk, Count;
    if ExactSlot(x, m) != [] { CountSingle(x.slots[m.tid], k); } else { CountMember([], k); }
  }

  lemma WalkDue(x: State, id: nat, ask: Ask, k: nat, m: Msg)
    requires Subscribed(x, id, ask, k)
    ensures WalkCount(x.trie, m, k) == if ask.target.Wild? then Due(ask, m) else 0
  {
    WhereItIs(x, id, ask, k);
    var items := x.trie;
    forall l | 0 <= l < |items|
      ensures OwnSlot(x, items[l].id, items[l].slot)
    {
      assert ItemOk(x, items[l]);
    }
    if ask.target.Exact? {
      NotWalked(items, m, k);
    } else {
      var j :| 0 <= j < |items| && items[j].id == id && items[j].slot == k && items[j].pattern == ask.target.pattern;
      assert ItemOk(x, items[j]);
      hide Inv;
      WalkedOnce(items, m, k, j);
    }
  }

  lemma {:induction false} NotWalked(items: seq<Item>, m: Msg, k: nat)
    requires forall l :: 0 <= l < |items| ==> items[l].slot != k
    ensures WalkCount(items, m, k) == 0
  {
    if items != [] { NotWalked(items[..|items| - 1], m, k); }
  }

  lemma {:induction false} WalkedOnce(items: seq<Item>, m: Msg, k: nat, j: nat)
    requires j < |items| && items[j].slot == k && forall l :: 0 <= l < |items| && l != j ==> items[l].slot != k
    ensures WalkCount(items, m, k)
            == if items[j].tag == m.tag then TrieSpec.Visits(Split(m.topic), Split(items[j].pattern)) else 0
  {
    if j == |items| - 1 { NotWalked(items[..j], m, k); } else { WalkedOnce(items[..|items| - 1], m, k, j); }
  }

  // ---------- calls ----------

  lemma {:induction false} CountFilter<T>(xs: seq<T>, keep: T -> bool, x: T)
    requires keep(x)
    ensures Count(Filter(xs, keep), x) == Count(xs, x)
  {
    if xs != [] {
      CountFilter(xs[..|xs| - 1], keep, x);
      var before := Filter(xs[..|xs| - 1], keep);
      if keep(xs[|xs| - 1]) { CountPush(before, xs[|xs| - 1], x); } else { assert before + [] == before; }
    }
  }

  lemma {:induction false} CountCalls(i: nat, m: Msg, ids: seq<nat>, id: nat)
    ensures Count(CallAll(i, m, ids), Call(i, id, m)) == Count(ids, id)
  {
    if ids != [] {
      var before := ids[..|ids| - 1];
      CountCalls(i, m, before, id);
      assert CallAll(i, m, ids)[..|ids| - 1] == CallAll(i, m, before);
    }
  }

  /** Every subscription whose subscribe has returned before a dispatch begins, and of which no
      unsubscribe is called before it ends, is called by it exactly as often as it is due, whatever
      other threads do. */
  lemma EverySubscriberIsCalled(s0: State, first: seq<Action>, i: nat, m: Msg, acts: seq<Action>, id: nat)
    requires Init(s0) && Legal(s0, first) && DispatchRun(Exec(s0, first), i, m, acts)
    requires id in Exec(s0, first).past.subscribed
    requires id !in Exec(Apply(Exec(s0, first), Dispatch(i, m)), acts).past.leaving
    ensures var s, asks := Exec(s0, first), Asks(map[], s0, first);
            var z := Exec(Apply(s, Dispatch(i, m)), acts);
            id in asks && Count(z.calls, Call(i, id, m)) == Count(s.calls, Call(i, id, m)) + Due(asks[id], m)
  {
    var s, asks := Exec(s0, first), Asks(map[], s0, first);
    var y := Apply(s, Dispatch(i, m));
    InitShaped(s0);
    ShapedRun(map[], s0, first);
    LeavingRun(y, acts);
    LeavingGrows(s, Dispatch(i, m));
    var k := RecordedSomewhere(asks, s, id);
    CalledAsDue(s, i, m, acts, id, asks[id], k);
  }

  lemma RecordedSomewhere(asks: map<nat, Ask>, s: State, id: nat) returns (k: nat)
    requires Shaped(asks, s) && id in s.past.subscribed && id !in s.past.leaving
    ensures id in asks && Subscribed(s, id, asks[id], k)
  {
    hide ShapeInv, AskOk, ArenaOk, MapOk, TrieOk, GoneOk, PcsOk, LiveOwned, Exclusive;
    assert Home(s, id, s.info[id]);
    match s.info[id]
    case Exact(tid) => k := s.slots[tid];
    case Wild(_) =>
      var j :| 0 <= j < |s.trie| && s.trie[j].id == id && Live(s, id, s.trie[j].slot);
      k := s.trie[j].slot;
  }

  lemma CalledAsDue(s: State, i: nat, m: Msg, acts: seq<Action>, id: nat, ask: Ask, k: nat)
    requires DispatchRun(s, i, m, acts) && Subscribed(s, id, ask, k)
    requires id !in Exec(Apply(s, Dispatch(i, m)), acts).past.leaving
    ensures Count(Exec(Apply(s, Dispatch(i, m)), acts).calls, Call(i, id, m)) == Count(s.calls, Call(i, id, m)) + Due(ask, m)
  {
    hide Apply, Enabled, Subscribed, Count, Filter, AllLists, Visited, CallAll, WalkCount, Due, ExactSlot;
    var y, c := Apply(s, Dispatch(i, m)), Call(i, id, m);
    var z, loads := Exec(y, acts), Loads(y, acts, i);
    LeavingRun(y, acts);
    SubscribedStays(s, Dispatch(i, m), id, ask, k);
    LoadsRun(y, acts, i, id, ask, k);
    DispatchDelivers(s, i, m, acts);
    var x, w := Lookups(y, acts, i)[0], Walks(y, acts, i)[0];
    var wild :| Visited(loads) == ExactSlot(x, m) + wild && WalkedSlots(w.trie, m, wild);
    ExactDue(x, id, ask, k, m);
    WalkDue(w, id, ask, k, m);
    CountConcat(ExactSlot(x, m), wild, k);
    CountFilter(z.calls, By(i), c);
    CountFilter(s.calls, By(i), c);
    CountConcat(Filter(s.calls, By(i)), CallAll(i, m, AllLists(loads)), c);
    CountCalls(i, m, AllLists(loads), id);
  }

  // ---------- a dispatch left alone ends ----------

  function Stage(pc: Pc): nat {
    match pc
    case DExact(_) => 4
    case DTrie(_) => 2
    case DList(_, _, wild) => if wild then 1 else 3
    case DRun(_, _, wild, _) => if wild then 1 else 3
    case _ => 0
  }

  lemma DispatchMoves(s: State, i: nat)
    requires i < |s.pcs| && Dispatching(s.pcs[i])
    ensures Enabled(s, Step(i))
    ensures var pc, pc' := s.pcs[i], Next(s, s.pcs[i]);
            && i < |Apply(s, Step(i)).pcs| && Apply(s, Step(i)).pcs[i] == pc' && (pc'.Idle? || Dispatching(pc'))
            && (Stage(pc') < Stage(pc) || (Stage(pc') == Stage(pc) && (|Todo(pc')| < |Todo(pc)|
                || (|Todo(pc')| == |Todo(pc)| && (if pc'.DRun? then 1 + |pc'.list| else 0) < (if pc.DRun? then 1 + |pc.list| else 0)))))
  {
    hide ArenaNext, TrieNext, InfoNext, Matched, ListOf;
  }

  /** From any state a dispatching thread can go on to its end by itself, waiting for no lock. */
  lemma {:induction false} DispatchEnds(s: State, i: nat) returns (acts: seq<Action>)
    requires i < |s.pcs| && (s.pcs[i].Idle? || Dispatching(s.pcs[i]))
    ensures Legal(s, acts) && forall n :: 0 <= n < |acts| ==> acts[n] == Step(i)
    ensures i < |Exec(s, acts).pcs| && Exec(s, acts).pcs[i].Idle?
    decreases Stage(s.pcs[i]), |Todo(s.pcs[i])|, if s.pcs[i].DRun? then 1 + |s.pcs[i].list| else 0
  {
    hide Apply, Enabled, Next, Stage, Todo;
    acts := [];
    if !s.pcs[i].Idle? {
      DispatchMoves(s, i);
      var more := DispatchEnds(Apply(s, Step(i)), i);
      acts := [Step(i)] + more;
      assert acts[1..] == more;
    }
  }
}
