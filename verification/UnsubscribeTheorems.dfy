/** When an unsubscribe that has returned can be relied on: exactly which ids no dispatch will ever
    find in a list again. */
module UnsubscribeTheorems {
  import opened Seqs
  import opened TopicLevels
  import opened SubscriptionProtocol
  import opened SubscriptionProofs
  import opened SubscriptionTheorems
  import opened SubscriptionProgress
  import TrieSpec

  /** Some dispatch is about to load a list with this id in it. */
  ghost predicate AboutToLoad(s: State, id: nat) {
    exists j :: 0 <= j < |s.pcs| && s.pcs[j].DList? && s.pcs[j].todo != [] && id in ListOf(s, s.pcs[j].todo[0])
  }

  /** In no continuation does a dispatch load a list with this id in it. */
  ghost predicate NeverLoaded(s: State, id: nat) {
    forall acts :: Legal(s, acts) ==> !AboutToLoad(Exec(s, acts), id)
  }

  /** A call that has the id listed, or can still list it: an unsubscribe before it publishes the
      shortened list, or a subscribe that has not returned and need not end in an error. */
  ghost predicate AtWork(s: State, id: nat) {
    exists j :: 0 <= j < |s.pcs| && Owned(s.pcs[j]) == [id] && !s.pcs[j].UTrie? && !s.pcs[j].UReturn? && !Doomed(s, j)
  }

  ghost predicate Settled(s: State, id: nat) { id <= s.issued && id !in s.info && !AtWork(s, id) }

  // ---------- a settled id stays unlisted ----------

  lemma SettledUnlisted(s: State, id: nat)
    requires Inv(s) && Settled(s, id)
    ensures forall k :: id !in ListOf(s, k)
  {
    hide Inv, Live;
    forall k
      ensures id !in ListOf(s, k)
    {
      if id in ListOf(s, k) {
        ArenaIsOk(s);
        ListedIsLive(s, id, k);
        LiveAtWork(s, id, k);
      }
    }
  }

  lemma ArenaIsOk(s: State)
    requires Inv(s)
    ensures ArenaOk(s)
  {}

  lemma LiveAtWork(s: State, id: nat, k: nat)
    requires Inv(s) && Live(s, id, k)
    ensures id in s.info || AtWork(s, id)
  {
    hide Live, Fresh, Dead, TrieOk, MapOk, GoneOk, InfoOk, Exclusive, PastOk, Foreign;
    NotBoth(s, id, k);
    if id !in s.info {
      var j :| 0 <= j < |s.pcs| && Owned(s.pcs[j]) == [id];
      assert PcOk(s, s.pcs[j]);
    }
  }

  lemma ListedIsLive(s: State, id: nat, k: nat)
    requires ArenaOk(s) && id in ListOf(s, k)
    ensures Live(s, id, k)
  {
    assert SlotOk(s.arena[k], s.issued);
    FilterMember(s.arena[k].added, NotIn(s.arena[k].removed), id);
  }

  /** Settled ids stay settled, whatever anybody does. */
  lemma SettledStays(s: State, a: Action, id: nat)
    requires Inv(s) && Enabled(s, a) && Settled(s, id)
    ensures Settled(Apply(s, a), id)
  {
    hide ArenaNext, TrieNext, Next, Fresh, Live, Dead, InTrie, Matched, HoldsTrie, Foreign, Anchored;
    var z := Apply(s, a);
    OwnerAtWork(s, id, a.i);
    OwnedNext(s, s.pcs[a.i]);
    forall j | 0 <= j < |z.pcs| && Owned(z.pcs[j]) == [id]
      ensures z.pcs[j].UTrie? || z.pcs[j].UReturn? || Doomed(z, j)
    {
      OwnerAtWork(s, id, j);
      if j != a.i {
        SamePcs(s, a);
        if Doomed(s, j) { DoomStays(s, a, j); }
      } else {
        SettledOwnStep(s, a, id);
      }
    }
  }

  lemma OwnerAtWork(s: State, id: nat, j: nat)
    requires !AtWork(s, id)
    ensures j < |s.pcs| && Owned(s.pcs[j]) == [id] ==> s.pcs[j].UTrie? || s.pcs[j].UReturn? || Doomed(s, j)
  {}

  lemma DoomStays(s: State, a: Action, j: nat)
    requires Inv(s) && Enabled(s, a) && j < |s.pcs| && j != a.i && Doomed(s, j)
    ensures j < |Apply(s, a).pcs| && Doomed(Apply(s, a), j)
  {
    hide Inv, Apply, Enabled, Foreign;
    SamePcs(s, a);
    ForeignStays(s, a, j, s.pcs[j].tid, s.pcs[j].tag);
  }

  /** The call that works on a settled id only finishes, or fails. */
  lemma SettledOwnStep(s: State, a: Action, id: nat)
    requires Inv(s) && Enabled(s, a) && Settled(s, id) && Owned(Apply(s, a).pcs[a.i]) == [id]
    ensures var pc := Apply(s, a).pcs[a.i]; pc.UTrie? || pc.UReturn? || Doomed(Apply(s, a), a.i)
  {
    hide TrieNext, ArenaOk, TrieOk, InfoOk, GoneOk, PastOk, LiveOwned, Fresh, Live, Dead, InTrie, Anchored, Matched;
    var pc, z := s.pcs[a.i], Apply(s, a);
    OwnedNext(s, pc);
    assert a.Step? && Owned(pc) == [id];
    OwnerAtWork(s, id, a.i);
    if pc.SLookup? && pc.tid !in s.slots {
      var h: nat :| h < |s.pcs| && h != a.i && HoldsSlots(s.pcs[h]) && s.pcs[h].tid == pc.tid && s.pcs[h].tag != pc.tag;
      assert z.pcs[h] == s.pcs[h];
    }
  }

  /** No continuation loads a list with a settled id. */
  lemma {:induction false} SettledRun(s: State, acts: seq<Action>, id: nat)
    requires Inv(s) && Settled(s, id) && Legal(s, acts)
    ensures !AboutToLoad(Exec(s, acts), id)
    decreases |acts|
  {
    hide Inv, Apply, Enabled, Settled, ListOf;
    if acts == [] {
      SettledUnlisted(s, id);
    } else {
      SettledStays(s, acts[0], id);
      StepInv(s, acts[0]);
      SettledRun(Apply(s, acts[0]), acts[1..], id);
    }
  }

  /** Nor does any thread call it, except one that had loaded a list with it before. */
  lemma {:induction false} SettledNeverCalled(s: State, acts: seq<Action>, id: nat, i: nat)
    requires Inv(s) && Settled(s, id) && Legal(s, acts) && i < |s.pcs| && !MayCall(s.pcs[i], id)
    ensures var z := Exec(s, acts);
            i < |z.pcs| && !MayCall(z.pcs[i], id) && CallsOf(z.calls, i, id) == CallsOf(s.calls, i, id)
    decreases |acts|
  {
    hide Inv, Apply, Enabled, Settled, ListOf, MayCall, CallsOf;
    if acts != [] {
      SettledUnlisted(s, id);
      UnlistedStep(s, acts[0], id, i);
      SettledStays(s, acts[0], id);
      StepInv(s, acts[0]);
      SamePcs(s, acts[0]);
      SettledNeverCalled(Apply(s, acts[0]), acts[1..], id, i);
    }
  }

  // ---------- an id that is not settled can be loaded ----------

  /** A dispatching thread changes nothing but itself. */
  lemma DispatcherStep(s: State, i: nat) returns (z: State)
    requires Inv(s) && i < |s.pcs| && (s.pcs[i].DExact? || s.pcs[i].DTrie? || s.pcs[i].DList? || s.pcs[i].DRun?)
    ensures Reaches(s, z) && Inv(z) && |z.pcs| == |s.pcs| && z.pcs[i] == Next(s, s.pcs[i])
    ensures z.arena == s.arena && z.slots == s.slots && z.trie == s.trie
  {
    assert Enabled(s, Step(i));
    z := Advance(s, i);
  }

  /** Through the list it has loaded. */
  lemma {:induction false} Drain(s: State, i: nat) returns (z: State)
    requires Inv(s) && i < |s.pcs| && s.pcs[i].DRun?
    ensures Reaches(s, z) && Inv(z) && |z.pcs| == |s.pcs| && z.arena == s.arena
    ensures z.pcs[i] == DList(s.pcs[i].msg, s.pcs[i].todo, s.pcs[i].wild)
    decreases |s.pcs[i].list|
  {
    hide Inv, Reaches, Apply, Enabled;
    z := DispatcherStep(s, i);
    if s.pcs[i].list != [] {
      var w := Drain(z, i);
      ReachesThrough(s, z, w);
      z := w;
    }
  }

  /** On to slot k, which it is going to visit. */
  lemma {:induction false} WalkTo(s: State, i: nat, k: nat, id: nat) returns (z: State)
    requires Inv(s) && i < |s.pcs| && s.pcs[i].DList? && k in s.pcs[i].todo && id in ListOf(s, k)
    ensures Reaches(s, z) && AboutToLoad(z, id)
    decreases if s.pcs[i].DList? then |s.pcs[i].todo| else 0
  {
    hide Inv, Reaches, Apply, Enabled;
    if s.pcs[i].todo[0] == k {
      ReachesItself(s);
      z := s;
    } else {
      var x := DispatcherStep(s, i);
      var y := Drain(x, i);
      ReachesThrough(s, x, y);
      z := WalkTo(y, i, k, id);
      ReachesThrough(s, y, z);
    }
  }

  lemma CallDispatch(s: State, i: nat, m: Msg) returns (z: State)
    requires Inv(s) && i < |s.pcs| && s.pcs[i].Idle?
    ensures Reaches(s, z) && Inv(z) && |z.pcs| == |s.pcs| && z.pcs[i] == DExact(m)
    ensures z.arena == s.arena && z.slots == s.slots && z.trie == s.trie
  {
    z := Apply(s, Dispatch(i, m));
    ReachesStep(s, Dispatch(i, m));
  }

  /** A message for the topic, or for the pattern read as a topic, reaches the subscription. */
  lemma DispatchFinds(s: State, i: nat, id: nat, target: Target) returns (z: State)
    requires Inv(s) && i < |s.pcs| && s.pcs[i].Idle? && Home(s, id, target)
    ensures Reaches(s, z) && AboutToLoad(z, id)
  {
    ArenaIsOk(s);
    HomeIsReachable(s, id, target);
    hide Inv, Reaches, Home, Apply, Enabled, ArenaNext, TrieNext;
    if target.Exact? {
      var k := s.slots[target.tid];
      var x := CallDispatch(s, i, Msg(target.tid, TagOf(s, k), ""));
      z := DispatcherStep(x, i);
      assert z.pcs[i].todo == [k];
      ReachesThrough(s, x, z);
    } else {
      var j: nat :| j < |s.trie| && s.trie[j].id == id && id in ListOf(s, s.trie[j].slot);
      z := WalkFinds(s, i, id, j);
    }
  }

  lemma WalkFinds(s: State, i: nat, id: nat, j: nat) returns (z: State)
    requires Inv(s) && i < |s.pcs| && s.pcs[i].Idle?
    requires j < |s.trie| && s.trie[j].id == id && id in ListOf(s, s.trie[j].slot)
    ensures Reaches(s, z) && AboutToLoad(z, id)
  {
    hide Inv, Reaches, Apply, Enabled, Matched;
    var tid := NewTopic(s.slots.Keys);
    var m := Msg(tid, s.trie[j].tag, s.trie[j].pattern);
    var w := CallDispatch(s, i, m);
    var x := DispatcherStep(w, i);
    assert x.pcs[i] == DTrie(m);
    var y := DispatcherStep(x, i);
    MatchedHas(s.trie, m, j);
    z := WalkTo(y, i, s.trie[j].slot, id);
    ReachesThrough(s, w, x);
    ReachesThrough(s, x, y);
    ReachesThrough(s, y, z);
  }

  /** A topic without a slot. */
  lemma NewTopic(tids: set<nat>) returns (tid: nat)
    ensures tid !in tids && forall t :: t in tids ==> t < tid
    decreases tids
  {
    tid := 0;
    if tids != {} {
      var t :| t in tids;
      var other := NewTopic(tids - {t});
      tid := if t < other then other else t + 1;
      assert forall x :: x in tids ==> x == t || x in tids - {t};
    }
  }

  lemma {:induction false} VisitsSelf(levels: seq<string>)
    ensures TrieSpec.Visits(levels, levels) >= 1
    decreases |levels|
  {
    if levels != [] { VisitsSelf(levels[1..]); }
  }

  lemma {:induction false} MatchedHas(items: seq<Item>, m: Msg, j: nat)
    requires j < |items| && items[j].tag == m.tag && items[j].pattern == m.topic
    ensures items[j].slot in Matched(items, m)
  {
    if j == |items| - 1 {
      VisitsSelf(Split(m.topic));
      assert Copies(TrieSpec.Visits(Split(m.topic), Split(items[j].pattern)), items[j].slot)[0] == items[j].slot;
    } else {
      MatchedHas(items[..|items| - 1], m, j);
    }
  }

  // ---------- a subscribe can always be finished ----------

  /** Steps until the subscription is where dispatch finds it. */
  function Rank(pc: Pc): nat {
    match pc
    case SLookup(_, _, _) => 9
    case SLock(_, _, _) => 8
    case SCheck(_, _, _) => 7
    case SMake(_, _, _, _) => 6
    case SAdd(_, _, _) => 5
    case SCopy(_, _, _) => 4
    case SPut(_, _, _, _) => 3
    case WLock(_, _, _) => 3
    case WCopy(_, _, _) => 2
    case WPut(_, _, _, _) => 1
    case _ => 0
  }

  predicate Working(pc: Pc) { Owned(pc) != [] && !pc.UTrie? && !pc.UReturn? }

  lemma AlreadyHome(s: State, j: nat)
    requires Inv(s) && j < |s.pcs| && Working(s.pcs[j]) && Rank(s.pcs[j]) == 0
    ensures exists target :: Home(s, s.pcs[j].id, target)
  {
    hide ArenaOk, TrieOk, InfoOk, GoneOk, Exclusive, Owners, PastOk, LiveOwned, Live;
    var pc := s.pcs[j];
    assert PcOk(s, pc);
    if pc.SRecord? {
      assert Home(s, pc.id, pc.target);
    } else if pc.UFind? {
      assert Home(s, pc.id, Exact(pc.tid));
    } else if pc.UTrieLock? || pc.UTrieFind? {
      assert Home(s, pc.id, Wild(""));
    } else if pc.base.Trie? {
      AnchoredInTrie(s, pc.id, pc.slot, pc.base);
      assert Home(s, pc.id, Wild(""));
    } else {
      var tid :| tid in s.slots && s.slots[tid] == pc.slot;
      assert Home(s, pc.id, Exact(tid));
    }
  }

  lemma AnchoredInTrie(s: State, id: nat, k: nat, base: Base)
    requires Anchored(s, id, k, base) && base.Trie? && Live(s, id, k)
    ensures InTrie(s, id)
  {}

  /** Whatever lock thread j waits for is given to it. */
  lemma Unblock(s: State, j: nat, i: nat) returns (z: State)
    requires Inv(s) && j < |s.pcs| && i < |s.pcs| && Rank(s.pcs[j]) > 0 && !Doomed(s, j) && s.pcs[i].Idle?
    ensures Reaches(s, z) && Inv(z) && |z.pcs| == |s.pcs| && z.pcs[j] == s.pcs[j] && z.pcs[i].Idle?
    ensures Enabled(z, Step(j)) && !Doomed(z, j)
  {
    hide Inv, Apply, Foreign;
    ReachesItself(s);
    match s.pcs[j]
    case SLock(_, _, _) => z := FreeMap(s, j);
    case SAdd(_, k, _) => z := FreeSlot(s, k);
    case WLock(_, _, _) => z := FreeTrie(s);
    case _ => z := s;
  }

  /** A subscribe that is not doomed does not become so by its own steps. */
  lemma OwnProgress(s: State, j: nat)
    requires Inv(s) && Enabled(s, Step(j)) && Rank(s.pcs[j]) > 0 && !Doomed(s, j)
    ensures var z := Apply(s, Step(j));
            && Working(z.pcs[j]) && z.pcs[j].id == s.pcs[j].id && Rank(z.pcs[j]) < Rank(s.pcs[j]) && !Doomed(z, j)
  {
    hide TrieNext, InfoNext, ArenaOk, TrieOk, InfoOk, GoneOk, Owners, PastOk, LiveOwned, Live, Fresh, Dead, InTrie, HoldsTrie, Matched;
    var pc, z := s.pcs[j], Apply(s, Step(j));
    assert PcOk(s, pc);
    forall h | 0 <= h < |z.pcs| && h != j
      ensures z.pcs[h] == s.pcs[h]
    {}
  }

  lemma {:induction false} Finish(s: State, j: nat, i: nat) returns (z: State)
    requires Inv(s) && j < |s.pcs| && i < |s.pcs| && s.pcs[i].Idle? && Working(s.pcs[j]) && !Doomed(s, j)
    ensures Reaches(s, z) && Inv(z) && i < |z.pcs| && z.pcs[i].Idle? && exists target :: Home(z, s.pcs[j].id, target)
    decreases Rank(s.pcs[j])
  {
    hide Inv, Reaches, Apply, Enabled, Home, Next, Foreign;
    if Rank(s.pcs[j]) == 0 {
      AlreadyHome(s, j);
      ReachesItself(s);
      z := s;
    } else {
      var x := Unblock(s, j, i);
      OwnProgress(x, j);
      var y := Advance(x, j);
      z := Finish(y, j, i);
      ReachesThrough(s, x, y);
      ReachesThrough(s, y, z);
    }
  }

  // ---------- an id not handed out yet will be ----------

  lemma CallSubscribe(s: State, i: nat) returns (z: State)
    requires Inv(s) && i < |s.pcs| && s.pcs[i].Idle?
    ensures Reaches(s, z) && Inv(z) && |z.pcs| == |s.pcs| && z.issued == s.issued + 1
    ensures z.pcs[i].WLock? && z.pcs[i].id == z.issued
  {
    z := Apply(s, Subscribe(i, Wild(""), 0));
    ReachesStep(s, Subscribe(i, Wild(""), 0));
  }

  /** From the trie's lock to the return of subscribe. */
  lemma FinishWild(s: State, i: nat) returns (z: State)
    requires Inv(s) && i < |s.pcs| && s.pcs[i].WLock? && TrieFree(s.pcs)
    ensures Reaches(s, z) && Inv(z) && i < |z.pcs| && z.pcs[i].Idle? && z.issued == s.issued && s.pcs[i].id in z.info
  {
    hide Inv, Reaches, ArenaNext, TrieNext, ListOf, Matched, SlotOf, TrieFree, SlotFree;
    assert Enabled(s, Step(i)) by { AsWaiter(s, i); }
    var v := Advance(s, i);
    var w := Advance(v, i);
    var x := Advance(w, i);
    z := Advance(x, i);
    ReachesThrough(s, v, w);
    ReachesThrough(s, w, x);
    ReachesThrough(s, x, z);
  }

  lemma AsWaiter(s: State, i: nat)
    requires i < |s.pcs| && s.pcs[i].WLock? && TrieFree(s.pcs)
    ensures Enabled(s, Step(i))
  {}

  lemma SubscribeOnce(s: State, i: nat) returns (z: State)
    requires Inv(s) && i < |s.pcs| && s.pcs[i].Idle?
    ensures Reaches(s, z) && Inv(z) && i < |z.pcs| && z.pcs[i].Idle? && z.issued == s.issued + 1 && z.issued in z.info
  {
    hide Inv, Reaches, Apply, Enabled, HoldsTrie;
    var x := CallSubscribe(s, i);
    assert !HoldsTrie(x.pcs[i]) by { NotHolding(x.pcs[i]); }
    var y := FreeTrie(x);
    z := FinishWild(y, i);
    ReachesThrough(s, x, y);
    ReachesThrough(s, y, z);
  }

  lemma NotHolding(pc: Pc)
    requires pc.WLock?
    ensures !HoldsTrie(pc)
  {}

  lemma {:induction false} Issue(s: State, i: nat, id: nat) returns (z: State)
    requires Inv(s) && i < |s.pcs| && s.pcs[i].Idle? && s.issued < id
    ensures Reaches(s, z) && Inv(z) && i < |z.pcs| && z.pcs[i].Idle? && id in z.info
    decreases id - s.issued
  {
    hide Inv, Reaches, Apply, Enabled;
    z := SubscribeOnce(s, i);
    if z.issued < id {
      var w := Issue(z, i, id);
      ReachesThrough(s, z, w);
      z := w;
    }
  }

  // ---------- the exact condition ----------

  lemma RecordedHome(s: State, id: nat)
    requires Inv(s) && id in s.info
    ensures Home(s, id, s.info[id])
  {}

  lemma UnsettledLoads(s: State, id: nat, i: nat) returns (z: State)
    requires Inv(s) && i < |s.pcs| && s.pcs[i].Idle? && !Settled(s, id)
    ensures Reaches(s, z) && AboutToLoad(z, id)
  {
    hide Inv, Reaches, Home, Apply, Enabled, Doomed;
    ReachesItself(s);
    var y, target := s, Wild("");
    if id in s.info {
      RecordedHome(s, id);
      target := s.info[id];
    } else if s.issued < id {
      y := Issue(s, i, id);
      RecordedHome(y, id);
      target := y.info[id];
    } else {
      var j: nat :| j < |s.pcs| && Owned(s.pcs[j]) == [id] && !s.pcs[j].UTrie? && !s.pcs[j].UReturn? && !Doomed(s, j);
      OwnedIsId(s.pcs[j], id);
      y := Finish(s, j, i);
      target :| Home(y, id, target);
    }
    z := DispatchFinds(y, i, id, target);
    ReachesThrough(s, y, z);
  }

  lemma OwnedIsId(pc: Pc, id: nat)
    requires Owned(pc) == [id]
    ensures pc.id == id
  {}

  /** In every reachable state with an idle thread: no continuation ever loads a list with this id
      in it if and only if the id has been handed out, is not recorded, and no call is at work on it. */
  lemma NeverLoadedIff(s: State, id: nat, i: nat)
    requires Inv(s) && i < |s.pcs| && s.pcs[i].Idle?
    ensures NeverLoaded(s, id) <==> Settled(s, id)
  {
    hide Inv, Settled, AboutToLoad, Apply, Enabled;
    if Settled(s, id) {
      forall acts | Legal(s, acts)
        ensures !AboutToLoad(Exec(s, acts), id)
      {
        SettledRun(s, acts, id);
      }
    } else {
      var z := UnsettledLoads(s, id, i);
      var acts :| Legal(s, acts) && Exec(s, acts) == z;
    }
  }

  // ---------- the two ways unsubscribe returns ----------

  /** Having found and removed the id, it can be relied on without condition. */
  lemma FoundReturn(s: State, i: nat)
    requires Inv(s) && i < |s.pcs| && s.pcs[i].UReturn?
    ensures Enabled(s, Step(i))
    ensures var z, id := Apply(s, Step(i)), s.pcs[i].id;
            Inv(z) && z.pcs[i].Idle? && id in z.past.returned && NeverLoaded(z, id)
  {
    StepInv(s, Step(i));
    ReturnedIsSettled(s, i);
    NeverLoadedIff(Apply(s, Step(i)), s.pcs[i].id, i);
  }

  lemma ReturnedIsSettled(s: State, i: nat)
    requires Inv(s) && i < |s.pcs| && s.pcs[i].UReturn?
    ensures Settled(Apply(s, Step(i)), s.pcs[i].id)
  {
    hide ArenaOk, TrieOk, InfoOk, GoneOk, Exclusive, PastOk, LiveOwned, Dead, Doomed;
    assert Owned(s.pcs[i]) == [s.pcs[i].id];
  }

  /** Having found nothing recorded, it returns at once, and can be relied on if and only if the id
      has been handed out and no other call is at work on it. */
  lemma NotFoundReturn(s: State, i: nat)
    requires Inv(s) && i < |s.pcs| && s.pcs[i].UErase? && s.pcs[i].id !in s.info
    ensures Enabled(s, Step(i))
    ensures var z, id := Apply(s, Step(i)), s.pcs[i].id;
            && Inv(z) && z.pcs[i].Idle? && id in z.past.returned
            && (NeverLoaded(z, id) <==> id <= s.issued && !AtWork(s, id))
  {
    StepInv(s, Step(i));
    NeverLoadedIff(Apply(s, Step(i)), s.pcs[i].id, i);
    SameWork(s, i, s.pcs[i].id);
  }

  lemma SameWork(s: State, i: nat, id: nat)
    requires i < |s.pcs| && s.pcs[i].UErase? && s.pcs[i].id !in s.info
    ensures var z := Apply(s, Step(i)); z.issued == s.issued && z.info == s.info && (AtWork(s, id) <==> AtWork(z, id))
  {
    hide Foreign;
    var z := Apply(s, Step(i));
    assert z.pcs[i] == Idle && Owned(s.pcs[i]) == Owned(z.pcs[i]) == [];
    forall j | 0 <= j < |s.pcs| && j != i
      ensures z.pcs[j] == s.pcs[j] && (Doomed(s, j) <==> Doomed(z, j))
    {
      SameForeign(s, z, i, j, s.pcs[j]);
    }
  }

  lemma SameForeign(s: State, z: State, i: nat, j: nat, pc: Pc)
    requires i < |s.pcs| == |z.pcs| && !HoldsSlots(s.pcs[i]) && !HoldsSlots(z.pcs[i])
    requires z.slots == s.slots && z.arena == s.arena && forall h :: 0 <= h < |s.pcs| && h != i ==> z.pcs[h] == s.pcs[h]
    ensures pc.SLookup? || pc.SLock? || pc.SCheck? ==> (Foreign(s, j, pc.tid, pc.tag) <==> Foreign(z, j, pc.tid, pc.tag))
  {
    if pc.SLookup? || pc.SLock? || pc.SCheck? {
      assert forall h :: 0 <= h < |s.pcs| && HoldsSlots(s.pcs[h]) ==> z.pcs[h] == s.pcs[h];
      assert forall h :: 0 <= h < |s.pcs| && HoldsSlots(z.pcs[h]) ==> z.pcs[h] == s.pcs[h];
    }
  }

  // ---------- a run in which it cannot be relied on ----------

  predicate RestIdle(s: State) { forall t :: 1 <= t < |s.pcs| ==> s.pcs[t].Idle? }

  /** Thread 0 alone moves. */
  lemma Solo(s: State) returns (z: State)
    requires Inv(s) && s.pcs != [] && Owned(s.pcs[0]) != [] && RestIdle(s)
    ensures z.pcs != [] && |z.pcs| == |s.pcs| && Reaches(s, z) && Inv(z) && RestIdle(z) && z.pcs[0] == Next(s, s.pcs[0])
    ensures z.arena == ArenaNext(s, s.pcs[0]) && z.info == InfoNext(s, s.pcs[0]) && z.calls == s.calls
    ensures z.slots == if s.pcs[0].SMake? then s.pcs[0].slots[s.pcs[0].tid := |s.arena|] else s.slots
  {
    assert Enabled(s, Step(0)) by { SoloEnabled(s); }
    hide Inv, Next, ArenaNext, TrieNext, InfoNext;
    z := Advance(s, 0);
  }

  lemma SoloEnabled(s: State)
    requires s.pcs != [] && !s.pcs[0].Idle? && RestIdle(s)
    ensures Enabled(s, Step(0))
  {}

  /** Thread 0 calls subscribe for topic 7 on a new bus, and finds no slot. */
  lemma LooksUp(s: State) returns (z: State)
    requires Init(s) && |s.pcs| >= 3
    ensures Reaches(s, z) && Inv(z) && |z.pcs| == |s.pcs| && RestIdle(z) && z.pcs[0] == SCheck(1, 7, 1)
    ensures z.info == map[] && z.slots == map[] && z.arena == [] && z.calls == []
  {
    InitInv(s);
    var v := Apply(s, Subscribe(0, Exact(7), 1));
    ReachesStep(s, Subscribe(0, Exact(7), 1));
    hide Inv, Reaches, Apply, Enabled, TrieNext;
    var w := Solo(v);
    z := Solo(w);
    ReachesThrough(s, v, w);
    ReachesThrough(s, w, z);
  }

  /** And makes the slot. */
  lemma MakesSlot(s: State) returns (z: State)
    requires Init(s) && |s.pcs| >= 3
    ensures Reaches(s, z) && Inv(z) && |z.pcs| == |s.pcs| && RestIdle(z) && z.pcs[0] == SAdd(1, 0, 7)
    ensures z.info == map[] && z.slots == map[7 := 0] && z.arena == [Slot(1, [], [], {})] && z.calls == []
  {
    hide Inv, Reaches, Apply, Enabled, TrieNext;
    var x := LooksUp(s);
    var y := Solo(x);
    z := Solo(y);
    ReachesThrough(s, x, y);
    ReachesThrough(s, y, z);
  }

  /** And is listed in it. */
  lemma Subscribes(s: State) returns (z: State)
    requires Init(s) && |s.pcs| >= 3
    ensures Reaches(s, z) && Inv(z) && |z.pcs| == |s.pcs| && RestIdle(z) && z.pcs[0].Idle?
    ensures z.info == map[1 := Exact(7)] && z.slots == map[7 := 0] && z.arena == [Slot(1, [1], [1], {})] && z.calls == []
  {
    hide Inv, Reaches, Apply, Enabled, TrieNext;
    var v := MakesSlot(s);
    var w := Solo(v);
    var x := Solo(w);
    var y := Solo(x);
    assert y.arena[0].subs == [1] && y.arena[0].added == [1] && y.arena == [y.arena[0]];
    z := Solo(y);
    ReachesThrough(s, v, w);
    ReachesThrough(s, w, x);
    ReachesThrough(s, x, y);
    ReachesThrough(s, y, z);
  }

  /** Thread i calls unsubscribe of id 1 and erases its record, if there is one. */
  lemma Unsubscribing(s: State, i: nat) returns (z: State)
    requires Inv(s) && i < |s.pcs| && s.pcs[i].Idle?
    ensures Reaches(s, z) && Inv(z) && OnlyMoved(s, z, i) && z.slots == s.slots && z.arena == s.arena && z.calls == s.calls
    ensures if 1 !in s.info then z.pcs[i].Idle? && 1 in z.past.returned && z.info == s.info else z.info == s.info - {1}
  {
    hide Inv, Reaches, TrieNext;
    ReachesStep(s, Unsubscribe(i, 1));
    var y := Apply(s, Unsubscribe(i, 1));
    ReachesStep(y, Step(i));
    z := Apply(y, Step(i));
    ReachesThrough(s, y, z);
  }

  /** Thread 0 has erased the record of id 1 and not yet cut the list; thread 1 finds no record and
      returns. */
  lemma ReturnsEarly(s: State) returns (z: State)
    requires Init(s) && |s.pcs| >= 3
    ensures Reaches(s, z) && Inv(z) && |z.pcs| == |s.pcs| && z.pcs[1].Idle? && z.pcs[2].Idle? && 1 in z.past.returned
    ensures z.slots == map[7 := 0] && z.arena == [Slot(1, [1], [1], {})] && z.calls == []
  {
    hide Inv, Reaches;
    var v := Subscribes(s);
    var x := Unsubscribing(v, 0);
    z := Unsubscribing(x, 1);
    ReachesThrough(s, v, x);
    ReachesThrough(s, x, z);
  }

  lemma SameArena(s: State, pc: Pc)
    requires pc.UErase? || pc.DExact? || pc.DList? || pc.DRun?
    ensures ArenaNext(s, pc) == s.arena
  {}

  /** A dispatch by thread 2 on its own. */
  lemma DispatchCalls(y: State, m: Msg)
    requires Inv(y) && |y.pcs| >= 3 && y.pcs[2].Idle? && y.calls == []
    requires y.slots == map[m.tid := 0] && |y.arena| == 1 && y.arena[0].tag == m.tag && y.arena[0].subs == [1]
    ensures var acts := [Dispatch(2, m), Step(2), Step(2), Step(2)];
            Legal(y, acts) && Exec(y, acts).calls == [Call(2, 1, m)]
  {
    hide Inv, ArenaNext, TrieNext, InfoNext, PastNext;
    var a := Apply(y, Dispatch(2, m));
    var b := Apply(a, Step(2));
    SameArena(a, a.pcs[2]);
    var c := Apply(b, Step(2));
    assert c.pcs[2] == DRun(m, [0][1..], false, [1]) && c.calls == [];
    LastStep(c, Step(2));
    assert Apply(c, Step(2)).calls == [Call(2, 1, m)];
    hide Apply, Enabled;
    FirstStep(b, Step(2), [Step(2)]);
    FirstStep(a, Step(2), [Step(2), Step(2)]);
    FirstStep(y, Dispatch(2, m), [Step(2), Step(2), Step(2)]);
  }

  lemma FirstStep(s: State, a: Action, acts: seq<Action>)
    requires Enabled(s, a) && Legal(Apply(s, a), acts)
    ensures Legal(s, [a] + acts) && Exec(s, [a] + acts) == Exec(Apply(s, a), acts)
  {
    hide Apply, Enabled;
    assert ([a] + acts)[1..] == acts;
  }

  lemma LastStep(s: State, a: Action)
    requires Enabled(s, a)
    ensures Legal(s, [a]) && Exec(s, [a]) == Apply(s, a)
  {
    hide Apply, Enabled;
    assert Legal(Apply(s, a), []);
  }

  /** After that return, a message whose dispatch has not even begun is still handed to the id. */
  lemma CalledAfterReturn(s: State) returns (y: State)
    requires Init(s) && |s.pcs| >= 3
    ensures Reaches(s, y) && |y.pcs| == |s.pcs| && 1 in y.past.returned && y.pcs[1].Idle? && y.pcs[2].Idle? && y.calls == []
    ensures var m := Msg(7, 1, ""); var acts := [Dispatch(2, m), Step(2), Step(2), Step(2)];
            Legal(y, acts) && Exec(y, acts).calls == [Call(2, 1, m)]
  {
    hide Inv, Apply, Enabled;
    y := ReturnsEarly(s);
    DispatchCalls(y, Msg(7, 1, ""));
  }
}
