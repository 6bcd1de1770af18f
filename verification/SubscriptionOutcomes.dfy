/** How calls of subscribe and unsubscribe end, and that they can. */
module SubscriptionOutcomes {
  import opened Seqs
  import opened SubscriptionProtocol
  import opened SubscriptionProofs
  import opened SubscriptionTheorems
  import opened SubscriptionProgress
  import opened SubscriptionShape
  import opened DispatchTheorems

  // ---------- subscribe ----------

  /** The topic has a slot of another type than asked for. */
  ghost predicate Mismatch(s: State, ask: Ask) {
    ask.target.Exact? && ask.target.tid in s.slots && TagOf(s, s.slots[ask.target.tid]) != ask.tag
  }

  predicate Subscribing(pc: Pc) { Owned(pc) != [] && !pc.UFind? && !pc.UTrieLock? && !pc.UTrieFind? && !pc.ULock? && !pc.UCopy?
                                  && !pc.UPut? && !pc.UTrie? && !pc.UReturn? }

  /** A subscribe ends in an error, and leaves no record, if and only if the topic has a slot of
      another type; otherwise it ends with its id recorded. */
  lemma SubscribeEnds(asks: map<nat, Ask>, s: State, i: nat)
    requires Shaped(asks, s) && Enabled(s, Step(i)) && Subscribing(s.pcs[i]) && Apply(s, Step(i)).pcs[i].Idle?
    ensures var z, id := Apply(s, Step(i)), Owned(s.pcs[i])[0];
            && id in asks
            && z.past.subscribed == (if Mismatch(z, asks[id]) then s.past.subscribed else s.past.subscribed + {id})
            && z.info == (if Mismatch(z, asks[id]) then s.info else s.info[id := asks[id].target])
  {
    var pc, id := s.pcs[i], Owned(s.pcs[i])[0];
    assert PcOk(s, pc) && 1 <= id <= s.issued;
    assert AskOk(s, id, asks[id]) && PcAsk(s, pc, asks[id]);
    InvParts(s);
    Around(s, Step(i));
    EndsFrom(s, pc);
    if pc.SRecord? { RecordedType(s, pc, asks[id]); } else { LookedType(s, pc, asks[id]); }
    hide ShapeInv, Inv, PcOk, PcAsk, AskOk, AsksOk, Next, Apply, Enabled, TagOf;
    SameMismatch(s, Apply(s, Step(i)), asks[id]);
  }

  /** What a step does to the record, to the slots and to its own thread. */
  lemma Around(s: State, a: Action)
    requires Enabled(s, a)
    ensures var z, pc := Apply(s, a), s.pcs[a.i];
            && a.i < |z.pcs| == |s.pcs| && (forall j :: 0 <= j < |s.pcs| && j != a.i ==> z.pcs[j] == s.pcs[j])
            && (if a.Step? then z.pcs[a.i] == Next(s, pc) && z.info == InfoNext(s, pc) && z.past == PastNext(s, pc)
                                && (!pc.SMake? && !pc.SPut? && !pc.UPut? ==> z.slots == s.slots && z.arena == s.arena)
                else Owned(pc) == [] && z.info == s.info && z.past.gone == s.past.gone
                     && (Owned(z.pcs[a.i]) == [] || Owned(z.pcs[a.i]) == [s.issued + 1]))
  {
    hide TrieNext, InfoNext, Next, PastNext;
  }

  lemma SameMismatch(s: State, z: State, ask: Ask)
    requires z.slots == s.slots && z.arena == s.arena
    ensures Mismatch(z, ask) == Mismatch(s, ask)
  {}

  lemma LookedType(s: State, pc: Pc, ask: Ask)
    requires (pc.SLookup? || pc.SCheck?) && pc.tid in s.slots && TagOf(s, s.slots[pc.tid]) != pc.tag && PcAsk(s, pc, ask)
    ensures Mismatch(s, ask)
  {}

  lemma EndsFrom(s: State, pc: Pc)
    requires MapOk(s) && Subscribing(pc) && Next(s, pc).Idle?
    ensures pc.SRecord? || ((pc.SLookup? || pc.SCheck?) && pc.tid in s.slots && TagOf(s, s.slots[pc.tid]) != pc.tag)
  {
    hide Matched, SlotOf;
  }

  lemma RecordedType(s: State, pc: Pc, ask: Ask)
    requires Inv(s) && PcOk(s, pc) && pc.SRecord? && AskOk(s, pc.id, ask) && PcAsk(s, pc, ask)
    ensures pc.target == ask.target && !Mismatch(s, ask)
  {
    hide ArenaOk, TrieOk, InfoOk, GoneOk, Exclusive, Owners, PastOk, LiveOwned, PcsOk;
  }

  // ---------- unsubscribe ----------

  /** What the trie holds is recorded or being worked on, and what is gone stays gone. */
  ghost predicate CleanInv(s: State) {
    && (forall j :: 0 <= j < |s.trie| ==> s.trie[j].id in s.info || HasOwner(s.pcs, s.trie[j].id))
    && (forall i :: 0 <= i < |s.pcs| && s.pcs[i].UReturn? ==> Unlisted(s, s.pcs[i].id))
    && (forall id :: id in s.past.gone ==> id <= s.issued && id !in s.info && !HasOwner(s.pcs, id))
  }

  /** The end of an unsubscribe finds the id out of the trie. */
  lemma OutOfTrie(s: State, i: nat)
    requires Inv(s) && ShapeInv(s) && Enabled(s, Step(i)) && Apply(s, Step(i)).pcs[i].UReturn?
    ensures Unlisted(Apply(s, Step(i)), Apply(s, Step(i)).pcs[i].id)
  {
    var pc, z := s.pcs[i], Apply(s, Step(i));
    assert PcOk(s, pc);
    ReturnsFrom(s, pc);
    if pc.UTrie? {
      forall j | 0 <= j < |z.trie|
        ensures z.trie[j].id != pc.id
      {
        FilterMember(s.trie, (x: Item) => x.id != pc.id, z.trie[j]);
      }
    } else if pc.UPut? {
      forall j | 0 <= j < |s.trie|
        ensures s.trie[j].id != pc.id
      {
        ExactNotInTrie(s, pc, j);
      }
    }
  }

  lemma ReturnsFrom(s: State, pc: Pc)
    requires PcOk(s, pc) && Next(s, pc).UReturn?
    ensures Next(s, pc).id == pc.id
    ensures pc.UTrie? || (pc.UPut? && pc.base.NoTrie?) || (pc.UTrieFind? && SlotOf(s.trie, pc.id) == [])
  {
    hide Matched, SlotOf, Live, Dead, Fresh, InTrie, Home;
  }

  lemma OneSlot(s: State, id: nat, k: nat, l: nat)
    requires Inv(s) && k < |s.arena| && l < |s.arena| && id in s.arena[k].added && id in s.arena[l].added
    ensures k == l
  {}

  lemma ExactNotInTrie(s: State, pc: Pc, j: nat)
    requires Inv(s) && ShapeInv(s) && PcOk(s, pc) && pc.UPut? && pc.base.NoTrie? && j < |s.trie|
    ensures s.trie[j].id != pc.id
  {
    hide Inv;
    assert ItemOk(s, s.trie[j]);
    var tid :| tid in s.slots && s.slots[tid] == pc.slot;
    if s.trie[j].id == pc.id { OneSlot(s, pc.id, s.trie[j].slot, pc.slot); }
  }

  /** An entry of the trie keeps somebody who knows of it. */
  lemma EntryKept(s: State, a: Action, j: nat)
    requires Inv(s) && ShapeInv(s) && CleanInv(s) && Enabled(s, a) && j < |Apply(s, a).trie|
    ensures var z := Apply(s, a); z.trie[j].id in z.info || HasOwner(z.pcs, z.trie[j].id)
  {
    var z, pc := Apply(s, a), s.pcs[a.i];
    var id := z.trie[j].id;
    EntryBefore(s, a, j);
    Around(s, a);
    KnownBefore(s, a, j);
    hide Inv, ShapeInv, CleanInv, Apply, Enabled, Next, InfoNext, PastNext, Owned, HasOwner;
    if a.Step? && Owned(pc) == [id] {
      GoesOn(s, a.i, id);
      if Owned(z.pcs[a.i]) == [id] { IsOwner(z.pcs, a.i, id); }
    } else if id in s.info {
      RecordedOn(s, a, id);
      if Owned(z.pcs[a.i]) == [id] { IsOwner(z.pcs, a.i, id); }
    } else {
      var i := OwnerOf(s.pcs, id);
      IsOwner(z.pcs, i, id);
    }
  }

  lemma RecordedOn(s: State, a: Action, id: nat)
    requires Enabled(s, a) && id in s.info
    ensures a.i < |Apply(s, a).pcs| && (id in Apply(s, a).info || Owned(Apply(s, a).pcs[a.i]) == [id])
  {
    Around(s, a);
    hide Apply, Enabled, Next, InfoNext, PastNext;
    if a.Step? { ErasedIsOwned(s, s.pcs[a.i], id); }
  }

  lemma ErasedIsOwned(s: State, pc: Pc, id: nat)
    requires id in s.info
    ensures id in InfoNext(s, pc) || Owned(Next(s, pc)) == [id]
  {
    hide Matched, SlotOf;
  }

  lemma KnownBefore(s: State, a: Action, j: nat)
    requires Inv(s) && CleanInv(s) && Enabled(s, a) && j < |Apply(s, a).trie|
    ensures var id := Apply(s, a).trie[j].id; (a.Step? && Owned(s.pcs[a.i]) == [id]) || id in s.info || HasOwner(s.pcs, id)
  {
    EntryBefore(s, a, j);
    hide Inv, Apply, Enabled, HasOwner;
    var x := Apply(s, a).trie[j];
    if x in s.trie { var l :| 0 <= l < |s.trie| && s.trie[l] == x; }
  }

  lemma IsOwner(pcs: seq<Pc>, i: nat, id: nat)
    requires i < |pcs| && Owned(pcs[i]) == [id]
    ensures HasOwner(pcs, id)
  {}

  lemma OwnerOf(pcs: seq<Pc>, id: nat) returns (i: nat)
    requires HasOwner(pcs, id)
    ensures i < |pcs| && Owned(pcs[i]) == [id]
  {
    i :| 0 <= i < |pcs| && Owned(pcs[i]) == [id];
  }

  /** Where an entry comes from. */
  lemma EntryBefore(s: State, a: Action, j: nat)
    requires Inv(s) && Enabled(s, a) && j < |Apply(s, a).trie|
    ensures var x := Apply(s, a).trie[j]; x in s.trie || (a.Step? && s.pcs[a.i].WPut? && x.id == s.pcs[a.i].id)
    ensures a.Step? && s.pcs[a.i].UTrie? ==> Apply(s, a).trie[j].id != s.pcs[a.i].id
  {
    hide ArenaNext, InfoNext, Next, ArenaOk, MapOk, TrieOk, InfoOk, GoneOk, Exclusive, Owners, PastOk, LiveOwned, Filter;
    assert PcOk(s, s.pcs[a.i]);
    if a.Step? && s.pcs[a.i].UTrie? { FilterMember(s.trie, (x: Item) => x.id != s.pcs[a.i].id, Apply(s, a).trie[j]); }
  }

  /** The owner of an id that has an entry keeps it, records it, or has just taken the entry out. */
  lemma GoesOn(s: State, i: nat, id: nat)
    requires Inv(s) && CleanInv(s) && Enabled(s, Step(i)) && Owned(s.pcs[i]) == [id]
    requires exists j :: 0 <= j < |Apply(s, Step(i)).trie| && Apply(s, Step(i)).trie[j].id == id
    ensures id in Apply(s, Step(i)).info || Owned(Apply(s, Step(i)).pcs[i]) == [id]
  {
    var pc := s.pcs[i];
    assert PcOk(s, pc);
    LastStep(s, pc);
    var j :| 0 <= j < |Apply(s, Step(i)).trie| && Apply(s, Step(i)).trie[j].id == id;
    EntryBefore(s, Step(i), j);
    hide MapOk, InfoOk, GoneOk, Exclusive, Owners, PastOk, LiveOwned, PcsOk, SlotOk, TrieNext, Matched, SlotOf;
  }

  /** How a call lets go of its id. */
  lemma LastStep(s: State, pc: Pc)
    requires Owned(pc) != []
    ensures Owned(Next(s, pc)) == Owned(pc) || pc.SRecord? || pc.UReturn? || pc.SLookup? || pc.SCheck?
  {
    hide Matched, SlotOf;
  }

  lemma ReturnersStay(s: State, a: Action, i: nat)
    requires Inv(s) && ShapeInv(s) && CleanInv(s) && Enabled(s, a) && i < |Apply(s, a).pcs| && Apply(s, a).pcs[i].UReturn?
    ensures Unlisted(Apply(s, a), Apply(s, a).pcs[i].id)
  {
    Around(s, a);
    if i == a.i {
      CallsReturnNothing(s, a);
      OutOfTrie(s, i);
    } else {
      NotInserted(s, a, i);
      hide ShapeInv, Apply, Enabled, Inv;
      UnlistedStays(s, a, s.pcs[i].id);
    }
  }

  lemma CallsReturnNothing(s: State, a: Action)
    requires Enabled(s, a) && Apply(s, a).pcs[a.i].UReturn?
    ensures a == Step(a.i)
  {}

  lemma NotInserted(s: State, a: Action, i: nat)
    requires Inv(s) && Enabled(s, a) && i < |s.pcs| && i != a.i && s.pcs[i].UReturn?
    ensures !(a.Step? && s.pcs[a.i].WPut? && s.pcs[a.i].id == s.pcs[i].id)
  {
    hide ArenaOk, MapOk, TrieOk, InfoOk, GoneOk, Exclusive, PastOk, LiveOwned, PcsOk;
    assert Owned(s.pcs[i]) != [] && Owned(s.pcs[i]) != Owned(s.pcs[a.i]);
  }

  /** Nobody works on an id that is gone, and nobody records it again. */
  lemma GoneStays(s: State, a: Action, id: nat)
    requires Inv(s) && CleanInv(s) && Enabled(s, a) && id in Apply(s, a).past.gone
    ensures var z := Apply(s, a); id <= z.issued && id !in z.info && !HasOwner(z.pcs, id)
  {
    Around(s, a);
    IssuedStep(s, a);
    JustGone(s, a, id);
    hide Inv, CleanInv, Apply, Enabled, Next, InfoNext, PastNext, Owned, HasOwner;
    var z, pc := Apply(s, a), s.pcs[a.i];
    if a.Step? { OwnedNext(s, pc); }
    if HasOwner(z.pcs, id) {
      var i := OwnerOf(z.pcs, id);
      if i != a.i { IsOwner(s.pcs, i, id); }
    }
  }

  lemma JustGone(s: State, a: Action, id: nat)
    requires Inv(s) && CleanInv(s) && Enabled(s, a) && id in Apply(s, a).past.gone
    ensures id <= s.issued && id !in s.info
    ensures forall i :: 0 <= i < |s.pcs| && Owned(s.pcs[i]) == [id] ==> a == Step(i) && s.pcs[i].UReturn?
  {
    Around(s, a);
    hide Apply, Enabled, Next, InfoNext, ArenaOk, MapOk, TrieOk, InfoOk, GoneOk, Exclusive, PastOk, LiveOwned, PcsOk;
  }

  lemma CleanStep(s: State, a: Action)
    requires Inv(s) && ShapeInv(s) && CleanInv(s) && Enabled(s, a)
    ensures CleanInv(Apply(s, a))
  {
    hide Inv, ShapeInv, CleanInv, Apply, Enabled, HasOwner, Unlisted;
    var z := Apply(s, a);
    forall j | 0 <= j < |z.trie|
      ensures z.trie[j].id in z.info || HasOwner(z.pcs, z.trie[j].id)
    {
      EntryKept(s, a, j);
    }
    forall i | 0 <= i < |z.pcs| && z.pcs[i].UReturn?
      ensures Unlisted(z, z.pcs[i].id)
    {
      ReturnersStay(s, a, i);
    }
    forall id | id in z.past.gone
      ensures id <= z.issued && id !in z.info && !HasOwner(z.pcs, id)
    {
      GoneStays(s, a, id);
    }
    Cleaned(z);
  }

  lemma Cleaned(z: State)
    requires forall j :: 0 <= j < |z.trie| ==> z.trie[j].id in z.info || HasOwner(z.pcs, z.trie[j].id)
    requires forall i :: 0 <= i < |z.pcs| && z.pcs[i].UReturn? ==> Unlisted(z, z.pcs[i].id)
    requires forall id :: id in z.past.gone ==> id <= z.issued && id !in z.info && !HasOwner(z.pcs, id)
    ensures CleanInv(z)
  {}

  lemma {:induction false} CleanRun(s: State, acts: seq<Action>)
    requires Inv(s) && ShapeInv(s) && CleanInv(s) && Legal(s, acts)
    ensures Inv(Exec(s, acts)) && ShapeInv(Exec(s, acts)) && CleanInv(Exec(s, acts))
    decreases |acts|
  {
    hide Inv, ShapeInv, CleanInv, Apply, Enabled;
    if acts != [] {
      StepInv(s, acts[0]);
      ShapeStep(s, acts[0]);
      CleanStep(s, acts[0]);
      CleanRun(Apply(s, acts[0]), acts[1..]);
    }
  }

  /** In every run the published trie holds at most one entry for an id, and only for ids that are
      recorded or that a call still works on; once an unsubscribe that found an id has returned, the
      id is in no subscriber list and no entry has it. */
  lemma NothingStale(s: State, acts: seq<Action>)
    requires Init(s) && Legal(s, acts)
    ensures var z := Exec(s, acts);
            && (forall j, l :: 0 <= j < l < |z.trie| ==> z.trie[j].id != z.trie[l].id)
            && (forall j :: 0 <= j < |z.trie| ==> z.trie[j].id in z.info || HasOwner(z.pcs, z.trie[j].id))
            && (forall id :: id in z.past.gone ==> Unlisted(z, id) && forall k :: id !in ListOf(z, k))
  {
    InitInv(s);
    InitShape(s);
    CleanRun(s, acts);
    var z := Exec(s, acts);
    hide Exec, Legal, HasOwner;
    forall id, k | id in z.past.gone
      ensures id !in ListOf(z, k)
    {
      GoneFromList(z, id, k);
    }
  }

  lemma GoneFromList(z: State, id: nat, k: nat)
    requires Inv(z) && id in z.past.gone
    ensures id !in ListOf(z, k)
  {
    hide MapOk, TrieOk, InfoOk, Exclusive, Owners, PastOk, LiveOwned, PcsOk, SlotOk;
    DeadIsUnlisted(z, id, k);
  }

  // ---------- every call can return ----------

  /** Steps to the return of subscribe or unsubscribe. */
  function StepsLeft(pc: Pc): nat {
    match pc
    case Idle => 0
    case SLookup(_, _, _) => 9
    case SLock(_, _, _) => 8
    case SCheck(_, _, _) => 7
    case SMake(_, _, _, _) => 6
    case SAdd(_, _, _) => 5
    case SCopy(_, _, _) => 4
    case SPut(_, _, _, _) => 3
    case WLock(_, _, _) => 5
    case WCopy(_, _, _) => 4
    case WPut(_, _, _, _) => 3
    case SRecord(_, _) => 1
    case UErase(_) => 9
    case UFind(_, _) => 8
    case UTrieLock(_) => 8
    case UTrieFind(_) => 7
    case ULock(_, _, _) => 6
    case UCopy(_, _, _) => 5
    case UPut(_, _, _, _) => 4
    case UTrie(_, _) => 3
    case UReturn(_) => 1
    case _ => 0
  }

  lemma CallMoves(s: State, pc: Pc)
    requires !Dispatching(pc) && !pc.Idle?
    ensures StepsLeft(Next(s, pc)) < StepsLeft(pc) && !Dispatching(Next(s, pc))
  {
    hide Matched, SlotOf;
  }

  /** The thread that holds the slot map lets go of it in two steps at most. */
  lemma LetMapFree(s: State, i: nat) returns (z: State)
    requires Inv(s) && i < |s.pcs| && s.pcs[i].SLock?
    ensures Reaches(s, z) && Inv(z) && SlotsFree(z.pcs) && |z.pcs| == |s.pcs| && z.pcs[i] == s.pcs[i]
  {
    hide Inv, Apply, Enabled, Next;
    ReachesItself(s);
    z := s;
    if !SlotsFree(s.pcs) {
      var h: nat :| h < |s.pcs| && HoldsSlots(s.pcs[h]);
      HolderStep(s, h);
      z := Advance(s, h);
      if HoldsSlots(z.pcs[h]) {
        HolderStep(z, h);
        var w := Advance(z, h);
        HeldTwice(z, h);
        ReachesThrough(s, z, w);
        z := w;
      }
    }
  }

  /** Having looked again, the holder of the slot map makes the slot and lets go. */
  lemma HeldTwice(s: State, h: nat)
    requires Inv(s) && h < |s.pcs| && s.pcs[h].SMake? && Enabled(s, Step(h))
    ensures !HoldsSlots(Apply(s, Step(h)).pcs[h])
  {
    hide Inv, ArenaNext, TrieNext, InfoNext;
  }

  /** Whatever lock thread i waits for is given to it. */
  lemma LetIn(s: State, i: nat) returns (z: State)
    requires Inv(s) && i < |s.pcs| && !s.pcs[i].Idle?
    ensures Reaches(s, z) && Inv(z) && |z.pcs| == |s.pcs| && z.pcs[i] == s.pcs[i] && Enabled(z, Step(i))
  {
    hide Inv, Apply;
    ReachesItself(s);
    match s.pcs[i]
    case SLock(_, _, _) => z := LetMapFree(s, i);
    case SAdd(_, k, _) => z := FreeSlot(s, k);
    case ULock(_, k, _) => z := FreeSlot(s, k);
    case WLock(_, _, _) => z := FreeTrie(s);
    case UTrieLock(_) => z := FreeTrie(s);
    case _ => z := s;
  }

  lemma {:induction false} CallReturns(s: State, i: nat) returns (z: State)
    requires Inv(s) && i < |s.pcs| && !Dispatching(s.pcs[i])
    ensures Reaches(s, z) && i < |z.pcs| && z.pcs[i].Idle?
    decreases StepsLeft(s.pcs[i])
  {
    hide Inv, Apply, Enabled, Next, StepsLeft, Reaches;
    if s.pcs[i].Idle? {
      ReachesItself(s);
      z := s;
    } else {
      var x := LetIn(s, i);
      CallMoves(x, x.pcs[i]);
      var y := Advance(x, i);
      z := CallReturns(y, i);
      ReachesThrough(s, x, y);
      ReachesThrough(s, y, z);
    }
  }

  /** No deadlock: from every reachable state, whatever locks are held, some run lets any given
      thread return from its call. */
  lemma EveryCallCanReturn(s: State, acts: seq<Action>, i: nat)
    requires Init(s) && Legal(s, acts) && i < |Exec(s, acts).pcs|
    ensures exists z :: Reaches(Exec(s, acts), z) && i < |z.pcs| && z.pcs[i].Idle?
  {
    hide Inv, Reaches, Exec, Legal;
    InitInv(s);
    RunInv(s, acts);
    var y := Exec(s, acts);
    if Dispatching(y.pcs[i]) {
      var more := DispatchEnds(y, i);
      Reached(y, more);
    } else {
      var z := CallReturns(y, i);
    }
  }

  lemma Reached(s: State, acts: seq<Action>)
    requires Legal(s, acts)
    ensures Reaches(s, Exec(s, acts))
  {}
}
