/** The locks of the subscription protocol are always released in the end: whatever a call waits
    for, some run of the other threads gives it. */
module SubscriptionProgress {
  import opened SubscriptionProtocol
  import opened SubscriptionProofs

  // ---------- reachable states ----------

  ghost predicate Reaches(s: State, z: State) { exists acts :: Legal(s, acts) && Exec(s, acts) == z }

  lemma ReachesItself(s: State)
    ensures Reaches(s, s)
  {
    assert Legal(s, []) && Exec(s, []) == s;
  }

  lemma {:induction false} RunThen(s: State, acts: seq<Action>, more: seq<Action>)
    requires Legal(s, acts) && Legal(Exec(s, acts), more)
    ensures Legal(s, acts + more) && Exec(s, acts + more) == Exec(Exec(s, acts), more)
    decreases |acts|
  {
    hide Apply, Enabled;
    if acts == [] {
      assert acts + more == more;
    } else {
      RunThen(Apply(s, acts[0]), acts[1..], more);
      assert (acts + more)[1..] == acts[1..] + more;
    }
  }

  lemma ReachesThrough(s: State, y: State, z: State)
    requires Reaches(s, y) && Reaches(y, z)
    ensures Reaches(s, z)
  {
    hide Apply, Enabled;
    var first :| Legal(s, first) && Exec(s, first) == y;
    var more :| Legal(y, more) && Exec(y, more) == z;
    RunThen(s, first, more);
  }

  lemma ReachesStep(s: State, a: Action)
    requires Inv(s) && Enabled(s, a)
    ensures Reaches(s, Apply(s, a)) && Inv(Apply(s, a))
  {
    hide Apply, Enabled, Inv;
    StepInv(s, a);
    assert Legal(Apply(s, a), []);
    assert Legal(s, [a]) && Exec(s, [a]) == Apply(s, a);
  }

  /** No thread but h has moved. */
  ghost predicate OnlyMoved(s: State, z: State, h: nat) {
    |z.pcs| == |s.pcs| && forall t :: 0 <= t < |s.pcs| && t != h ==> z.pcs[t] == s.pcs[t]
  }

  // ---------- slot locks ----------

  predicate SlotHolder(pc: Pc) { pc.SCopy? || pc.SPut? || pc.UCopy? || pc.UPut? }

  lemma NextOfHolder(s: State, pc: Pc)
    requires SlotHolder(pc)
    ensures pc.SPut? || pc.UPut? ==> !SlotHolder(Next(s, pc))
    ensures pc.SCopy? || pc.UCopy? ==> SlotHolder(Next(s, pc)) && (Next(s, pc).SPut? || Next(s, pc).UPut?) && Next(s, pc).slot == pc.slot
  {}

  /** One step of thread h alone. */
  lemma Advance(s: State, h: nat) returns (z: State)
    requires Inv(s) && Enabled(s, Step(h))
    ensures z == Apply(s, Step(h)) && Reaches(s, z) && Inv(z) && h < |z.pcs| && z.pcs[h] == Next(s, s.pcs[h])
    ensures OnlyMoved(s, z, h) && z.issued == s.issued
  {
    z := Apply(s, Step(h));
    hide Inv;
    ReachesStep(s, Step(h));
    hide Next, ArenaNext, TrieNext, InfoNext;
  }

  /** The holder of a slot's lock lets go of it. */
  lemma FreeSlot(s: State, k: nat) returns (z: State)
    requires Inv(s)
    ensures Reaches(s, z) && Inv(z) && SlotFree(z.pcs, k) && |z.pcs| == |s.pcs| && z.issued == s.issued
    ensures forall t :: 0 <= t < |s.pcs| && !HoldsSlot(s.pcs[t], k) ==> z.pcs[t] == s.pcs[t]
    ensures forall t :: 0 <= t < |s.pcs| && HoldsTrie(z.pcs[t]) ==> HoldsTrie(s.pcs[t])
  {
    hide Inv, Apply, Next, HoldsTrie;
    if SlotFree(s.pcs, k) {
      ReachesItself(s);
      z := s;
    } else {
      var h: nat :| h < |s.pcs| && HoldsSlot(s.pcs[h], k);
      OnlyHolder(s, h, k);
      NextOfHolder(s, s.pcs[h]);
      LocksNext(s, s.pcs[h]);
      var y := Advance(s, h);
      z := y;
      if SlotHolder(y.pcs[h]) {
        NextOfHolder(y, y.pcs[h]);
        LocksNext(y, y.pcs[h]);
        z := Advance(y, h);
        ReachesThrough(s, y, z);
      }
      assert OnlyMoved(s, z, h);
    }
  }

  lemma OnlyHolder(s: State, h: nat, k: nat)
    requires Inv(s) && h < |s.pcs| && HoldsSlot(s.pcs[h], k)
    ensures forall t :: 0 <= t < |s.pcs| && t != h ==> !HoldsSlot(s.pcs[t], k)
    ensures Enabled(s, Step(h))
  {}

  // ---------- the trie's lock ----------

  /** Steps until a holder of the trie's lock lets go of it. */
  function TrieRank(pc: Pc): nat {
    match pc
    case WCopy(_, _, _) => 2
    case WPut(_, _, _, _) => 1
    case UTrieFind(_) => 5
    case ULock(_, _, _) => 4
    case UCopy(_, _, _) => 3
    case UPut(_, _, _, _) => 2
    case UTrie(_, _) => 1
    case _ => 0
  }

  lemma NextOfTrieHolder(s: State, pc: Pc)
    requires HoldsTrie(pc)
    ensures HoldsTrie(Next(s, pc)) ==> TrieRank(Next(s, pc)) < TrieRank(pc)
  {}

  lemma OnlyTrieHolder(s: State, h: nat)
    requires Inv(s) && h < |s.pcs| && HoldsTrie(s.pcs[h])
    ensures forall t :: 0 <= t < |s.pcs| && t != h ==> !HoldsTrie(s.pcs[t])
    ensures !s.pcs[h].ULock? ==> Enabled(s, Step(h))
    ensures s.pcs[h].ULock? && SlotFree(s.pcs, s.pcs[h].slot) ==> Enabled(s, Step(h))
    ensures !SlotHolder(s.pcs[h]) ==> forall k :: !HoldsSlot(s.pcs[h], k)
  {}

  predicate Bystander(pc: Pc) { !HoldsTrie(pc) && !SlotHolder(pc) }

  lemma {:induction false} ReleaseTrie(s: State, h: nat) returns (z: State)
    requires Inv(s) && h < |s.pcs| && HoldsTrie(s.pcs[h])
    ensures Reaches(s, z) && Inv(z) && TrieFree(z.pcs) && |z.pcs| == |s.pcs| && z.issued == s.issued
    ensures forall t :: 0 <= t < |s.pcs| && Bystander(s.pcs[t]) ==> z.pcs[t] == s.pcs[t]
    decreases TrieRank(s.pcs[h])
  {
    hide Inv, Apply, Next, HoldsTrie, TrieRank;
    OnlyTrieHolder(s, h);
    ReachesItself(s);
    var y := s;
    if s.pcs[h].ULock? {
      y := FreeSlot(s, s.pcs[h].slot);
      OnlyTrieHolder(y, h);
    }
    NextOfTrieHolder(y, y.pcs[h]);
    z := Advance(y, h);
    ReachesThrough(s, y, z);
    if HoldsTrie(z.pcs[h]) {
      var w := ReleaseTrie(z, h);
      ReachesThrough(s, z, w);
      z := w;
    }
  }

  lemma FreeTrie(s: State) returns (z: State)
    requires Inv(s)
    ensures Reaches(s, z) && Inv(z) && TrieFree(z.pcs) && |z.pcs| == |s.pcs| && z.issued == s.issued
    ensures forall t :: 0 <= t < |s.pcs| && Bystander(s.pcs[t]) ==> z.pcs[t] == s.pcs[t]
  {
    hide Inv, Apply, HoldsTrie;
    if TrieFree(s.pcs) {
      ReachesItself(s);
      z := s;
    } else {
      var h: nat :| h < |s.pcs| && HoldsTrie(s.pcs[h]);
      z := ReleaseTrie(s, h);
    }
  }

  // ---------- the slot map's lock ----------

  /** The topic has a slot of another type, or the thread that holds the map's lock is about to
      make one. */
  ghost predicate Foreign(s: State, j: nat, tid: nat, tag: nat) {
    if tid in s.slots then TagOf(s, s.slots[tid]) != tag
    else exists h :: 0 <= h < |s.pcs| && h != j && HoldsSlots(s.pcs[h]) && s.pcs[h].tid == tid && s.pcs[h].tag != tag
  }

  /** A subscribe that can only end in an error. */
  ghost predicate Doomed(s: State, j: nat)
    requires j < |s.pcs|
  {
    var pc := s.pcs[j];
    (pc.SLookup? || pc.SLock? || pc.SCheck?) && Foreign(s, j, pc.tid, pc.tag)
  }

  lemma SlotTagStays(s: State, a: Action, tid: nat)
    requires PcsOk(s) && MapOk(s) && Enabled(s, a) && tid in s.slots
    ensures var z := Apply(s, a); tid in z.slots && TagOf(z, z.slots[tid]) == TagOf(s, s.slots[tid])
  {
    hide Apply, PcOk;
    SlotsStep(s, a);
    ArenaStep(s, a);
    assert SlotGrows(s.arena[s.slots[tid]], Apply(s, a).arena[s.slots[tid]]);
  }

  /** What the holder of the map's lock does to the map. */
  lemma HolderStep(s: State, h: nat)
    requires Inv(s) && h < |s.pcs| && HoldsSlots(s.pcs[h])
    ensures Enabled(s, Step(h)) && forall t :: 0 <= t < |s.pcs| && t != h ==> !HoldsSlots(s.pcs[t])
    ensures var z, pc := Apply(s, Step(h)), s.pcs[h];
            if HoldsSlots(z.pcs[h]) then pc.SCheck? && z.pcs[h].SMake? && pc.tid !in s.slots && z.slots == s.slots
                                         && z.pcs[h].tid == pc.tid && z.pcs[h].tag == pc.tag
            else if pc.SMake? then z.slots == s.slots[pc.tid := |s.arena|] && TagOf(z, |s.arena|) == pc.tag
            else z.slots == s.slots && pc.tid in s.slots
  {
    hide TrieNext, InfoNext, Matched, SlotOf;
    assert PcOk(s, s.pcs[h]);
  }

  /** The map grows only by the hand of its lock's holder. */
  lemma MapUnlessMake(s: State, a: Action)
    requires Enabled(s, a) && !(a.Step? && HoldsSlots(s.pcs[a.i]))
    ensures Apply(s, a).slots == s.slots
  {}

  /** Once doomed, doomed until it ends. */
  lemma ForeignStays(s: State, a: Action, j: nat, tid: nat, tag: nat)
    requires Inv(s) && Enabled(s, a) && j != a.i && Foreign(s, j, tid, tag)
    ensures Foreign(Apply(s, a), j, tid, tag)
  {
    hide Inv, Apply, Enabled, TagOf;
    InvParts(s);
    SamePcs(s, a);
    if tid in s.slots {
      SlotTagStays(s, a, tid);
    } else {
      var h: nat :| h < |s.pcs| && h != j && HoldsSlots(s.pcs[h]) && s.pcs[h].tid == tid && s.pcs[h].tag != tag;
      HolderStep(s, h);
      if a != Step(h) {
        MapUnlessMake(s, a);
        MovedAlone(s, a, h);
      }
    }
  }

  lemma MovedAlone(s: State, a: Action, h: nat)
    requires Enabled(s, a) && h < |s.pcs| && !s.pcs[h].Idle? && a != Step(h)
    ensures Apply(s, a).pcs[h] == s.pcs[h] && a.i != h
  {}

  /** The holder of the map's lock dooms nobody that was not doomed by its holding it. */
  lemma HolderDoomsNobody(s: State, h: nat, j: nat, tid: nat, tag: nat)
    requires Inv(s) && h < |s.pcs| && HoldsSlots(s.pcs[h]) && j < |s.pcs| && j != h && !Foreign(s, j, tid, tag)
    ensures !Foreign(Apply(s, Step(h)), j, tid, tag)
  {
    hide Inv, Apply, Enabled, TagOf;
    InvParts(s);
    HolderStep(s, h);
    SamePcs(s, Step(h));
    if tid in s.slots { SlotTagStays(s, Step(h), tid); }
  }

  /** The holder of the map's lock lets go of it, and j can still succeed if it could before. */
  lemma FreeMap(s: State, j: nat) returns (z: State)
    requires Inv(s) && j < |s.pcs| && !HoldsSlots(s.pcs[j]) && !Doomed(s, j)
    ensures Reaches(s, z) && Inv(z) && SlotsFree(z.pcs) && |z.pcs| == |s.pcs| && z.issued == s.issued
    ensures forall t :: 0 <= t < |s.pcs| && !HoldsSlots(s.pcs[t]) ==> z.pcs[t] == s.pcs[t]
    ensures !Doomed(z, j)
  {
    hide Inv, Apply, Enabled, Next, Foreign;
    ReachesItself(s);
    z := s;
    if !SlotsFree(s.pcs) {
      var h: nat :| h < |s.pcs| && HoldsSlots(s.pcs[h]);
      z := LetMapGo(s, h, j);
      if HoldsSlots(z.pcs[h]) {
        var w := LetMapGo(z, h, j);
        ReachesThrough(s, z, w);
        z := w;
      }
    }
  }

  lemma LetMapGo(s: State, h: nat, j: nat) returns (z: State)
    requires Inv(s) && h < |s.pcs| && HoldsSlots(s.pcs[h]) && j < |s.pcs| && j != h && !Doomed(s, j)
    ensures Reaches(s, z) && Inv(z) && OnlyMoved(s, z, h) && z.issued == s.issued && !Doomed(z, j)
    ensures HoldsSlots(z.pcs[h]) ==> s.pcs[h].SCheck? && z.pcs[h].SMake?
    ensures forall t :: 0 <= t < |s.pcs| && t != h ==> !HoldsSlots(s.pcs[t])
  {
    hide Inv, Apply, Enabled, Next, Foreign;
    HolderStep(s, h);
    z := Advance(s, h);
    var pc := s.pcs[j];
    if pc.SLookup? || pc.SLock? || pc.SCheck? { HolderDoomsNobody(s, h, j, pc.tid, pc.tag); }
  }
}
