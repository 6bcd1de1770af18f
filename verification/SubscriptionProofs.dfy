/** The invariant of the subscription protocol, and that every step keeps it. */
module SubscriptionProofs {
  import opened Seqs
  import opened SubscriptionProtocol

  function NotIn(gone: set<nat>): nat -> bool { (x: nat) => x !in gone }

  // ---------- where an id is ----------

  /** The call that still works on an id, if this thread does. */
  function Owned(pc: Pc): (ids: seq<nat>)
    ensures |ids| <= 1
    ensures ids != [] ==> ids == [ids[0]]
  {
    match pc
    case Idle => []
    case UErase(_) => []
    case DExact(_) => []
    case DTrie(_) => []
    case DList(_, _, _) => []
    case DRun(_, _, _, _) => []
    case _ => [pc.id]
  }

  ghost predicate Fresh(s: State, id: nat) {
    1 <= id <= s.issued && forall k :: 0 <= k < |s.arena| ==> id !in s.arena[k].added
  }

  /** Slot k has the id in its list. */
  ghost predicate Live(s: State, id: nat, k: nat) {
    k < |s.arena| && id in s.arena[k].added && id !in s.arena[k].removed
  }

  /** The id was in a list once, and is no more. */
  ghost predicate Dead(s: State, id: nat) {
    exists k :: 0 <= k < |s.arena| && id in s.arena[k].added && id in s.arena[k].removed
  }

  ghost predicate InTrie(s: State, id: nat) {
    exists j :: 0 <= j < |s.trie| && s.trie[j].id == id && Live(s, id, s.trie[j].slot)
  }

  ghost predicate Home(s: State, id: nat, target: Target) {
    match target
    case Exact(tid) => tid in s.slots && Live(s, id, s.slots[tid])
    case Wild(_) => InTrie(s, id)
  }

  /** Where an unsubscribe found the slot it cuts. */
  ghost predicate Anchored(s: State, id: nat, k: nat, base: Base) {
    if base.Trie? then base.items == s.trie && exists j :: 0 <= j < |s.trie| && s.trie[j].id == id && s.trie[j].slot == k
    else exists tid :: tid in s.slots && s.slots[tid] == k
  }

  ghost predicate PcOk(s: State, pc: Pc) {
    match pc
    case SLookup(id, _, _) => Fresh(s, id)
    case SLock(id, _, _) => Fresh(s, id)
    case SCheck(id, _, _) => Fresh(s, id)
    case SMake(id, tid, _, slots) => Fresh(s, id) && slots == s.slots && tid !in slots
    case SAdd(id, k, tid) => Fresh(s, id) && tid in s.slots && s.slots[tid] == k
    case SCopy(id, k, tid) => Fresh(s, id) && tid in s.slots && s.slots[tid] == k
    case SPut(id, k, tid, list) => Fresh(s, id) && tid in s.slots && s.slots[tid] == k && list == ListOf(s, k)
    case WLock(id, k, _) => Live(s, id, k)
    case WCopy(id, k, _) => Live(s, id, k)
    case WPut(id, k, _, items) => Live(s, id, k) && items == s.trie
    case SRecord(id, target) => Home(s, id, target)
    case UErase(id) => id in s.past.leaving
    case UFind(id, tid) => tid in s.slots && Live(s, id, s.slots[tid])
    case UTrieLock(id) => InTrie(s, id)
    case UTrieFind(id) => InTrie(s, id)
    case ULock(id, k, base) => Live(s, id, k) && Anchored(s, id, k, base)
    case UCopy(id, k, base) => Live(s, id, k) && Anchored(s, id, k, base)
    case UPut(id, k, base, list) => Live(s, id, k) && Anchored(s, id, k, base) && list == ListOf(s, k)
    case UTrie(id, items) => Dead(s, id) && items == s.trie
    case UReturn(id) => Dead(s, id)
    case _ => true
  }

  // ---------- the invariant, part by part ----------

  /** Each lock has one holder at most. */
  ghost predicate Exclusive(pcs: seq<Pc>) {
    forall i, j :: 0 <= i < |pcs| && 0 <= j < |pcs| && i != j ==>
      && !(HoldsSlots(pcs[i]) && HoldsSlots(pcs[j]))
      && !(HoldsTrie(pcs[i]) && HoldsTrie(pcs[j]))
      && (pcs[i].SCopy? || pcs[i].SPut? || pcs[i].UCopy? || pcs[i].UPut? ==> !HoldsSlot(pcs[j], pcs[i].slot))
  }

  /** No two calls work on the same id, and none on a recorded one. */
  ghost predicate Owners(pcs: seq<Pc>, info: set<nat>, issued: nat) {
    && (forall i, j :: 0 <= i < |pcs| && 0 <= j < |pcs| && i != j && Owned(pcs[i]) != [] ==> Owned(pcs[i]) != Owned(pcs[j]))
    && (forall i :: 0 <= i < |pcs| && Owned(pcs[i]) != [] ==> 1 <= Owned(pcs[i])[0] <= issued && Owned(pcs[i])[0] !in info)
    && (forall id :: id in info ==> 1 <= id <= issued)
  }

  /** Copy-on-write loses nothing: the published list is what was added, in order, without what
      was removed. */
  ghost predicate SlotOk(x: Slot, issued: nat) {
    && x.subs == Filter(x.added, NotIn(x.removed))
    && (forall n :: 0 <= n < |x.added| ==> x.added[n] <= issued)
    && (forall id :: id in x.removed ==> id in x.added)
    && NoDup(x.added)
  }

  ghost predicate ArenaOk(s: State) {
    && (forall k :: 0 <= k < |s.arena| ==> SlotOk(s.arena[k], s.issued))
    && (forall k, l, id :: 0 <= k < |s.arena| && 0 <= l < |s.arena| && id in s.arena[k].added && id in s.arena[l].added ==> k == l)
  }

  ghost predicate MapOk(s: State) {
    && (forall tid :: tid in s.slots ==> s.slots[tid] < |s.arena|)
    && (forall t, u :: t in s.slots && u in s.slots && s.slots[t] == s.slots[u] ==> t == u)
  }

  ghost predicate TrieOk(s: State) {
    forall j :: 0 <= j < |s.trie| ==> s.trie[j].slot < |s.arena| && s.trie[j].id in s.arena[s.trie[j].slot].added
  }

  ghost predicate InfoOk(s: State) { forall id :: id in s.info ==> Home(s, id, s.info[id]) }

  ghost predicate GoneOk(s: State) { forall id :: id in s.past.gone ==> Dead(s, id) }

  /** A subscription whose subscribe has returned is recorded until an unsubscribe of it is called. */
  ghost predicate PastOk(s: State) { forall id :: id in s.past.subscribed ==> id in s.info || id in s.past.leaving }

  predicate HasOwner(pcs: seq<Pc>, id: nat) { exists j :: 0 <= j < |pcs| && Owned(pcs[j]) == [id] }

  /** A listed id is recorded, or some call works on it. */
  ghost predicate LiveOwned(s: State) {
    forall k, id :: Live(s, id, k) ==> id in s.info || HasOwner(s.pcs, id)
  }

  ghost predicate PcsOk(s: State) { forall i :: 0 <= i < |s.pcs| ==> PcOk(s, s.pcs[i]) }

  ghost predicate Inv(s: State) {
    Exclusive(s.pcs) && Owners(s.pcs, s.info.Keys, s.issued) && ArenaOk(s) && MapOk(s) && TrieOk(s) && InfoOk(s) && GoneOk(s) && PcsOk(s)
    && PastOk(s) && LiveOwned(s)
  }

  // ---------- locks and owners ----------

  lemma LocksNext(s: State, pc: Pc)
    ensures HoldsSlots(Next(s, pc)) ==> HoldsSlots(pc) || pc.SLock?
    ensures HoldsTrie(Next(s, pc)) ==> HoldsTrie(pc) || pc.WLock? || pc.UTrieLock?
    ensures forall k :: HoldsSlot(Next(s, pc), k) ==> HoldsSlot(pc, k) || ((pc.SAdd? || pc.ULock?) && pc.slot == k)
  {}

  lemma ExclusiveStep(s: State, a: Action)
    requires Exclusive(s.pcs) && Enabled(s, a)
    ensures Exclusive(Apply(s, a).pcs)
  {
    hide ArenaNext, TrieNext, InfoNext, Next, HoldsTrie;
    if a.Step? {
      LocksNext(s, s.pcs[a.i]);
    } else {
      NoLockYet(s, a);
    }
  }

  lemma NoLockYet(s: State, a: Action)
    requires Enabled(s, a) && !a.Step?
    ensures !HoldsSlots(Apply(s, a).pcs[a.i]) && !HoldsTrie(Apply(s, a).pcs[a.i]) && forall k :: !HoldsSlot(Apply(s, a).pcs[a.i], k)
  {}

  /** What a call works on does not change; it takes over a recorded id, or hands its own over. */
  lemma OwnedNext(s: State, pc: Pc)
    ensures Owned(Next(s, pc)) == [] || (Owned(Next(s, pc)) == Owned(pc) && InfoNext(s, pc).Keys <= s.info.Keys)
            || (pc.UErase? && pc.id in s.info && Owned(Next(s, pc)) == [pc.id] && pc.id !in InfoNext(s, pc))
    ensures pc.SRecord? ==> Owned(pc) == [pc.id] && Owned(Next(s, pc)) == []
    ensures forall id :: id in InfoNext(s, pc) ==> id in s.info || (pc.SRecord? && Owned(pc) == [id])
    ensures pc.UErase? ==> InfoNext(s, pc).Keys <= s.info.Keys
  {}

  /** Thread i lets go of its id, which may become recorded, or keeps it. */
  lemma OwnerLets(pcs: seq<Pc>, info: set<nat>, issued: nat, i: nat, pc: Pc, info': set<nat>)
    requires Owners(pcs, info, issued) && i < |pcs|
    requires Owned(pc) == [] || (Owned(pc) == Owned(pcs[i]) && info' <= info)
    requires forall id :: id in info' ==> id in info || Owned(pcs[i]) == [id]
    ensures Owners(pcs[i := pc], info', issued)
  {
    hide Owned;
  }

  /** Thread i takes an id that no call works on. */
  lemma OwnerTakes(pcs: seq<Pc>, info: set<nat>, issued: nat, i: nat, pc: Pc, id: nat, info': set<nat>, issued': nat)
    requires Owners(pcs, info, issued) && i < |pcs|
    requires Owned(pc) == [id] && 1 <= id <= issued' && issued <= issued' && info' <= info && id !in info'
    requires forall j :: 0 <= j < |pcs| ==> Owned(pcs[j]) != [id]
    ensures Owners(pcs[i := pc], info', issued')
  {
    hide Owned;
  }

  lemma OwnersStep(s: State, a: Action)
    requires Owners(s.pcs, s.info.Keys, s.issued) && Enabled(s, a)
    ensures var z := Apply(s, a); Owners(z.pcs, z.info.Keys, z.issued)
  {
    hide ArenaNext, TrieNext, InfoNext, Next, SlotsFree, TrieFree, SlotFree, Owners;
    var z := Apply(s, a);
    if a.Subscribe? {
      Unowned(s, s.issued + 1);
      OwnerTakes(s.pcs, s.info.Keys, s.issued, a.i, z.pcs[a.i], s.issued + 1, z.info.Keys, z.issued);
    } else if a.Step? {
      OwnedNext(s, s.pcs[a.i]);
      if s.pcs[a.i].UErase? && Owned(z.pcs[a.i]) != [] {
        Unowned(s, s.pcs[a.i].id);
        OwnerTakes(s.pcs, s.info.Keys, s.issued, a.i, z.pcs[a.i], s.pcs[a.i].id, z.info.Keys, z.issued);
      } else {
        OwnerLets(s.pcs, s.info.Keys, s.issued, a.i, z.pcs[a.i], z.info.Keys);
      }
    } else {
      OwnerLets(s.pcs, s.info.Keys, s.issued, a.i, z.pcs[a.i], z.info.Keys);
    }
  }

  lemma Unowned(s: State, id: nat)
    requires Owners(s.pcs, s.info.Keys, s.issued) && (id in s.info || id > s.issued)
    ensures forall j :: 0 <= j < |s.pcs| ==> Owned(s.pcs[j]) != [id]
    ensures id in s.info ==> 1 <= id <= s.issued
  {
    forall j | 0 <= j < |s.pcs|
      ensures Owned(s.pcs[j]) != [id]
    {
      assert Owned(s.pcs[j]) != [] ==> Owned(s.pcs[j])[0] != id;
    }
  }

  // ---------- what a step leaves alone ----------

  /** Slots keep their tag, lists only gain what is new, and removal is final. */
  ghost predicate SlotGrows(x: Slot, y: Slot) { x.tag == y.tag && x.added <= y.added && x.removed <= y.removed }

  ghost predicate ArenaGrows(xs: seq<Slot>, ys: seq<Slot>) {
    |xs| <= |ys| && forall k :: 0 <= k < |xs| ==> SlotGrows(xs[k], ys[k])
  }

  lemma ArenaStep(s: State, a: Action)
    requires Enabled(s, a)
    ensures ArenaGrows(s.arena, Apply(s, a).arena)
  {
    hide TrieNext, InfoNext, Next;
  }

  /** Published slots stay published. */
  lemma SlotsStep(s: State, a: Action)
    requires PcsOk(s) && Enabled(s, a)
    ensures forall tid :: tid in s.slots ==> tid in Apply(s, a).slots && Apply(s, a).slots[tid] == s.slots[tid]
  {
    hide ArenaNext, TrieNext, InfoNext, Next;
    assert PcOk(s, s.pcs[a.i]);
  }

  lemma DeadStays(s: State, a: Action, id: nat)
    requires Enabled(s, a) && Dead(s, id)
    ensures Dead(Apply(s, a), id)
  {
    hide Apply, Enabled;
    ArenaStep(s, a);
    var k :| 0 <= k < |s.arena| && id in s.arena[k].added && id in s.arena[k].removed;
    assert SlotGrows(s.arena[k], Apply(s, a).arena[k]);
  }

  /** Only the owner of an id removes it. */
  lemma LiveStays(s: State, a: Action, id: nat, k: nat)
    requires Enabled(s, a) && Live(s, id, k) && !(a.Step? && s.pcs[a.i].UPut? && s.pcs[a.i].id == id)
    ensures Live(Apply(s, a), id, k)
  {
    hide TrieNext, InfoNext, Next;
  }

  /** Only the owner of an id adds it. */
  lemma FreshStays(s: State, a: Action, id: nat)
    requires Enabled(s, a) && Fresh(s, id) && !(a.Step? && s.pcs[a.i].SPut? && s.pcs[a.i].id == id)
    ensures Fresh(Apply(s, a), id)
  {
    hide TrieNext, InfoNext, Next;
  }

  lemma InTrieStays(s: State, a: Action, id: nat)
    requires PcsOk(s) && Enabled(s, a) && InTrie(s, id)
    requires !(a.Step? && (s.pcs[a.i].UPut? || s.pcs[a.i].UTrie?) && s.pcs[a.i].id == id)
    ensures InTrie(Apply(s, a), id)
  {
    hide ArenaNext, InfoNext, Next, Live;
    var j :| 0 <= j < |s.trie| && s.trie[j].id == id && Live(s, id, s.trie[j].slot);
    LiveStays(s, a, id, s.trie[j].slot);
    assert PcOk(s, s.pcs[a.i]);
    var x, z := s.trie[j], Apply(s, a);
    if a.Step? && s.pcs[a.i].UTrie? {
      FilterMember(s.trie, (y: Item) => y.id != s.pcs[a.i].id, x);
    }
    assert x in z.trie;
  }

  lemma HomeStays(s: State, a: Action, id: nat, target: Target)
    requires PcsOk(s) && Enabled(s, a) && Home(s, id, target)
    requires !(a.Step? && (s.pcs[a.i].UPut? || s.pcs[a.i].UTrie?) && s.pcs[a.i].id == id)
    ensures Home(Apply(s, a), id, target)
  {
    hide Apply, Live, PcOk, InTrie, Enabled;
    match target
    case Exact(tid) =>
      SlotsStep(s, a);
      LiveStays(s, a, id, s.slots[tid]);
    case Wild(_) => InTrieStays(s, a, id);
  }

  // ---------- slots, map, trie ----------

  lemma SlotAdds(x: Slot, id: nat, issued: nat)
    requires SlotOk(x, issued) && id !in x.added && id <= issued
    ensures SlotOk(Slot(x.tag, x.subs + [id], x.added + [id], x.removed), issued)
  {
    FilterPush(x.added, id, NotIn(x.removed));
  }

  lemma SlotRemoves(x: Slot, id: nat, issued: nat)
    requires SlotOk(x, issued) && id in x.added
    ensures SlotOk(Slot(x.tag, Filter(x.subs, Except(id)), x.added, x.removed + {id}), issued)
  {
    var narrow := NotIn(x.removed + {id});
    forall n | n in x.subs
      ensures Except(id)(n) == narrow(n)
    {
      FilterMember(x.added, NotIn(x.removed), n);
    }
    FilterSame(x.subs, Except(id), narrow);
    FilterTwice(x.added, NotIn(x.removed), narrow);
  }

  lemma NothingFiltered()
    ensures var none: seq<nat> := []; Filter(none, NotIn({})) == []
  {}

  lemma NewSlot(tag: nat, ids: seq<nat>, issued: nat)
    requires |ids| <= 1 && forall n :: 0 <= n < |ids| ==> ids[n] <= issued
    ensures SlotOk(Slot(tag, ids, ids, {}), issued)
  {
    hide Filter;
    NothingFiltered();
    if ids != [] {
      var none: seq<nat> := [];
      FilterPush(none, ids[0], NotIn({}));
      assert none + [ids[0]] == ids;
    }
  }

  lemma SlotStep(s: State, a: Action, k: nat)
    requires ArenaOk(s) && PcsOk(s) && Enabled(s, a) && k < |Apply(s, a).arena|
    ensures SlotOk(Apply(s, a).arena[k], Apply(s, a).issued)
  {
    hide TrieNext, InfoNext, Next, SlotsFree, TrieFree, SlotFree, Filter;
    var z, pc := Apply(s, a), s.pcs[a.i];
    assert PcOk(s, pc);
    if k == |s.arena| {
      NewSlot(z.arena[k].tag, z.arena[k].added, z.issued);
    } else {
      assert SlotOk(s.arena[k], s.issued);
      if a.Step? && pc.SPut? && pc.slot == k {
        SlotAdds(s.arena[k], pc.id, s.issued);
      } else if a.Step? && pc.UPut? && pc.slot == k {
        SlotRemoves(s.arena[k], pc.id, s.issued);
      }
    }
  }

  /** An id is added to one slot only. */
  lemma OneHome(s: State, a: Action, k: nat, l: nat, id: nat)
    requires ArenaOk(s) && PcsOk(s) && Enabled(s, a)
    requires var z := Apply(s, a); k < |z.arena| && l < |z.arena| && id in z.arena[k].added && id in z.arena[l].added
    ensures k == l
  {
    hide TrieNext, InfoNext, Next, SlotsFree, TrieFree, SlotFree, Filter;
    assert PcOk(s, s.pcs[a.i]);
    assert a.Subscribe? ==> Fresh(s.(issued := s.issued + 1), s.issued + 1);
  }

  lemma ArenaOkStep(s: State, a: Action)
    requires ArenaOk(s) && PcsOk(s) && Enabled(s, a)
    ensures ArenaOk(Apply(s, a))
  {
    hide Apply, PcsOk, Enabled, SlotOk;
    var z := Apply(s, a);
    forall k | 0 <= k < |z.arena|
      ensures SlotOk(z.arena[k], z.issued)
    {
      SlotStep(s, a, k);
    }
    forall k, l, id | 0 <= k < |z.arena| && 0 <= l < |z.arena| && id in z.arena[k].added && id in z.arena[l].added
      ensures k == l
    {
      OneHome(s, a, k, l, id);
    }
  }

  lemma MapStep(s: State, a: Action)
    requires MapOk(s) && PcsOk(s) && Enabled(s, a)
    ensures MapOk(Apply(s, a))
  {
    hide TrieNext, InfoNext, Next, SlotsFree, TrieFree, SlotFree, Filter;
    assert PcOk(s, s.pcs[a.i]);
  }

  lemma GrowsAt(xs: seq<Slot>, ys: seq<Slot>, k: nat)
    requires ArenaGrows(xs, ys) && k < |xs|
    ensures k < |ys| && forall id :: id in xs[k].added ==> id in ys[k].added
  {
    assert SlotGrows(xs[k], ys[k]);
  }

  lemma TrieStep(s: State, a: Action)
    requires TrieOk(s) && PcsOk(s) && Enabled(s, a)
    ensures TrieOk(Apply(s, a))
  {
    hide ArenaNext, InfoNext, Next, SlotsFree, TrieFree, SlotFree, Filter, SlotGrows;
    ArenaStep(s, a);
    var z, pc := Apply(s, a), s.pcs[a.i];
    assert PcOk(s, pc);
    forall j | 0 <= j < |z.trie|
      ensures z.trie[j].slot < |z.arena| && z.trie[j].id in z.arena[z.trie[j].slot].added
    {
      if a.Step? && pc.UTrie? {
        FilterMember(s.trie, (y: Item) => y.id != pc.id, z.trie[j]);
      }
      if z.trie[j] in s.trie {
        var l :| 0 <= l < |s.trie| && s.trie[l] == z.trie[j];
        GrowsAt(s.arena, z.arena, s.trie[l].slot);
      } else {
        GrowsAt(s.arena, z.arena, pc.slot);
      }
    }
  }

  lemma InfoStep(s: State, a: Action, id: nat)
    requires Inv(s) && Enabled(s, a) && id in Apply(s, a).info
    ensures Home(Apply(s, a), id, Apply(s, a).info[id])
  {
    hide ArenaNext, TrieNext, Next, Home, SlotsFree, TrieFree, SlotFree, ArenaOk, MapOk, TrieOk, GoneOk, Exclusive;
    var pc := s.pcs[a.i];
    assert PcOk(s, pc);
    if a.Step? && pc.SRecord? && pc.id == id {
      HomeStays(s, a, id, pc.target);
    } else {
      assert id in s.info;
      assert Owned(pc) != [] ==> Owned(pc)[0] != id;
      HomeStays(s, a, id, s.info[id]);
    }
  }

  lemma GoneStep(s: State, a: Action)
    requires GoneOk(s) && PcsOk(s) && Enabled(s, a)
    ensures GoneOk(Apply(s, a))
  {
    hide ArenaNext, TrieNext, InfoNext, Next, Dead, SlotsFree, TrieFree, SlotFree;
    assert PcOk(s, s.pcs[a.i]);
    forall id | id in Apply(s, a).past.gone
      ensures Dead(Apply(s, a), id)
    {
      DeadStays(s, a, id);
    }
  }

  // ---------- threads ----------

  /** What the lock holders rely on does not change under them. */
  lemma LockedStays(s: State, a: Action, j: nat)
    requires Exclusive(s.pcs) && PcsOk(s) && Enabled(s, a) && j < |s.pcs| && j != a.i
    ensures HoldsSlots(s.pcs[j]) ==> Apply(s, a).slots == s.slots
    ensures HoldsTrie(s.pcs[j]) ==> Apply(s, a).trie == s.trie
    ensures forall k: nat :: HoldsSlot(s.pcs[j], k) && k < |s.arena| ==> ListOf(Apply(s, a), k) == ListOf(s, k)
  {
    hide InfoNext, Next, SlotsFree, TrieFree, SlotFree, Filter;
    assert PcOk(s, s.pcs[a.i]);
  }

  lemma OtherPcStays(s: State, a: Action, j: nat)
    requires Inv(s) && Enabled(s, a) && j < |s.pcs| && j != a.i
    ensures PcOk(Apply(s, a), s.pcs[j])
  {
    hide Apply, Enabled, Live, InTrie, Fresh, Dead, ArenaOk, TrieOk, InfoOk, GoneOk, HoldsTrie, ListOf;
    var pc := s.pcs[j];
    assert PcOk(s, pc);
    SlotsStep(s, a);
    LockedStays(s, a, j);
    HolderOf(s, pc);
    SamePcs(s, a);
    PastGrows(s, a);
    if Owned(pc) != [] {
      assert Owned(s.pcs[a.i]) != Owned(pc);
      OwnerStays(s, a, pc.id);
    }
  }

  lemma PastGrows(s: State, a: Action)
    requires Enabled(s, a)
    ensures s.past.leaving <= Apply(s, a).past.leaving && s.past.subscribed <= Apply(s, a).past.subscribed
    ensures s.past.returned <= Apply(s, a).past.returned && s.past.gone <= Apply(s, a).past.gone
  {
    hide ArenaNext, TrieNext, InfoNext, Next;
  }

  lemma PastStep(s: State, a: Action)
    requires PastOk(s) && PcsOk(s) && Enabled(s, a)
    ensures PastOk(Apply(s, a))
  {
    hide ArenaNext, TrieNext, Next;
    assert PcOk(s, s.pcs[a.i]);
  }

  /** Whoever takes an id out of the record goes on to work on it. */
  lemma LiveOwnedStep(s: State, a: Action, k: nat, id: nat)
    requires Inv(s) && Enabled(s, a) && Live(Apply(s, a), id, k)
    ensures id in Apply(s, a).info || HasOwner(Apply(s, a).pcs, id)
  {
    hide Live, Fresh, Dead, InTrie, Home, ArenaNext, TrieNext, MapOk, TrieOk, InfoOk, GoneOk, Exclusive, Owners, Anchored, Matched;
    var pc, z := s.pcs[a.i], Apply(s, a);
    if !Live(s, id, k) {
      NewlyLive(s, a, id, k);
      assert Owned(z.pcs[a.i]) == [id];
    } else if id in s.info {
      OwnedNext(s, pc);
      assert id !in z.info ==> Owned(z.pcs[a.i]) == [id];
    } else {
      var j :| 0 <= j < |s.pcs| && Owned(s.pcs[j]) == [id];
      if j != a.i {
        assert z.pcs[j] == s.pcs[j];
      } else {
        OwnerGoesOn(s, pc, id, k);
        assert id in z.info || Owned(z.pcs[a.i]) == [id];
      }
    }
  }

  lemma NewlyLive(s: State, a: Action, id: nat, k: nat)
    requires Enabled(s, a) && Live(Apply(s, a), id, k) && !Live(s, id, k)
    ensures Owned(Apply(s, a).pcs[a.i]) == [id]
  {
    hide TrieNext, InfoNext, SlotOf, Matched, Filter;
  }

  /** The owner of a listed id neither gives up nor forgets it. */
  lemma OwnerGoesOn(s: State, pc: Pc, id: nat, k: nat)
    requires ArenaOk(s) && TrieOk(s) && PcOk(s, pc) && Owned(pc) == [id] && Live(s, id, k)
    ensures id in InfoNext(s, pc) || Owned(Next(s, pc)) == [id]
  {
    NotBoth(s, id, k);
    if pc.UTrieFind? { FoundInTrie(s, id); }
  }

  /** A listed id is neither removed nor still to be added. */
  lemma NotBoth(s: State, id: nat, k: nat)
    requires ArenaOk(s) && Live(s, id, k)
    ensures !Dead(s, id) && !Fresh(s, id)
  {}

  lemma HolderOf(s: State, pc: Pc)
    requires PcOk(s, pc) && MapOk(s)
    ensures pc.WPut? || pc.UTrie? || ((pc.ULock? || pc.UCopy? || pc.UPut?) && pc.base.Trie?) ==> HoldsTrie(pc)
    ensures pc.SPut? || pc.UPut? ==> pc.slot < |s.arena|
  {}

  /** A step of a thread that does not own the id. */
  lemma OwnerStays(s: State, a: Action, id: nat)
    requires PcsOk(s) && Enabled(s, a) && Owned(s.pcs[a.i]) != [id]
    ensures Fresh(s, id) ==> Fresh(Apply(s, a), id)
    ensures Dead(s, id) ==> Dead(Apply(s, a), id)
    ensures InTrie(s, id) ==> InTrie(Apply(s, a), id)
    ensures forall k :: Live(s, id, k) ==> Live(Apply(s, a), id, k)
  {
    hide Apply, Enabled, Live, InTrie, Fresh, Dead;
    if Fresh(s, id) { FreshStays(s, a, id); }
    if Dead(s, id) { DeadStays(s, a, id); }
    if InTrie(s, id) { InTrieStays(s, a, id); }
    forall k | Live(s, id, k)
      ensures Live(Apply(s, a), id, k)
    {
      LiveStays(s, a, id, k);
    }
  }

  lemma NewCall(s: State, a: Action)
    requires ArenaOk(s) && Enabled(s, a) && !a.Step?
    ensures PcOk(Apply(s, a), Apply(s, a).pcs[a.i])
  {
    hide SlotsFree, TrieFree, SlotFree, ArenaNext, TrieNext, InfoNext, Next;
    forall k | 0 <= k < |s.arena|
      ensures s.issued + 1 !in s.arena[k].added
    {
      assert SlotOk(s.arena[k], s.issued);
    }
  }

  /** The slot found in the trie is the one where the id lives. */
  lemma FoundInTrie(s: State, id: nat)
    requires ArenaOk(s) && TrieOk(s) && InTrie(s, id)
    ensures SlotOf(s.trie, id) != [] && Live(s, id, SlotOf(s.trie, id)[0])
  {
    hide SlotOk, SlotOf;
  }

  lemma RemovedIsDead(s: State, a: Action)
    requires Enabled(s, a) && a.Step? && s.pcs[a.i].UPut? && PcOk(s, s.pcs[a.i])
    ensures Dead(Apply(s, a), s.pcs[a.i].id)
  {
    hide TrieNext, InfoNext, Next;
    var k := s.pcs[a.i].slot;
    assert Apply(s, a).arena[k].removed == s.arena[k].removed + {s.pcs[a.i].id};
  }

  lemma AddedIsLive(s: State, a: Action)
    requires ArenaOk(s) && MapOk(s) && Enabled(s, a) && a.Step? && s.pcs[a.i].SPut? && PcOk(s, s.pcs[a.i])
    ensures var z := Apply(s, a); Home(z, s.pcs[a.i].id, Exact(s.pcs[a.i].tid))
  {
    hide TrieNext, InfoNext, Next;
    var pc, z := s.pcs[a.i], Apply(s, a);
    assert SlotOk(s.arena[pc.slot], s.issued);
    assert z.arena[pc.slot].added == s.arena[pc.slot].added + [pc.id];
    assert pc.id in z.arena[pc.slot].added;
  }

  lemma InsertedIsInTrie(s: State, a: Action)
    requires Enabled(s, a) && a.Step? && s.pcs[a.i].WPut? && PcOk(s, s.pcs[a.i])
    ensures InTrie(Apply(s, a), s.pcs[a.i].id)
  {
    hide ArenaNext, InfoNext, Next;
    var pc, z := s.pcs[a.i], Apply(s, a);
    assert z.trie[|s.trie|].id == pc.id && z.trie[|s.trie|].slot == pc.slot;
    LiveStays(s, a, pc.id, pc.slot);
  }

  /** A subscribing thread moves on. */
  lemma SubscriberStep(s: State, a: Action)
    requires Inv(s) && Enabled(s, a) && a.Step?
    requires var pc := s.pcs[a.i]; Owned(pc) != [] && !pc.UPut? && !pc.SPut? && !pc.WPut? && !pc.UTrieFind? && !pc.UTrie?
    ensures PcOk(Apply(s, a), Apply(s, a).pcs[a.i])
  {
    hide ArenaOk, TrieOk, InfoOk, GoneOk, Exclusive, SlotsFree, TrieFree, SlotFree, InfoNext, Fresh, Live, InTrie, Dead;
    var pc := s.pcs[a.i];
    assert PcOk(s, pc);
    SlotsStep(s, a);
    if Fresh(s, pc.id) { FreshStays(s, a, pc.id); }
    if Dead(s, pc.id) { DeadStays(s, a, pc.id); }
    if InTrie(s, pc.id) { InTrieStays(s, a, pc.id); }
    forall k | Live(s, pc.id, k)
      ensures Live(Apply(s, a), pc.id, k)
    {
      LiveStays(s, a, pc.id, k);
    }
  }

  /** What an unsubscribe has found recorded is where it says. */
  lemma ErasedHome(s: State, a: Action)
    requires Inv(s) && Enabled(s, a) && a.Step? && s.pcs[a.i].UErase?
    ensures PcOk(Apply(s, a), Apply(s, a).pcs[a.i])
  {
    hide ArenaOk, TrieOk, GoneOk, Exclusive, Owners, LiveOwned, PastOk, SlotsFree, TrieFree, SlotFree, InfoNext, ArenaNext, Fresh, Live, InTrie;
    var id := s.pcs[a.i].id;
    if id in s.info { HomeStays(s, a, id, s.info[id]); }
  }

  lemma OwnPcStep(s: State, a: Action)
    requires Inv(s) && Enabled(s, a)
    ensures PcOk(Apply(s, a), Apply(s, a).pcs[a.i])
  {
    hide ArenaOk, TrieOk, InfoOk, GoneOk, Exclusive, Owners, LiveOwned, PastOk;
    hide SlotsFree, TrieFree, SlotFree, InfoNext, ArenaNext, Fresh, Live, InTrie, Dead;
    var pc := s.pcs[a.i];
    assert PcOk(s, pc);
    if !a.Step? {
      NewCall(s, a);
    } else if pc.UPut? {
      RemovedIsDead(s, a);
    } else if pc.SPut? {
      AddedIsLive(s, a);
    } else if pc.WPut? {
      InsertedIsInTrie(s, a);
    } else if pc.UTrieFind? {
      FoundInTrie(s, pc.id);
      LiveStays(s, a, pc.id, SlotOf(s.trie, pc.id)[0]);
    } else if pc.UTrie? {
      DeadStays(s, a, pc.id);
    } else if pc.UErase? {
      ErasedHome(s, a);
    } else if Owned(pc) != [] {
      SubscriberStep(s, a);
    }
  }

  lemma InvParts(s: State)
    requires Inv(s)
    ensures PcsOk(s) && MapOk(s)
  {}

  /** Every step of every thread keeps the invariant. */
  lemma StepInv(s: State, a: Action)
    requires Inv(s) && Enabled(s, a)
    ensures Inv(Apply(s, a))
  {
    hide Apply, Enabled, PcOk, Home, Dead, Live, ArenaOk, MapOk, TrieOk, Owners, Exclusive, PastOk, HasOwner;
    ExclusiveStep(s, a);
    OwnersStep(s, a);
    ArenaOkStep(s, a);
    MapStep(s, a);
    TrieStep(s, a);
    GoneStep(s, a);
    var z := Apply(s, a);
    forall id | id in z.info
      ensures Home(z, id, z.info[id])
    {
      InfoStep(s, a, id);
    }
    SamePcs(s, a);
    OwnPcStep(s, a);
    PastStep(s, a);
    forall k, id | Live(z, id, k)
      ensures id in z.info || HasOwner(z.pcs, id)
    {
      LiveOwnedStep(s, a, k, id);
    }
    forall j | 0 <= j < |z.pcs|
      ensures PcOk(z, z.pcs[j])
    {
      if j != a.i { OtherPcStays(s, a, j); }
    }
  }

  lemma SamePcs(s: State, a: Action)
    requires Enabled(s, a)
    ensures a.i < |Apply(s, a).pcs| == |s.pcs| && forall j :: 0 <= j < |s.pcs| && j != a.i ==> Apply(s, a).pcs[j] == s.pcs[j]
  {}

  lemma InitInv(s: State)
    requires Init(s)
    ensures Inv(s)
  {}

  lemma {:induction false} RunInv(s: State, acts: seq<Action>)
    requires Inv(s) && Legal(s, acts)
    ensures Inv(Exec(s, acts))
    decreases |acts|
  {
    hide Inv, Apply, Enabled;
    if acts != [] {
      StepInv(s, acts[0]);
      RunInv(Apply(s, acts[0]), acts[1..]);
    }
  }
}
