/** What the trie snapshots look like in every reachable state, and how each id stays tied to what its
    subscribe asked for. */
module SubscriptionShape {
  import opened Seqs
  import opened SubscriptionProtocol
  import opened SubscriptionProofs

  // ---------- the trie ----------

  /** A slot made for one wildcard subscription: no topic has it. */
  ghost predicate OwnSlot(s: State, id: nat, k: nat) {
    k < |s.arena| && s.arena[k].added == [id] && k !in s.slots.Values
  }

  ghost predicate Unlisted(s: State, id: nat) { forall j :: 0 <= j < |s.trie| ==> s.trie[j].id != id }

  ghost predicate Entered(s: State, id: nat, pattern: string) {
    exists j :: 0 <= j < |s.trie| && s.trie[j].id == id && s.trie[j].pattern == pattern
  }

  ghost predicate ItemOk(s: State, x: Item) { OwnSlot(s, x.id, x.slot) && x.tag == s.arena[x.slot].tag }

  ghost predicate PendingOk(s: State, pc: Pc) {
    && (pc.WLock? || pc.WCopy? || pc.WPut? ==> OwnSlot(s, pc.id, pc.slot) && Unlisted(s, pc.id))
    && (pc.SRecord? && pc.target.Wild? ==> Entered(s, pc.id, pc.target.pattern))
  }

  ghost predicate ItemsOk(s: State) {
    && (forall j :: 0 <= j < |s.trie| ==> ItemOk(s, s.trie[j]))
    && (forall j, l :: 0 <= j < l < |s.trie| ==> s.trie[j].id != s.trie[l].id)
  }

  ghost predicate ShapeInv(s: State) {
    && ItemsOk(s)
    && (forall i :: 0 <= i < |s.pcs| ==> PendingOk(s, s.pcs[i]))
    && (forall id :: id in s.info && s.info[id].Wild? ==> Entered(s, id, s.info[id].pattern))
  }

  /** Steps leave the slots of wildcard subscriptions to them. */
  lemma OwnSlotStays(s: State, a: Action, id: nat, k: nat)
    requires Inv(s) && Enabled(s, a) && OwnSlot(s, id, k)
    ensures OwnSlot(Apply(s, a), id, k) && Apply(s, a).arena[k].tag == s.arena[k].tag
  {
    hide TrieNext, InfoNext, Next, ArenaOk, TrieOk, InfoOk, GoneOk, Exclusive, Owners, PastOk, LiveOwned, Fresh, Live, InTrie, Dead, Anchored;
    assert PcOk(s, s.pcs[a.i]);
  }

  /** An id stays out of the trie unless its own insertion is published. */
  lemma UnlistedStays(s: State, a: Action, id: nat)
    requires Inv(s) && Enabled(s, a) && Unlisted(s, id) && !(a.Step? && s.pcs[a.i].WPut? && s.pcs[a.i].id == id)
    ensures Unlisted(Apply(s, a), id)
  {
    hide ArenaNext, InfoNext, Next, ArenaOk, MapOk, TrieOk, InfoOk, GoneOk, Exclusive, Owners, PastOk, LiveOwned, Filter;
    assert PcOk(s, s.pcs[a.i]);
    var z := Apply(s, a);
    forall j | 0 <= j < |z.trie|
      ensures z.trie[j].id != id
    {
      if a.Step? && s.pcs[a.i].UTrie? { FilterMember(s.trie, (y: Item) => y.id != s.pcs[a.i].id, z.trie[j]); }
    }
  }

  /** An entry stays until its own removal is published. */
  lemma EnteredStays(s: State, a: Action, id: nat, pattern: string)
    requires Inv(s) && Enabled(s, a) && Entered(s, id, pattern) && !(a.Step? && s.pcs[a.i].UTrie? && s.pcs[a.i].id == id)
    ensures Entered(Apply(s, a), id, pattern)
  {
    hide ArenaNext, InfoNext, Next, ArenaOk, MapOk, TrieOk, InfoOk, GoneOk, Exclusive, Owners, PastOk, LiveOwned, Filter;
    assert PcOk(s, s.pcs[a.i]);
    var j :| 0 <= j < |s.trie| && s.trie[j].id == id && s.trie[j].pattern == pattern;
    if a.Step? && s.pcs[a.i].UTrie? { FilterMember(s.trie, (y: Item) => y.id != s.pcs[a.i].id, s.trie[j]); }
    assert s.trie[j] in Apply(s, a).trie;
  }

  lemma {:induction false} FilterDistinctIds(items: seq<Item>, keep: Item -> bool)
    requires forall j, l :: 0 <= j < l < |items| ==> items[j].id != items[l].id
    ensures var r := Filter(items, keep); forall j, l :: 0 <= j < l < |r| ==> r[j].id != r[l].id
  {
    if items != [] {
      var before, x := items[..|items| - 1], items[|items| - 1];
      FilterDistinctIds(before, keep);
      var r := Filter(before, keep);
      forall j | 0 <= j < |r|
        ensures r[j].id != x.id
      {
        FilterMember(before, keep, r[j]);
        var l :| 0 <= l < |before| && before[l] == r[j];
        assert items[l] == r[j];
      }
    }
  }

  lemma ItemsStep(s: State, a: Action)
    requires Inv(s) && ShapeInv(s) && Enabled(s, a)
    ensures ItemsOk(Apply(s, a))
  {
    var z, pc := Apply(s, a), s.pcs[a.i];
    assert PcOk(s, pc) && PendingOk(s, pc);
    TrieAfter(s, a);
    hide Apply, Enabled, Inv, OwnSlot;
    forall j | 0 <= j < |z.trie|
      ensures ItemOk(z, z.trie[j])
    {
      OwnSlotStays(s, a, z.trie[j].id, z.trie[j].slot);
    }
  }

  /** What a step makes of the trie. */
  lemma TrieAfter(s: State, a: Action)
    requires Inv(s) && ShapeInv(s) && Enabled(s, a)
    ensures var z := Apply(s, a);
            && (forall j, l :: 0 <= j < l < |z.trie| ==> z.trie[j].id != z.trie[l].id)
            && (forall j :: 0 <= j < |z.trie| ==> ItemOk(s, z.trie[j]))
  {
    hide ArenaNext, InfoNext, Next, ArenaOk, MapOk, TrieOk, InfoOk, GoneOk, Exclusive, Owners, PastOk, LiveOwned, Filter, ItemOk;
    var pc, z := s.pcs[a.i], Apply(s, a);
    assert PcOk(s, pc) && PendingOk(s, pc);
    if a.Step? && pc.UTrie? {
      FewerItems(s, pc.id);
    } else if a.Step? && pc.WPut? {
      NewItem(s, pc);
    }
  }

  lemma NewItem(s: State, pc: Pc)
    requires pc.WPut? && PendingOk(s, pc)
    ensures ItemOk(s, Item(pc.pattern, TagOf(s, pc.slot), pc.slot, pc.id))
  {}

  lemma FewerItems(s: State, id: nat)
    requires ItemsOk(s)
    ensures var r := Without(s.trie, id);
            && (forall j, l :: 0 <= j < l < |r| ==> r[j].id != r[l].id)
            && (forall j :: 0 <= j < |r| ==> ItemOk(s, r[j]))
  {
    hide ItemOk, Filter;
    var keep := (x: Item) => x.id != id;
    var r := Without(s.trie, id);
    assert r == Filter(s.trie, keep);
    FilterDistinctIds(s.trie, keep);
    forall j | 0 <= j < |r|
      ensures ItemOk(s, r[j])
    {
      FilterMember(s.trie, keep, r[j]);
    }
  }

  /** What a thread that does not move waits to publish stays as it is. */
  lemma OtherPending(s: State, a: Action, j: nat)
    requires Inv(s) && ShapeInv(s) && Enabled(s, a) && j < |s.pcs| && j != a.i
    ensures PendingOk(Apply(s, a), s.pcs[j])
  {
    var pc := s.pcs[j];
    assert PendingOk(s, pc) && (Owned(pc) != [] ==> Owned(s.pcs[a.i]) != Owned(pc));
    hide Apply, Enabled, Inv, OwnSlot, Unlisted, Entered, ItemsOk;
    if pc.WLock? || pc.WCopy? || pc.WPut? {
      OwnSlotStays(s, a, pc.id, pc.slot);
      UnlistedStays(s, a, pc.id);
    } else if pc.SRecord? && pc.target.Wild? {
      EnteredStays(s, a, pc.id, pc.target.pattern);
    }
  }

  lemma OwnPending(s: State, a: Action)
    requires Inv(s) && ShapeInv(s) && Enabled(s, a)
    ensures PendingOk(Apply(s, a), Apply(s, a).pcs[a.i])
  {
    var pc := s.pcs[a.i];
    assert PcOk(s, pc) && PendingOk(s, pc);
    if !a.Step? {
      if a.Subscribe? { NewPending(s, a); }
    } else if pc.WPut? {
      assert Apply(s, a).trie[|s.trie|].id == pc.id;
    } else if pc.WLock? || pc.WCopy? {
      OwnSlotStays(s, a, pc.id, pc.slot);
      UnlistedStays(s, a, pc.id);
    } else {
      NothingPending(s, pc);
    }
  }

  lemma NothingPending(s: State, pc: Pc)
    requires !pc.WPut? && !pc.WLock? && !pc.WCopy?
    ensures var pc' := Next(s, pc); !pc'.WLock? && !pc'.WCopy? && !pc'.WPut? && (pc'.SRecord? ==> pc'.target.Exact?)
  {}

  lemma NewPending(s: State, a: Action)
    requires Inv(s) && ShapeInv(s) && Enabled(s, a) && a.Subscribe?
    ensures PendingOk(Apply(s, a), Apply(s, a).pcs[a.i])
  {
    hide TrieNext, InfoNext, Next, Exclusive, Owners, InfoOk, GoneOk, PastOk, LiveOwned;
    forall j | 0 <= j < |s.trie|
      ensures s.trie[j].id <= s.issued
    {
      assert ItemOk(s, s.trie[j]);
      assert SlotOk(s.arena[s.trie[j].slot], s.issued) && s.arena[s.trie[j].slot].added[0] == s.trie[j].id;
    }
  }

  /** Every step keeps the trie in shape. */
  lemma ShapeStep(s: State, a: Action)
    requires Inv(s) && ShapeInv(s) && Enabled(s, a)
    ensures ShapeInv(Apply(s, a))
  {
    hide Apply, Enabled, Inv, ItemsOk, PendingOk, Entered;
    var z := Apply(s, a);
    ItemsStep(s, a);
    SamePcs(s, a);
    forall i | 0 <= i < |z.pcs|
      ensures PendingOk(z, z.pcs[i])
    {
      if i == a.i { OwnPending(s, a); } else { OtherPending(s, a, i); }
    }
    forall id | id in z.info && z.info[id].Wild?
      ensures Entered(z, id, z.info[id].pattern)
    {
      RecordedStays(s, a, id);
    }
  }

  lemma RecordedStays(s: State, a: Action, id: nat)
    requires Inv(s) && ShapeInv(s) && Enabled(s, a) && id in Apply(s, a).info && Apply(s, a).info[id].Wild?
    ensures Entered(Apply(s, a), id, Apply(s, a).info[id].pattern)
  {
    hide ArenaNext, TrieNext, Next, ArenaOk, MapOk, TrieOk, InfoOk, GoneOk, Exclusive, PastOk, LiveOwned, ItemsOk, Entered;
    var pc := s.pcs[a.i];
    assert PendingOk(s, pc);
    if a.Step? && pc.SRecord? && pc.id == id {
      EnteredStays(s, a, id, pc.target.pattern);
    } else {
      assert id in s.info && (Owned(pc) != [] ==> Owned(pc)[0] != id);
      EnteredStays(s, a, id, s.info[id].pattern);
    }
  }

  lemma InitShape(s: State)
    requires Init(s)
    ensures ShapeInv(s)
  {}

  // ---------- what each id was asked for ----------

  datatype Ask = Ask(target: Target, tag: nat)

  /** Every call of subscribe, noted under the id it is given. */
  function Asked(asks: map<nat, Ask>, s: State, a: Action): map<nat, Ask> {
    if a.Subscribe? then asks[s.issued + 1 := Ask(a.target, a.tag)] else asks
  }

  function Asks(asks: map<nat, Ask>, s: State, acts: seq<Action>): map<nat, Ask>
    requires Legal(s, acts)
    decreases |acts|
  {
    if acts == [] then asks else Asks(Asked(asks, s, acts[0]), Apply(s, acts[0]), acts[1..])
  }

  ghost predicate PcAsk(s: State, pc: Pc, ask: Ask) {
    match pc
    case SLookup(_, tid, tag) => ask == Ask(Exact(tid), tag)
    case SLock(_, tid, tag) => ask == Ask(Exact(tid), tag)
    case SCheck(_, tid, tag) => ask == Ask(Exact(tid), tag)
    case SMake(_, tid, tag, _) => ask == Ask(Exact(tid), tag)
    case SAdd(_, k, tid) => ask == Ask(Exact(tid), TagOf(s, k))
    case SCopy(_, k, tid) => ask == Ask(Exact(tid), TagOf(s, k))
    case SPut(_, k, tid, _) => ask == Ask(Exact(tid), TagOf(s, k))
    case WLock(_, _, p) => ask.target == Wild(p)
    case WCopy(_, _, p) => ask.target == Wild(p)
    case WPut(_, _, p, _) => ask.target == Wild(p)
    case SRecord(_, target) => ask.target == target
    case _ => true
  }

  /** Wherever the id is, it is with the target and the type it was asked for. */
  ghost predicate AskOk(s: State, id: nat, ask: Ask) {
    && (forall i :: 0 <= i < |s.pcs| && Owned(s.pcs[i]) == [id] ==> PcAsk(s, s.pcs[i], ask))
    && (id in s.info ==> s.info[id] == ask.target)
    && (forall k :: 0 <= k < |s.arena| && id in s.arena[k].added ==> s.arena[k].tag == ask.tag)
  }

  lemma NewAsk(s: State, a: Action)
    requires Inv(s) && Enabled(s, a) && a.Subscribe?
    ensures AskOk(Apply(s, a), s.issued + 1, Ask(a.target, a.tag))
  {
    hide TrieNext, InfoNext, Next, Exclusive, TrieOk, MapOk, InfoOk, GoneOk, PastOk, LiveOwned, Filter;
    Unowned(s, s.issued + 1);
    forall k | 0 <= k < |s.arena|
      ensures s.issued + 1 !in s.arena[k].added
    {
      assert SlotOk(s.arena[k], s.issued);
    }
  }

  /** Tags never change, and an id is added by the call that works on it. */
  lemma TagsStay(s: State, a: Action, id: nat, ask: Ask)
    requires Inv(s) && Enabled(s, a) && id <= s.issued && AskOk(s, id, ask)
    ensures forall k :: 0 <= k < |Apply(s, a).arena| && id in Apply(s, a).arena[k].added ==> Apply(s, a).arena[k].tag == ask.tag
  {
    hide TrieNext, InfoNext, Next, Exclusive, Owners, TrieOk, MapOk, InfoOk, GoneOk, PastOk, LiveOwned, Filter, ArenaOk;
    assert PcOk(s, s.pcs[a.i]);
    assert Owned(s.pcs[a.i]) == [id] ==> PcAsk(s, s.pcs[a.i], ask);
  }

  lemma InfoAsk(s: State, a: Action, id: nat, ask: Ask)
    requires Enabled(s, a) && AskOk(s, id, ask)
    ensures id in Apply(s, a).info ==> Apply(s, a).info[id] == ask.target
  {
    hide ArenaNext, TrieNext, Next;
    assert Owned(s.pcs[a.i]) == [id] ==> PcAsk(s, s.pcs[a.i], ask);
  }

  /** The type of a slot that exists is fixed. */
  lemma TagOfStays(s: State, a: Action, k: nat)
    requires Enabled(s, a) && k < |s.arena|
    ensures TagOf(Apply(s, a), k) == TagOf(s, k)
  {
    hide Apply;
    ArenaStep(s, a);
    assert SlotGrows(s.arena[k], Apply(s, a).arena[k]);
  }

  lemma OtherAsk(s: State, a: Action, j: nat, ask: Ask)
    requires Inv(s) && Enabled(s, a) && j < |s.pcs| && j != a.i && PcAsk(s, s.pcs[j], ask)
    ensures PcAsk(Apply(s, a), s.pcs[j], ask)
  {
    var pc := s.pcs[j];
    assert PcOk(s, pc);
    InvParts(s);
    hide Apply, Enabled, Inv, TagOf;
    if pc.SAdd? || pc.SCopy? || pc.SPut? { TagOfStays(s, a, pc.slot); }
  }

  lemma OwnAsk(s: State, a: Action, ask: Ask)
    requires Inv(s) && Enabled(s, a) && a.Step? && Owned(s.pcs[a.i]) != [] && PcAsk(s, s.pcs[a.i], ask)
    ensures PcAsk(Apply(s, a), Apply(s, a).pcs[a.i], ask)
  {
    var pc := s.pcs[a.i];
    assert PcOk(s, pc);
    InvParts(s);
    hide Inv, Apply, Next, PcsOk, MapOk, TagOf, Enabled, PcAsk, PcOk;
    StepsTo(s, a);
    if pc.SAdd? || pc.SCopy? || pc.SPut? {
      AddSlot(s, pc);
      TagOfStays(s, a, pc.slot);
      AddAsk(s, Apply(s, a), pc, ask);
    } else if pc.SLookup? || pc.SLock? || pc.SCheck? || pc.SMake? {
      LookAsk(s, a, ask);
    } else {
      LateAsk(s, Apply(s, a), pc, ask);
    }
  }

  lemma StepsTo(s: State, a: Action)
    requires Enabled(s, a) && a.Step?
    ensures Apply(s, a).pcs[a.i] == Next(s, s.pcs[a.i])
  {}

  lemma AddSlot(s: State, pc: Pc)
    requires MapOk(s) && PcOk(s, pc) && (pc.SAdd? || pc.SCopy? || pc.SPut?)
    ensures pc.slot < |s.arena|
  {}

  lemma LookAsk(s: State, a: Action, ask: Ask)
    requires Enabled(s, a) && a.Step? && PcAsk(s, s.pcs[a.i], ask)
    requires var pc := s.pcs[a.i]; pc.SLookup? || pc.SLock? || pc.SCheck? || pc.SMake?
    ensures PcAsk(Apply(s, a), Apply(s, a).pcs[a.i], ask)
  {
    hide TrieNext, InfoNext, Found;
    var pc := s.pcs[a.i];
    if (pc.SLookup? || pc.SCheck?) && pc.tid in s.slots { FoundAsk(s, pc); }
  }

  lemma LateAsk(s: State, z: State, pc: Pc, ask: Ask)
    requires !pc.SLookup? && !pc.SLock? && !pc.SCheck? && !pc.SMake? && !pc.SAdd? && !pc.SCopy? && !pc.SPut?
    requires PcAsk(s, pc, ask)
    ensures PcAsk(z, Next(s, pc), ask)
  {}

  lemma FoundAsk(s: State, pc: Pc)
    requires (pc.SLookup? || pc.SCheck?) && pc.tid in s.slots
    ensures var pc' := Found(s, pc.id, pc.tid, pc.tag);
            pc'.Idle? || (pc'.SAdd? && pc'.tid == pc.tid && pc'.slot < |s.arena| && s.arena[pc'.slot].tag == pc.tag)
  {}

  lemma AddAsk(s: State, z: State, pc: Pc, ask: Ask)
    requires (pc.SAdd? || pc.SCopy? || pc.SPut?) && PcAsk(s, pc, ask) && TagOf(z, pc.slot) == TagOf(s, pc.slot)
    ensures PcAsk(z, Next(s, pc), ask)
  {}

  lemma AskStep(s: State, a: Action, id: nat, ask: Ask)
    requires Inv(s) && Enabled(s, a) && id <= s.issued && AskOk(s, id, ask)
    ensures AskOk(Apply(s, a), id, ask)
  {
    hide Inv, Apply, Enabled, PcAsk;
    TagsStay(s, a, id, ask);
    InfoAsk(s, a, id, ask);
    SamePcs(s, a);
    var z := Apply(s, a);
    forall i | 0 <= i < |z.pcs| && Owned(z.pcs[i]) == [id]
      ensures PcAsk(z, z.pcs[i], ask)
    {
      if i != a.i {
        OtherAsk(s, a, i, ask);
      } else {
        OwnedBefore(s, a, id);
        if Owned(s.pcs[i]) == [id] { OwnAsk(s, a, ask); } else { JustErased(s, a, ask); }
      }
    }
  }

  /** An id that a thread works on was its own before, or has just been taken out of the record. */
  lemma OwnedBefore(s: State, a: Action, id: nat)
    requires Enabled(s, a) && id <= s.issued && Owned(Apply(s, a).pcs[a.i]) == [id]
    ensures a.Step? && (Owned(s.pcs[a.i]) == [id] || s.pcs[a.i].UErase?)
  {
    hide ArenaNext, TrieNext, InfoNext, Next;
    if a.Step? { OwnedNext(s, s.pcs[a.i]); }
  }

  lemma JustErased(s: State, a: Action, ask: Ask)
    requires Enabled(s, a) && a.Step? && s.pcs[a.i].UErase?
    ensures PcAsk(Apply(s, a), Apply(s, a).pcs[a.i], ask)
  {
    hide ArenaNext, TrieNext, InfoNext;
  }

  ghost predicate AsksOk(asks: map<nat, Ask>, s: State) {
    forall id :: 1 <= id <= s.issued ==> id in asks && AskOk(s, id, asks[id])
  }

  ghost predicate Shaped(asks: map<nat, Ask>, s: State) { Inv(s) && ShapeInv(s) && AsksOk(asks, s) }

  lemma ShapedStep(asks: map<nat, Ask>, s: State, a: Action)
    requires Shaped(asks, s) && Enabled(s, a)
    ensures Shaped(Asked(asks, s, a), Apply(s, a)) && s.issued <= Apply(s, a).issued
    ensures forall id :: 1 <= id <= s.issued ==> id in asks && id in Asked(asks, s, a) && Asked(asks, s, a)[id] == asks[id]
  {
    hide Inv, ShapeInv, AskOk;
    StepInv(s, a);
    ShapeStep(s, a);
    IssuedStep(s, a);
    hide Apply, Enabled;
    forall id | 1 <= id <= Apply(s, a).issued
      ensures id in Asked(asks, s, a) && AskOk(Apply(s, a), id, Asked(asks, s, a)[id])
    {
      if id <= s.issued { AskStep(s, a, id, asks[id]); } else { NewAsk(s, a); }
    }
  }

  lemma IssuedStep(s: State, a: Action)
    requires Enabled(s, a)
    ensures Apply(s, a).issued == s.issued + (if a.Subscribe? then 1 else 0)
  {}

  lemma {:induction false} ShapedRun(asks: map<nat, Ask>, s: State, acts: seq<Action>)
    requires Shaped(asks, s) && Legal(s, acts)
    ensures Shaped(Asks(asks, s, acts), Exec(s, acts))
    decreases |acts|
  {
    hide Shaped, Apply, Enabled, Asked;
    if acts != [] {
      ShapedStep(asks, s, acts[0]);
      ShapedRun(Asked(asks, s, acts[0]), Apply(s, acts[0]), acts[1..]);
    }
  }

  lemma InitShaped(s: State)
    requires Init(s)
    ensures Shaped(map[], s)
  {
    InitInv(s);
    InitShape(s);
  }
}
