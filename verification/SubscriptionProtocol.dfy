/** Subscribing, unsubscribing and dispatching from any number of threads: slot maps, trie
    snapshots and subscriber lists are copied on write under locks and loaded without. */
module SubscriptionProtocol {
  import opened Seqs
  import opened TopicLevels
  import TrieSpec

  datatype Target = Exact(tid: nat) | Wild(pattern: string)

  datatype Msg = Msg(tid: nat, tag: nat, topic: string)

  /** subs is the published list; added and removed record what happened to it. */
  datatype Slot = Slot(tag: nat, subs: seq<nat>, added: seq<nat>, removed: set<nat>)

  /** An entry of a trie snapshot. */
  datatype Item = Item(pattern: string, tag: nat, slot: nat, id: nat)

  /** Whether a removal from a slot happens inside a removal from the trie. */
  datatype Base = NoTrie | Trie(items: seq<Item>)

  /** Where a thread is: S and W subscribe (exact and wildcard), U unsubscribe, D dispatch. */
  datatype Pc =
    | Idle
    | SLookup(id: nat, tid: nat, tag: nat)
    | SLock(id: nat, tid: nat, tag: nat)
    | SCheck(id: nat, tid: nat, tag: nat)
    | SMake(id: nat, tid: nat, tag: nat, slots: map<nat, nat>)
    | SAdd(id: nat, slot: nat, tid: nat)
    | SCopy(id: nat, slot: nat, tid: nat)
    | SPut(id: nat, slot: nat, tid: nat, list: seq<nat>)
    | WLock(id: nat, slot: nat, pattern: string)
    | WCopy(id: nat, slot: nat, pattern: string)
    | WPut(id: nat, slot: nat, pattern: string, items: seq<Item>)
    | SRecord(id: nat, target: Target)
    | UErase(id: nat)
    | UFind(id: nat, tid: nat)
    | UTrieLock(id: nat)
    | UTrieFind(id: nat)
    | ULock(id: nat, slot: nat, base: Base)
    | UCopy(id: nat, slot: nat, base: Base)
    | UPut(id: nat, slot: nat, base: Base, list: seq<nat>)
    | UTrie(id: nat, items: seq<Item>)
    | UReturn(id: nat)
    | DExact(msg: Msg)
    | DTrie(msg: Msg)
    | DList(msg: Msg, todo: seq<nat>, wild: bool)
    | DRun(msg: Msg, todo: seq<nat>, wild: bool, list: seq<nat>)

  datatype Call = Call(thread: nat, id: nat, msg: Msg)

  /** What has happened to each id: its subscribe has returned, an unsubscribe of it has been
      called, one has returned, and one that found it recorded has returned. */
  datatype History = History(subscribed: set<nat>, leaving: set<nat>, returned: set<nat>, gone: set<nat>)

  /** issued counts the ids handed out. */
  datatype State = State(
    slots: map<nat, nat>, arena: seq<Slot>, trie: seq<Item>, info: map<nat, Target>, issued: nat,
    pcs: seq<Pc>, past: History, calls: seq<Call>)

  datatype Action =
    | Subscribe(i: nat, target: Target, tag: nat)
    | Unsubscribe(i: nat, id: nat)
    | Dispatch(i: nat, msg: Msg)
    | Step(i: nat)

  // ---------- locks ----------

  predicate HoldsSlots(pc: Pc) { pc.SCheck? || pc.SMake? }

  predicate HoldsTrie(pc: Pc) {
    || pc.WCopy? || pc.WPut? || pc.UTrieFind? || pc.UTrie?
    || ((pc.ULock? || pc.UCopy? || pc.UPut?) && pc.base.Trie?)
  }

  predicate HoldsSlot(pc: Pc, k: nat) { (pc.SCopy? || pc.SPut? || pc.UCopy? || pc.UPut?) && pc.slot == k }

  predicate SlotsFree(pcs: seq<Pc>) { forall j :: 0 <= j < |pcs| ==> !HoldsSlots(pcs[j]) }

  predicate TrieFree(pcs: seq<Pc>) { forall j :: 0 <= j < |pcs| ==> !HoldsTrie(pcs[j]) }

  predicate SlotFree(pcs: seq<Pc>, k: nat) { forall j :: 0 <= j < |pcs| ==> !HoldsSlot(pcs[j], k) }

  predicate Enabled(s: State, a: Action) {
    && a.i < |s.pcs|
    && if !a.Step? then s.pcs[a.i].Idle?
       else
         var pc := s.pcs[a.i];
         && !pc.Idle?
         && (pc.SLock? ==> SlotsFree(s.pcs))
         && (pc.WLock? || pc.UTrieLock? ==> TrieFree(s.pcs))
         && (pc.SAdd? || pc.ULock? ==> SlotFree(s.pcs, pc.slot))
  }

  // ---------- steps ----------

  /** checkedSlot: a slot of another type is an error, which ends the call. */
  function Found(s: State, id: nat, tid: nat, tag: nat): Pc
    requires tid in s.slots
  {
    var k := s.slots[tid];
    if k < |s.arena| && s.arena[k].tag == tag then SAdd(id, k, tid) else Idle
  }

  function ListOf(s: State, k: nat): seq<nat> { if k < |s.arena| then s.arena[k].subs else [] }

  /** The slots a walk over a snapshot reports: each entry of the type as often as the walk visits
      the node of its pattern, which for ambiguous topics can be more than once. */
  function Matched(items: seq<Item>, msg: Msg): seq<nat> {
    if items == [] then []
    else
      var x := items[|items| - 1];
      Matched(items[..|items| - 1], msg)
      + (if x.tag == msg.tag then Copies(TrieSpec.Visits(Split(msg.topic), Split(x.pattern)), x.slot) else [])
  }

  function Without(items: seq<Item>, id: nat): seq<Item> { Filter(items, (x: Item) => x.id != id) }

  /** The slot of the entry with this id, if the snapshot has one. */
  function SlotOf(items: seq<Item>, id: nat): (r: seq<nat>)
    ensures r == [] <==> forall j :: 0 <= j < |items| ==> items[j].id != id
    ensures r != [] ==> exists j :: 0 <= j < |items| && items[j].id == id && items[j].slot == r[0]
  {
    if items == [] then []
    else if items[|items| - 1].id == id then [items[|items| - 1].slot]
    else SlotOf(items[..|items| - 1], id)
  }

  function Next(s: State, pc: Pc): Pc {
    match pc
    case Idle => Idle
    case SLookup(id, tid, tag) => if tid in s.slots then Found(s, id, tid, tag) else SLock(id, tid, tag)
    case SLock(id, tid, tag) => SCheck(id, tid, tag)
    case SCheck(id, tid, tag) => if tid in s.slots then Found(s, id, tid, tag) else SMake(id, tid, tag, s.slots)
    case SMake(id, tid, _, _) => SAdd(id, |s.arena|, tid)
    case SAdd(id, k, tid) => SCopy(id, k, tid)
    case SCopy(id, k, tid) => SPut(id, k, tid, ListOf(s, k))
    case SPut(id, _, tid, _) => SRecord(id, Exact(tid))
    case WLock(id, k, p) => WCopy(id, k, p)
    case WCopy(id, k, p) => WPut(id, k, p, s.trie)
    case WPut(id, _, p, _) => SRecord(id, Wild(p))
    case SRecord(_, _) => Idle
    case UErase(id) =>
      if id !in s.info then Idle else if s.info[id].Exact? then UFind(id, s.info[id].tid) else UTrieLock(id)
    case UFind(id, tid) => if tid in s.slots then ULock(id, s.slots[tid], NoTrie) else UReturn(id)
    case UTrieLock(id) => UTrieFind(id)
    case UTrieFind(id) => var r := SlotOf(s.trie, id); if r == [] then UReturn(id) else ULock(id, r[0], Trie(s.trie))
    case ULock(id, k, base) => UCopy(id, k, base)
    case UCopy(id, k, base) => UPut(id, k, base, ListOf(s, k))
    case UPut(id, _, base, _) => if base.Trie? then UTrie(id, base.items) else UReturn(id)
    case UTrie(id, _) => UReturn(id)
    case UReturn(_) => Idle
    case DExact(m) =>
      if m.tid in s.slots && s.slots[m.tid] < |s.arena| && s.arena[s.slots[m.tid]].tag == m.tag
      then DList(m, [s.slots[m.tid]], false) else DTrie(m)
    case DTrie(m) => DList(m, Matched(s.trie, m), true)
    case DList(m, todo, wild) =>
      if todo != [] then DRun(m, todo[1..], wild, ListOf(s, todo[0])) else if wild then Idle else DTrie(m)
    case DRun(m, todo, wild, list) => if list != [] then DRun(m, todo, wild, list[1..]) else DList(m, todo, wild)
  }

  function ArenaNext(s: State, pc: Pc): seq<Slot> {
    if pc.SMake? then s.arena + [Slot(pc.tag, [], [], {})]
    else if pc.SPut? && pc.slot < |s.arena| then
      var x := s.arena[pc.slot];
      s.arena[pc.slot := Slot(x.tag, pc.list + [pc.id], x.added + [pc.id], x.removed)]
    else if pc.UPut? && pc.slot < |s.arena| then
      var x := s.arena[pc.slot];
      s.arena[pc.slot := Slot(x.tag, Filter(pc.list, Except(pc.id)), x.added, x.removed + {pc.id})]
    else s.arena
  }

  function TagOf(s: State, k: nat): nat { if k < |s.arena| then s.arena[k].tag else 0 }

  function TrieNext(s: State, pc: Pc): seq<Item> {
    if pc.WPut? then pc.items + [Item(pc.pattern, TagOf(s, pc.slot), pc.slot, pc.id)]
    else if pc.UTrie? then Without(pc.items, pc.id)
    else s.trie
  }

  function InfoNext(s: State, pc: Pc): map<nat, Target> {
    if pc.SRecord? then s.info[pc.id := pc.target]
    else if pc.UErase? then s.info - {pc.id}
    else s.info
  }

  /** Recording is the last thing subscribe does before it returns; an unsubscribe that finds
      nothing recorded returns at once. */
  function PastNext(s: State, pc: Pc): History {
    var h := s.past;
    if pc.SRecord? then h.(subscribed := h.subscribed + {pc.id})
    else if pc.UErase? && pc.id !in s.info then h.(returned := h.returned + {pc.id})
    else if pc.UReturn? then h.(returned := h.returned + {pc.id}, gone := h.gone + {pc.id})
    else h
  }

  function Apply(s: State, a: Action): State
    requires Enabled(s, a)
  {
    match a
    case Subscribe(i, target, tag) =>
      var id := s.issued + 1;
      if target.Exact? then s.(issued := id, pcs := s.pcs[i := SLookup(id, target.tid, tag)])
      else s.(issued := id, pcs := s.pcs[i := WLock(id, |s.arena|, target.pattern)], arena := s.arena + [Slot(tag, [id], [id], {})])
    case Unsubscribe(i, id) => s.(pcs := s.pcs[i := UErase(id)], past := s.past.(leaving := s.past.leaving + {id}))
    case Dispatch(i, m) => s.(pcs := s.pcs[i := DExact(m)])
    case Step(i) =>
      var pc := s.pcs[i];
      State(if pc.SMake? then pc.slots[pc.tid := |s.arena|] else s.slots,
            ArenaNext(s, pc), TrieNext(s, pc), InfoNext(s, pc), s.issued,
            s.pcs[i := Next(s, pc)],
            PastNext(s, pc),
            if pc.DRun? && pc.list != [] then s.calls + [Call(i, pc.list[0], pc.msg)] else s.calls)
  }

  predicate Init(s: State) {
    && s.slots == map[] && s.arena == [] && s.trie == [] && s.info == map[] && s.issued == 0
    && s.past == History({}, {}, {}, {}) && s.calls == [] && forall j :: 0 <= j < |s.pcs| ==> s.pcs[j].Idle?
  }

  predicate Legal(s: State, acts: seq<Action>)
    decreases |acts|
  {
    acts == [] || (Enabled(s, acts[0]) && Legal(Apply(s, acts[0]), acts[1..]))
  }

  function Exec(s: State, acts: seq<Action>): State
    requires Legal(s, acts)
    decreases |acts|
  {
    if acts == [] then s else Exec(Apply(s, acts[0]), acts[1..])
  }
}
