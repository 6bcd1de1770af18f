/** subscribe, unsubscribe and dispatchMessage, run one after another. */
module MessageBuses {
  import opened Seqs
  import opened TopicLevels
  import opened TopicMatcher
  import opened TopicSlots
  import opened TopicRegistries
  import opened TrieSpec
  import opened WildcardTries
  import opened Delivery

  /** An error stands for the exception subscribe throws. */
  datatype Result = Ok(id: nat) | InvalidPattern | TypeMismatch

  /** A hash with something after it. */
  predicate HashBeforeEnd(pattern: string) { exists i :: 0 <= i < |pattern| - 1 && pattern[i] == '#' }

  /** The topic has a slot, of another type. */
  predicate OtherType(tid: nat, tag: nat, tags: map<nat, nat>) { tid in tags && tags[tid] != tag }

  /** Every slot belongs to a registered topic. */
  ghost predicate SlotsNamed(tids: set<nat>, order: seq<string>) {
    forall tid :: tid in tids ==> exists i :: 0 <= i < |order| && IdOf(i) == tid
  }

  lemma MoreSlots(tids: set<nat>, tid: nat, order: seq<string>)
    requires SlotsNamed(tids, order) && SlotsNamed({tid}, order)
    ensures SlotsNamed(tids + {tid}, order)
  {
    assert tid in {tid};
  }

  /** A new topic gets an id that no slot has. */
  lemma AfterResolve(tids: set<nat>, order: seq<string>, order': seq<string>, ids: map<string, nat>, topic: string, tid: nat)
    requires SlotsNamed(tids, order) && Listed(order, ids) && |order'| < WORD32
    requires order' == if topic in order then order else order + [topic]
    requires exists i :: 0 <= i < |order'| && order'[i] == topic && tid == IdOf(i)
    ensures SlotsNamed(tids, order') && SlotsNamed({tid}, order') && |order'| <= |order| + 1
    ensures topic !in ids ==> tid !in tids
  {
    OrderIsIds(order, ids, topic);
    var i :| 0 <= i < |order'| && order'[i] == topic && tid == IdOf(i);
    if topic !in order {
      assert i == |order|;
      NameFree(|order|);
    }
  }

  class MessageBus {
    const registry: TopicRegistry
    const trie: WildcardTrie
    var slots: map<nat, TopicSlot>
    var subToTopic: map<nat, SubInfo>
    var nextId: nat
    /** The live subscriptions. */
    ghost var subs: map<nat, Sub>

    ghost function Lists(): map<nat, seq<nat>>
      reads `slots, slots.Values
    {
      map tid | tid in slots :: slots[tid].subscribers
    }

    ghost function Tags(): map<nat, nat>
      reads `slots
    {
      map tid | tid in slots :: slots[tid].tag
    }

    /** No two topics, and no two wildcard subscriptions, share a slot. */
    ghost predicate SlotsApart()
      reads `slots, trie`live
    {
      && (forall t, u :: t in slots && u in slots && slots[t] == slots[u] ==> t == u)
      && (forall t :: t in slots ==> slots[t] !in SlotsOf(trie.live))
    }

    /** A wildcard slot has the one subscriber it was made for. */
    ghost predicate SingleSubscribers()
      reads trie`live, SlotsOf(trie.live)
    {
      forall k :: 0 <= k < |trie.live| ==>
        trie.live[k].entry.slot.subscribers == [trie.live[k].entry.id] && trie.live[k].entry.slot.tag == trie.live[k].entry.tag
    }

    ghost predicate Valid()
      reads this, registry, trie, trie.snaps, trie.nodes, slots.Values, SlotsOf(trie.live)
    {
      && registry.Valid() && trie.Valid() && |registry.order| < WORD32
      && SlotsApart() && SingleSubscribers()
      && ExactOk(Lists(), Tags(), subToTopic, subs, registry.ids)
      && WildOk(trie.live, subToTopic, subs)
      && SlotsNamed(slots.Keys, registry.order)
      && (forall id :: id in subs ==> id <= nextId)
    }

    constructor ()
      ensures Valid() && subs == map[]
    {
      hide TopicRegistry.Valid, WildcardTrie.Valid;
      var r := new TopicRegistry();
      var t := new WildcardTrie();
      registry, trie := r, t;
      slots, subToTopic, nextId, subs := map[], map[], 0, map[];
    }

    /** Calls, in order, every handler that the message reaches. */
    method DispatchMessage(tid: nat, topic: string, tag: nat) returns (calls: seq<nat>)
      requires Valid() && topic in registry.ids && registry.ids[topic] == tid
      ensures forall id :: Count(calls, id) == if id in subs then Due(subs[id], topic, tag) else 0
      ensures tid in slots && slots[tid].tag == tag ==> slots[tid].subscribers <= calls
      ensures Unambiguous(Split(topic)) ==>
                forall id :: Count(calls, id) == if id in subs && Wants(subs[id], topic, tag) then 1 else 0
    {
      hide TopicRegistry.Valid, WildcardTrie.Valid, ExactOk, WildOk, SlotsApart, Wants, Due, LevelMatch, Split, Scan, Walked, Unambiguous, Count, IdsOf;
      calls := [];
      if tid in slots && slots[tid].tag == tag {
        calls := slots[tid].Dispatch();
      }
      var exact := calls;
      assert exact == if tid in Lists() && Tags()[tid] == tag then Lists()[tid] else [];
      var matched := trie.Match(topic, tag);
      ghost var owner := OwnersNow();
      calls := CallMatched(exact, matched, owner);
      MatchedSingle(matched, topic, tag, 0);
      forall id
        ensures Count(calls, id) == if id in subs then Due(subs[id], topic, tag) else 0
      {
        MatchedSingle(matched, topic, tag, id);
        IdsDiffer();
        ExactCalls(Lists(), Tags(), subToTopic, subs, registry.ids, topic, tag, id);
        CountConcat(exact, IdsOf(matched, owner), id);
      }
      if Unambiguous(Split(topic)) {
        forall id | id in subs
          ensures Due(subs[id], topic, tag) == if Wants(subs[id], topic, tag) then 1 else 0
        {
          DueIsWants(subs[id], topic, tag);
        }
      }
    }

    /** A pattern gets a slot of its own, in the trie. */
    method SubscribeWildcard(id: nat, pattern: string, tag: nat)
      requires Valid() && id !in subs && id <= nextId
      modifies `subToTopic, `subs, trie
      ensures Valid() && subs == old(subs)[id := Sub(pattern, tag, true)]
    {
      hide TopicRegistry.Valid, WildcardTrie.Valid, ExactOk, WildOk, SlotsNamed, Lists, Tags, Apart;
      var slot := new TopicSlot(tag);
      slot.AddSubscriber(id);
      ghost var x := Subscription(pattern, Entry(tag, slot, id));
      ExactBeside(Lists(), Tags(), subToTopic, subs, registry.ids, id, Sub(pattern, tag, true));
      WildAdd(trie.live, subToTopic, subs, x);
      trie.Insert(pattern, Entry(tag, slot, id));
      subToTopic := subToTopic[id := SubInfo(0, true)];
      subs := subs[id := Sub(pattern, tag, true)];
    }

    /** The slot of a topic, made on first use; one of another type is an error. */
    method GetOrCreateSlot(tid: nat, tag: nat) returns (ok: bool, slot: TopicSlot)
      requires Valid() && SlotsNamed({tid}, registry.order)
      modifies `slots
      ensures Valid() && tid in slots && slot == slots[tid] && (ok <==> slot.tag == tag)
      ensures !ok ==> tid in old(slots)
      ensures slots == if tid in old(slots) then old(slots) else old(slots)[tid := slot]
      ensures tid in old(slots) || fresh(slot)
    {
      if tid in slots {
        return slots[tid].tag == tag, slots[tid];
      }
      slot := NewSlot(tid, tag);
      ok := true;
    }

    method NewSlot(tid: nat, tag: nat) returns (slot: TopicSlot)
      requires Valid() && SlotsNamed({tid}, registry.order) && tid !in slots
      modifies `slots
      ensures Valid() && slot.tag == tag && slots == old(slots)[tid := slot] && fresh(slot)
    {
      hide TopicRegistry.Valid, WildcardTrie.Valid, ExactOk, WildOk, SlotsNamed;
      ghost var lists, tags := Lists(), Tags();
      slot := new TopicSlot(tag);
      MoreSlots(slots.Keys, tid, registry.order);
      slots := slots[tid := slot];
      assert slots.Keys == old(slots).Keys + {tid};
      ExactKeep(lists, tags, subToTopic, subs, registry.ids, Lists(), Tags(), registry.ids);
    }

    method SubscribeExact(id: nat, topic: string, tag: nat) returns (ok: bool)
      requires Valid() && |registry.order| + 1 < WORD32 && id !in subs && id <= nextId
      modifies `slots, `subToTopic, `subs, registry, slots.Values
      ensures Valid() && subs == if ok then old(subs)[id := Sub(topic, tag, false)] else old(subs)
      ensures !ok <==> topic in old(registry.ids) && OtherType(old(registry.ids[topic]), tag, old(Tags()))
    {
      hide TopicRegistry.Valid, WildcardTrie.Valid, ExactOk, WildOk, SlotsApart, SingleSubscribers, SlotsNamed;
      var tid := Resolve(topic);
      var slot;
      ok, slot := GetOrCreateSlot(tid, tag);
      if ok {
        Enlist(slot, tid, id, topic);
      }
    }

    method Enlist(slot: TopicSlot, tid: nat, id: nat, topic: string)
      requires Valid() && tid in slots && slot == slots[tid] && id !in subs && id <= nextId
      requires topic in registry.ids && registry.ids[topic] == tid
      modifies slot, `subToTopic, `subs
      ensures Valid() && subs == old(subs)[id := Sub(topic, slot.tag, false)]
    {
      hide TopicRegistry.Valid, WildcardTrie.Valid, ExactOk, WildOk, SlotsNamed;
      ghost var lists := Lists();
      ExactAdd(lists, Tags(), subToTopic, subs, registry.ids, tid, id, topic);
      WildKeep(trie.live, subToTopic, subs, subToTopic[id := SubInfo(tid, false)], subs[id := Sub(topic, slot.tag, false)]);
      slot.AddSubscriber(id);
      subToTopic := subToTopic[id := SubInfo(tid, false)];
      subs := subs[id := Sub(topic, slot.tag, false)];
      assert Lists() == lists[tid := lists[tid] + [id]];
    }

    /** Wildcards other than a hash at the very end, and slots of another type, are errors. */
    method Subscribe(topic: string, tag: nat) returns (r: Result)
      requires Valid() && |registry.order| + 1 < WORD32
      modifies `nextId, `slots, `subToTopic, `subs, registry, trie, slots.Values
      ensures Valid()
      ensures r == InvalidPattern <==> HasWildcard(topic) && HashBeforeEnd(topic)
      ensures r == TypeMismatch <==>
                !HasWildcard(topic) && topic in old(registry.ids) && OtherType(old(registry.ids[topic]), tag, old(Tags()))
      ensures nextId == old(nextId) + 1 && (r.Ok? ==> r.id == nextId && r.id !in old(subs))
      ensures r.Ok? ==> subs == old(subs)[r.id := Sub(topic, tag, HasWildcard(topic))]
      ensures !r.Ok? ==> subs == old(subs)
    {
      hide TopicRegistry.Valid, WildcardTrie.Valid, ExactOk, WildOk, SlotsApart, SlotsNamed, HasWildcard, Tags;
      var id := nextId + 1;
      nextId := id;
      if HasWildcard(topic) {
        if HashBeforeEnd(topic) {
          return InvalidPattern;
        }
        SubscribeWildcard(id, topic, tag);
        return Ok(id);
      }
      var ok := SubscribeExact(id, topic, tag);
      r := if ok then Ok(id) else TypeMismatch;
    }

    /** The id is forgotten first, then its subscriber list is cut. An unknown id changes nothing. */
    method Unsubscribe(id: nat)
      requires Valid()
      modifies `subToTopic, `subs, trie, SlotsOf(trie.live), slots.Values
      ensures Valid() && subs == old(subs) - {id}
    {
      hide TopicRegistry.Valid, WildcardTrie.Valid, WildOk, SlotsApart, SingleSubscribers, SlotsNamed;
      if id !in subToTopic {
        assert subs - {id} == subs;
        return;
      }
      var info := subToTopic[id];
      if info.isWildcard {
        UnsubscribeWildcard(id);
      } else {
        UnsubscribeExact(id, info.tid);
      }
    }

    method UnsubscribeExact(id: nat, tid: nat)
      requires Valid() && id in subToTopic && subToTopic[id] == SubInfo(tid, false)
      modifies `subToTopic, `subs, slots.Values
      ensures Valid() && subs == old(subs) - {id}
    {
      hide TopicRegistry.Valid, WildcardTrie.Valid, ExactOk, WildOk, SlotsNamed;
      ghost var lists := Lists();
      SameKind(Lists(), Tags(), subToTopic, subs, registry.ids, trie.live, id);
      ExactRemove(lists, Tags(), subToTopic, subs, registry.ids, id);
      WildKeep(trie.live, subToTopic, subs, subToTopic - {id}, subs - {id});
      subToTopic := subToTopic - {id};
      subs := subs - {id};
      var found := slots[tid].RemoveSubscriber(id);
      assert Lists() == lists[tid := Filter(lists[tid], Except(id))];
    }

    method UnsubscribeWildcard(id: nat)
      requires Valid() && id in subToTopic && subToTopic[id].isWildcard
      modifies `subToTopic, `subs, trie, SlotsOf(trie.live)
      ensures Valid() && subs == old(subs) - {id}
    {
      hide TopicRegistry.Valid, WildcardTrie.Valid, ExactOk, WildOk, SlotsNamed;
      ghost var live := trie.live;
      SameKind(Lists(), Tags(), subToTopic, subs, registry.ids, trie.live, id);
      subToTopic := subToTopic - {id};
      ghost var before := subs;
      subs := subs - {id};
      var found;
      ghost var k;
      found, k := trie.Remove(id);
      WildRemove(live, old(subToTopic), before, k);
      OthersApart(live, old(subToTopic), before, k);
      ExactBeside(Lists(), Tags(), old(subToTopic), before, registry.ids, id, before[id]);
      assert Lists() == old(Lists()) && Tags() == old(Tags());
    }

    method Resolve(topic: string) returns (tid: nat)
      requires Valid() && |registry.order| + 1 < WORD32
      modifies registry
      ensures Valid() && topic in registry.ids && registry.ids[topic] == tid && SlotsNamed({tid}, registry.order)
      ensures registry.ids == if topic in old(registry.ids) then old(registry.ids) else old(registry.ids)[topic := tid]
      ensures topic !in old(registry.ids) ==> tid !in slots
    {
      hide WildcardTrie.Valid, ExactOk, WildOk, SlotsNamed, SlotsApart, Lists, Tags, TopicRegistry.Valid;
      ghost var order, ids := registry.order, registry.ids;
      RegistryLists();
      tid := registry.Resolve(topic);
      AfterResolve(slots.Keys, order, registry.order, ids, topic, tid);
      SameLists();
      ExactKeep(Lists(), Tags(), subToTopic, subs, ids, Lists(), Tags(), registry.ids);
    }

    lemma SameLists()
      ensures Lists().Keys == Tags().Keys
    {}

    lemma RegistryLists()
      requires registry.Valid()
      ensures Listed(registry.order, registry.ids)
    {}

    ghost function OwnersNow(): map<TopicSlot, nat>
      requires WildOk(trie.live, subToTopic, subs)
      reads this, trie
    {
      Owners(trie.live)
    }

    /** What the matched slots call. */
    lemma MatchedSingle(matched: seq<TopicSlot>, topic: string, tag: nat, id: nat)
      requires WildOk(trie.live, subToTopic, subs) && SingleSubscribers()
      requires multiset(matched) == multiset(Walked(Items(trie.live), Split(topic), tag))
      ensures forall s :: s in matched ==> s in OwnersNow() && s.subscribers == [OwnersNow()[s]]
      ensures Count(IdsOf(matched, OwnersNow()), id) == if id in subs && subs[id].wild then Due(subs[id], topic, tag) else 0
    {
      hide Due, Count, Walked, Split;
      WildCalls(trie.live, subToTopic, subs, matched, topic, tag, id);
      forall s | s in matched
        ensures s.subscribers == [OwnersNow()[s]]
      {
        var k :| 0 <= k < |trie.live| && trie.live[k].entry.slot == s;
      }
    }

    /** Two topics never have the same id. */
    lemma IdsDiffer()
      requires registry.Valid() && |registry.order| < WORD32
      ensures forall t, u :: t in registry.ids && u in registry.ids && registry.ids[t] == registry.ids[u] ==> t == u
    {
      forall t, u | t in registry.ids && u in registry.ids && registry.ids[t] == registry.ids[u]
        ensures t == u
      {
        var i :| 0 <= i < |registry.order| && registry.order[i] == t;
        var j :| 0 <= j < |registry.order| && registry.order[j] == u;
      }
    }
  }

  /** Dispatches to each slot in turn. */
  method CallMatched(before: seq<nat>, matched: seq<TopicSlot>, ghost owner: map<TopicSlot, nat>) returns (calls: seq<nat>)
    ensures (forall s :: s in matched ==> s in owner && s.subscribers == [owner[s]]) ==>
              calls == before + IdsOf(matched, owner)
  {
    calls := before;
    ghost var single := forall s :: s in matched ==> s in owner && s.subscribers == [owner[s]];
    for i := 0 to |matched|
      invariant single ==> (forall s :: s in matched[..i] ==> s in owner) && calls == before + IdsOf(matched[..i], owner)
    {
      var more := matched[i].Dispatch();
      calls := calls + more;
      assert matched[..i + 1][..i] == matched[..i] && matched[i] in matched;
    }
    assert matched[..|matched|] == matched;
  }
}
