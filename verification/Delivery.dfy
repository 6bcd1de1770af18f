/** Who is called for a message: bookkeeping of subscriptions, as values. */
module Delivery {
  import opened Seqs
  import opened TopicLevels
  import opened TopicSlots
  import opened TrieSpec
  import opened WildcardTries

  datatype SubInfo = SubInfo(tid: nat, isWildcard: bool)

  /** A live subscription as its caller sees it. */
  datatype Sub = Sub(topic: string, tag: nat, wild: bool)

  /** The promise of subscribe: an exact subscription wants its own topic, a wildcard one every
      topic whose levels match, and both only their own type. */
  predicate Wants(sub: Sub, topic: string, tag: nat) {
    sub.tag == tag && if sub.wild then LevelMatch(Split(sub.topic), Split(topic)) else sub.topic == topic
  }

  /** How often a message of this topic and type calls it: an exact subscription once for its own
      topic, a wildcard one as often as the trie's walk visits its pattern. */
  function Due(sub: Sub, topic: string, tag: nat): nat {
    if sub.tag != tag then 0
    else if sub.wild then Visits(Split(topic), Split(sub.topic))
    else if sub.topic == topic then 1 else 0
  }

  /** On an unambiguous topic, once if it wants the message, and never otherwise. */
  lemma DueIsWants(sub: Sub, topic: string, tag: nat)
    requires Unambiguous(Split(topic))
    ensures Due(sub, topic, tag) == if Wants(sub, topic, tag) then 1 else 0
  {
    hide Visits, LevelMatch, Split;
    VisitsOnce(Split(topic), Split(sub.topic));
  }

  // ---------- exact subscriptions ----------

  /** lists and tags give the subscribers and the type of each topic's slot. */
  ghost predicate ExactOk(lists: map<nat, seq<nat>>, tags: map<nat, nat>, info: map<nat, SubInfo>, subs: map<nat, Sub>,
                          ids: map<string, nat>)
  {
    && lists.Keys == tags.Keys && info.Keys == subs.Keys
    && (forall tid :: tid in lists ==> NoDup(lists[tid]))
    && (forall tid, id :: tid in lists && id in lists[tid] ==>
          id in subs && info[id] == SubInfo(tid, false) && !subs[id].wild && subs[id].tag == tags[tid])
    && (forall id :: id in subs && !subs[id].wild ==> ExactHome(lists, info, subs, ids, id))
  }

  ghost predicate ExactHome(lists: map<nat, seq<nat>>, info: map<nat, SubInfo>, subs: map<nat, Sub>, ids: map<string, nat>, id: nat)
    requires id in subs && info.Keys == subs.Keys
  {
    && !info[id].isWildcard && info[id].tid in lists && id in lists[info[id].tid]
    && subs[id].topic in ids && ids[subs[id].topic] == info[id].tid
  }

  lemma ExactAdd(lists: map<nat, seq<nat>>, tags: map<nat, nat>, info: map<nat, SubInfo>, subs: map<nat, Sub>, ids: map<string, nat>,
                 tid: nat, id: nat, topic: string)
    requires ExactOk(lists, tags, info, subs, ids) && tid in lists && id !in subs && topic in ids && ids[topic] == tid
    ensures ExactOk(lists[tid := lists[tid] + [id]], tags, info[id := SubInfo(tid, false)],
                    subs[id := Sub(topic, tags[tid], false)], ids)
  {
    var list, info', subs' := lists[tid] + [id], info[id := SubInfo(tid, false)], subs[id := Sub(topic, tags[tid], false)];
    assert NoDup(list);
    hide NoDup;
    forall x | x in subs' && !subs'[x].wild
      ensures ExactHome(lists[tid := list], info', subs', ids, x)
    {
      assert x != id ==> ExactHome(lists, info, subs, ids, x);
    }
  }

  lemma WithoutOne(list: seq<nat>, id: nat)
    ensures forall x :: x in Filter(list, Except(id)) <==> x in list && x != id
  {
    forall x
      ensures x in Filter(list, Except(id)) <==> x in list && x != id
    {
      FilterMember(list, Except(id), x);
    }
  }

  lemma ExactRemove(lists: map<nat, seq<nat>>, tags: map<nat, nat>, info: map<nat, SubInfo>, subs: map<nat, Sub>, ids: map<string, nat>,
                    id: nat)
    requires ExactOk(lists, tags, info, subs, ids) && id in subs && !subs[id].wild
    ensures info[id].tid in lists
    ensures var tid := info[id].tid;
            ExactOk(lists[tid := Filter(lists[tid], Except(id))], tags, info - {id}, subs - {id}, ids)
  {
    assert ExactHome(lists, info, subs, ids, id);
    var list := lists[info[id].tid];
    FilterDistinct(list, Except(id));
    WithoutOne(list, id);
    ExactCut(lists, tags, info, subs, ids, id, Filter(list, Except(id)));
  }

  /** The slot's list without the id, and the id no longer recorded. */
  lemma ExactCut(lists: map<nat, seq<nat>>, tags: map<nat, nat>, info: map<nat, SubInfo>, subs: map<nat, Sub>, ids: map<string, nat>,
                 id: nat, cut: seq<nat>)
    requires ExactOk(lists, tags, info, subs, ids) && id in subs && !subs[id].wild && info[id].tid in lists
    requires NoDup(cut) && forall x :: x in cut <==> x in lists[info[id].tid] && x != id
    ensures ExactOk(lists[info[id].tid := cut], tags, info - {id}, subs - {id}, ids)
  {
    hide NoDup, ExactHome;
    var lists' := lists[info[id].tid := cut];
    forall tid, x | tid in lists' && x in lists'[tid]
      ensures x in subs && x != id && info[x] == SubInfo(tid, false) && !subs[x].wild && subs[x].tag == tags[tid]
    {
      assert x in lists[tid];
    }
    forall x | x in subs - {id} && !subs[x].wild
      ensures ExactHome(lists', info - {id}, subs - {id}, ids, x)
    {
      HomeBeside(lists, info, subs, ids, id, cut, x);
    }
  }

  lemma HomeBeside(lists: map<nat, seq<nat>>, info: map<nat, SubInfo>, subs: map<nat, Sub>, ids: map<string, nat>,
                   id: nat, cut: seq<nat>, x: nat)
    requires info.Keys == subs.Keys && id in subs && x in subs && x != id && ExactHome(lists, info, subs, ids, x)
    requires info[id].tid in lists && forall y :: y in cut <==> y in lists[info[id].tid] && y != id
    ensures ExactHome(lists[info[id].tid := cut], info - {id}, subs - {id}, ids, x)
  {}

  /** More topics, an empty slot for one of them, or a wildcard subscription change nothing. */
  lemma ExactKeep(lists: map<nat, seq<nat>>, tags: map<nat, nat>, info: map<nat, SubInfo>, subs: map<nat, Sub>, ids: map<string, nat>,
                  lists': map<nat, seq<nat>>, tags': map<nat, nat>, ids': map<string, nat>)
    requires ExactOk(lists, tags, info, subs, ids)
    requires lists'.Keys == tags'.Keys && forall t :: t in ids ==> t in ids' && ids'[t] == ids[t]
    requires forall tid :: tid in lists ==> tid in lists' && lists'[tid] == lists[tid] && tags'[tid] == tags[tid]
    requires forall tid :: tid in lists' && tid !in lists ==> lists'[tid] == []
    ensures ExactOk(lists', tags', info, subs, ids')
  {
    forall id | id in subs && !subs[id].wild
      ensures ExactHome(lists', info, subs, ids', id)
    {
      assert ExactHome(lists, info, subs, ids, id);
    }
  }

  /** A wildcard subscription comes or goes. */
  lemma ExactBeside(lists: map<nat, seq<nat>>, tags: map<nat, nat>, info: map<nat, SubInfo>, subs: map<nat, Sub>, ids: map<string, nat>,
                    id: nat, sub: Sub)
    requires ExactOk(lists, tags, info, subs, ids) && sub.wild && (id in subs ==> subs[id].wild)
    ensures ExactOk(lists, tags, info[id := SubInfo(0, true)], subs[id := sub], ids)
    ensures ExactOk(lists, tags, info - {id}, subs - {id}, ids)
  {
    forall x | x in subs && !subs[x].wild
      ensures ExactHome(lists, info[id := SubInfo(0, true)], subs[id := sub], ids, x)
      ensures ExactHome(lists, info - {id}, subs - {id}, ids, x)
    {
      assert ExactHome(lists, info, subs, ids, x);
    }
  }

  // ---------- wildcard subscriptions ----------

  ghost predicate Apart(live: seq<Subscription>) {
    forall j, k :: 0 <= j < |live| && 0 <= k < |live| && j != k ==>
      live[j].entry.id != live[k].entry.id && live[j].entry.slot != live[k].entry.slot
  }

  ghost predicate LiveOk(x: Subscription, info: map<nat, SubInfo>, subs: map<nat, Sub>) {
    var id := x.entry.id;
    id in subs && id in info && info[id].isWildcard && subs[id] == Sub(x.pattern, x.entry.tag, true)
  }

  ghost predicate WildHome(live: seq<Subscription>, id: nat) { exists k :: 0 <= k < |live| && live[k].entry.id == id }

  ghost predicate WildOk(live: seq<Subscription>, info: map<nat, SubInfo>, subs: map<nat, Sub>) {
    && Apart(live)
    && (forall k :: 0 <= k < |live| ==> LiveOk(live[k], info, subs))
    && (forall id :: id in subs && subs[id].wild ==> WildHome(live, id))
  }

  lemma WildAdd(live: seq<Subscription>, info: map<nat, SubInfo>, subs: map<nat, Sub>, x: Subscription)
    requires WildOk(live, info, subs) && x.entry.id !in subs && x.entry.slot !in SlotsOf(live)
    ensures WildOk(live + [x], info[x.entry.id := SubInfo(0, true)], subs[x.entry.id := Sub(x.pattern, x.entry.tag, true)])
  {
    var live', info', subs' := live + [x], info[x.entry.id := SubInfo(0, true)], subs[x.entry.id := Sub(x.pattern, x.entry.tag, true)];
    forall k | 0 <= k < |live|
      ensures live[k].entry.slot != x.entry.slot && live[k].entry.id != x.entry.id && LiveOk(live'[k], info', subs')
    {
      assert LiveOk(live[k], info, subs);
      assert live[k].entry.slot in SlotsOf(live);
    }
    forall id | id in subs' && subs'[id].wild
      ensures WildHome(live', id)
    {
      if id == x.entry.id {
        assert live'[|live|].entry.id == id;
      } else {
        var k :| 0 <= k < |live| && live[k].entry.id == id;
        assert live'[k].entry.id == id;
      }
    }
  }

  lemma WildRemove(live: seq<Subscription>, info: map<nat, SubInfo>, subs: map<nat, Sub>, k: nat)
    requires WildOk(live, info, subs) && k < |live|
    ensures WildOk(Drop(live, k), info - {live[k].entry.id}, subs - {live[k].entry.id})
  {
    var id, rest := live[k].entry.id, Drop(live, k);
    forall j | 0 <= j < |rest|
      ensures rest[j].entry.id != id && LiveOk(rest[j], info - {id}, subs - {id})
    {
      assert rest[j] == live[if j < k then j else j + 1];
      assert LiveOk(live[if j < k then j else j + 1], info, subs);
    }
    forall x | x in subs - {id} && subs[x].wild
      ensures WildHome(rest, x)
    {
      var j :| 0 <= j < |live| && live[j].entry.id == x;
      assert rest[if j < k then j else j - 1] == live[j];
    }
  }

  lemma OthersApart(live: seq<Subscription>, info: map<nat, SubInfo>, subs: map<nat, Sub>, k: nat)
    requires WildOk(live, info, subs) && k < |live|
    ensures var rest := Drop(live, k);
            && SlotsOf(rest) <= SlotsOf(live)
            && forall j :: 0 <= j < |rest| ==>
                 && rest[j].entry.slot in SlotsOf(live) && rest[j].entry.slot != live[k].entry.slot
                 && exists i :: 0 <= i < |live| && live[i] == rest[j]
  {
    var rest := Drop(live, k);
    forall j | 0 <= j < |rest|
      ensures rest[j].entry.slot in SlotsOf(live) && rest[j].entry.slot != live[k].entry.slot
      ensures exists i :: 0 <= i < |live| && live[i] == rest[j]
    {
      assert rest[j] == live[if j < k then j else j + 1];
    }
  }

  /** An exact subscription comes or goes. */
  lemma WildKeep(live: seq<Subscription>, info: map<nat, SubInfo>, subs: map<nat, Sub>, info': map<nat, SubInfo>, subs': map<nat, Sub>)
    requires WildOk(live, info, subs)
    requires forall id :: id in subs && subs[id].wild ==> id in subs' && subs'[id] == subs[id]
    requires forall id :: id in info && id in subs && subs[id].wild ==> id in info' && info'[id] == info[id]
    requires forall id :: id in subs' && subs'[id].wild ==> id in subs && subs[id].wild
    ensures WildOk(live, info', subs')
  {
    forall k | 0 <= k < |live|
      ensures LiveOk(live[k], info', subs')
    {
      assert LiveOk(live[k], info, subs);
    }
  }

  /** What is recorded with an id says which kind of subscription it is. */
  lemma SameKind(lists: map<nat, seq<nat>>, tags: map<nat, nat>, info: map<nat, SubInfo>, subs: map<nat, Sub>, ids: map<string, nat>,
                 live: seq<Subscription>, id: nat)
    requires ExactOk(lists, tags, info, subs, ids) && WildOk(live, info, subs) && id in info
    ensures id in subs && info[id].isWildcard == subs[id].wild
    ensures subs[id].wild <==> !NoneHasId(live, id)
  {
    if subs[id].wild {
      assert WildHome(live, id);
      var k :| 0 <= k < |live| && live[k].entry.id == id;
      assert LiveOk(live[k], info, subs);
    } else {
      assert ExactHome(lists, info, subs, ids, id);
      forall k | 0 <= k < |live|
        ensures live[k].entry.id != id
      {
        assert LiveOk(live[k], info, subs);
      }
    }
  }

  // ---------- counting calls ----------

  ghost predicate ApartItems<S>(items: seq<Item<S>>) {
    forall j, k :: 0 <= j < |items| && 0 <= k < |items| && j != k ==> items[j].entry.slot != items[k].entry.slot
  }

  /** When every entry has its own slot, the walk reports a slot as often as it visits its pattern. */
  lemma {:induction false} WalkCounts<S>(items: seq<Item<S>>, levels: seq<string>, tag: nat, s: S)
    requires ApartItems(items)
    ensures (forall k :: 0 <= k < |items| ==> items[k].entry.slot != s) ==> Count(Walked(items, levels, tag), s) == 0
    ensures forall k :: 0 <= k < |items| && items[k].entry.slot == s ==>
              Count(Walked(items, levels, tag), s) == if items[k].entry.tag == tag then Visits(levels, items[k].path) else 0
  {
    hide Visits, Walked;
    if items == [] {
      NothingWalked<S>(levels, tag);
    } else {
      var before, x := items[..|items| - 1], items[|items| - 1];
      assert items == before + [x];
      WalkCounts(before, levels, tag, s);
      WalkedPush(before, x, levels, tag, s);
    }
  }

  lemma NothingWalked<S>(levels: seq<string>, tag: nat)
    ensures Walked<S>([], levels, tag) == []
  {}

  /** The subscribers called when each slot has a single one. */
  ghost function IdsOf(slots: seq<TopicSlot>, owner: map<TopicSlot, nat>): seq<nat>
    requires forall s :: s in slots ==> s in owner
  {
    if slots == [] then [] else IdsOf(slots[..|slots| - 1], owner) + [owner[slots[|slots| - 1]]]
  }

  lemma {:induction false} IdsCount(slots: seq<TopicSlot>, owner: map<TopicSlot, nat>, s: TopicSlot)
    requires forall x :: x in slots ==> x in owner
    requires s in owner && forall x :: x in owner && owner[x] == owner[s] ==> x == s
    ensures Count(IdsOf(slots, owner), owner[s]) == Count(slots, s)
  {
    if slots != [] {
      var before, x := slots[..|slots| - 1], slots[|slots| - 1];
      assert slots == before + [x];
      assert x in slots && forall y :: y in before ==> y in slots;
      IdsCount(before, owner, s);
      CountPush(IdsOf(before, owner), owner[x], owner[s]);
      CountPush(before, x, s);
    }
  }

  lemma {:induction false} NoOwnerNoCall(slots: seq<TopicSlot>, owner: map<TopicSlot, nat>, id: nat)
    requires forall x :: x in slots ==> x in owner
    requires forall x :: x in owner ==> owner[x] != id
    ensures Count(IdsOf(slots, owner), id) == 0
  {
    if slots != [] {
      var before, x := slots[..|slots| - 1], slots[|slots| - 1];
      assert x in slots && forall y :: y in before ==> y in slots;
      NoOwnerNoCall(before, owner, id);
      CountPush(IdsOf(before, owner), owner[x], id);
    }
  }

  ghost function Owners(live: seq<Subscription>): (owner: map<TopicSlot, nat>)
    requires Apart(live)
    ensures owner.Keys == SlotsOf(live)
    ensures forall k :: 0 <= k < |live| ==> owner[live[k].entry.slot] == live[k].entry.id
  {
    map s | s in SlotsOf(live) :: OwnerOf(live, s)
  }

  ghost function OwnerOf(live: seq<Subscription>, s: TopicSlot): nat
    requires s in SlotsOf(live)
  {
    var k :| 0 <= k < |live| && live[k].entry.slot == s;
    live[k].entry.id
  }

  /** The wildcard subscribers called for a topic: each of the type as often as its pattern is
      visited, and no other. */
  lemma WildCalls(live: seq<Subscription>, info: map<nat, SubInfo>, subs: map<nat, Sub>, matched: seq<TopicSlot>,
                  topic: string, tag: nat, id: nat)
    requires WildOk(live, info, subs) && multiset(matched) == multiset(Walked(Items(live), Split(topic), tag))
    ensures forall s :: s in matched ==> s in SlotsOf(live)
    ensures Count(IdsOf(matched, Owners(live)), id) == if id in subs && subs[id].wild then Due(subs[id], topic, tag) else 0
  {
    hide Visits, Split, Walked, Count;
    var items, levels := Items(live), Split(topic);
    forall s | s in matched
      ensures s in SlotsOf(live)
    {
      MatchedIsLive(live, matched, levels, tag, s);
    }
    if k :| 0 <= k < |live| && live[k].entry.id == id {
      var s := live[k].entry.slot;
      assert LiveOk(live[k], info, subs);
      OneOwner(live, k);
      IdsCount(matched, Owners(live), s);
      CountMultiset(matched, s);
      CountMultiset(Walked(items, levels, tag), s);
      WalkCounts(items, levels, tag, s);
    } else {
      NoOwner(live, id);
      NoOwnerNoCall(matched, Owners(live), id);
      assert !WildHome(live, id);
    }
  }

  lemma MatchedIsLive(live: seq<Subscription>, matched: seq<TopicSlot>, levels: seq<string>, tag: nat, s: TopicSlot)
    requires Apart(live) && multiset(matched) == multiset(Walked(Items(live), levels, tag)) && s in matched
    ensures s in SlotsOf(live)
  {
    hide Visits, Walked;
    assert s in multiset(matched);
    CountMultiset(Walked(Items(live), levels, tag), s);
    WalkCounts(Items(live), levels, tag, s);
    var k :| 0 <= k < |live| && Items(live)[k].entry.slot == s;
    assert live[k].entry.slot == s;
  }

  lemma OneOwner(live: seq<Subscription>, k: nat)
    requires Apart(live) && k < |live|
    ensures var owner, s := Owners(live), live[k].entry.slot;
            s in owner && owner[s] == live[k].entry.id && forall x :: x in owner && owner[x] == owner[s] ==> x == s
  {
    var owner, s := Owners(live), live[k].entry.slot;
    forall x | x in owner && owner[x] == owner[s]
      ensures x == s
    {
      var j :| 0 <= j < |live| && live[j].entry.slot == x;
      assert owner[x] == live[j].entry.id;
    }
  }

  lemma NoOwner(live: seq<Subscription>, id: nat)
    requires Apart(live) && forall k :: 0 <= k < |live| ==> live[k].entry.id != id
    ensures forall x :: x in Owners(live) ==> Owners(live)[x] != id
  {
    forall x | x in Owners(live)
      ensures Owners(live)[x] != id
    {
      var j :| 0 <= j < |live| && live[j].entry.slot == x;
      assert Owners(live)[x] == live[j].entry.id;
    }
  }

  /** The exact subscribers called. */
  lemma ExactCalls(lists: map<nat, seq<nat>>, tags: map<nat, nat>, info: map<nat, SubInfo>, subs: map<nat, Sub>, ids: map<string, nat>,
                   topic: string, tag: nat, id: nat)
    requires ExactOk(lists, tags, info, subs, ids) && topic in ids
    requires forall t, u :: t in ids && u in ids && ids[t] == ids[u] ==> t == u
    ensures var tid := ids[topic]; var called := if tid in lists && tags[tid] == tag then lists[tid] else [];
            Count(called, id) == if id in subs && !subs[id].wild then Due(subs[id], topic, tag) else 0
  {
    var tid := ids[topic];
    var called := if tid in lists && tags[tid] == tag then lists[tid] else [];
    CountMember(called, id);
    OnceAtMost(called, id);
    if id in subs && !subs[id].wild { assert ExactHome(lists, info, subs, ids, id); }
  }
}
