/** The wildcard index: every write deep-copies the current snapshot, changes the copy and
    publishes it; every read walks the snapshot it loaded. */
module WildcardTries {
  import opened Seqs
  import opened TopicLevels
  import opened TopicMatcher
  import opened MatcherAgreement
  import opened TopicSlots
  import opened TrieSpec
  import opened TrieNodes
  import opened TrieInsertion
  import opened TrieRemoval

  /** A live subscription: its pattern, and its entry. */
  datatype Subscription = Subscription(pattern: string, entry: Entry<TopicSlot>)

  ghost function Items(live: seq<Subscription>): (items: seq<Item<TopicSlot>>)
    ensures |items| == |live|
    ensures forall i :: 0 <= i < |live| ==> items[i] == Item(Split(live[i].pattern), live[i].entry)
  {
    seq(|live|, i requires 0 <= i < |live| => Item(Split(live[i].pattern), live[i].entry))
  }

  ghost function SlotsOf(live: seq<Subscription>): set<TopicSlot> {
    set i | 0 <= i < |live| :: live[i].entry.slot
  }

  class Snapshot {
    const root: Node
    var entryCount: nat
    ghost var index: Index

    ghost predicate Valid()
      reads this, index.Values
    {
      Tree(index, []) && [] in index && index[[]] == root
    }

    ghost function Content(): Content<TopicSlot>
      reads this, index.Values
    {
      Stored(index)
    }

    constructor ()
      ensures Valid() && Content() == map[[] := []] && entryCount == 0
      ensures fresh(index.Values) && root.children == map[] && root.entries == []
    {
      var r := new Node();
      root, entryCount, index := r, 0, map[[] := r];
      new;
      assert index[[]].children == map[];
    }

    /** What it holds, and how many entries. */
    method Take(count: nat, ghost nodes: Index)
      modifies this
      ensures index == nodes && entryCount == count
      ensures Stored(nodes) == old(Stored(nodes)) && (Tree(nodes, []) <==> old(Tree(nodes, [])))
    {
      hide Tree, Stored;
      index, entryCount := nodes, count;
    }
  }

  method CloneSnapshot(loaded: Snapshot) returns (snap: Snapshot)
    requires loaded.Valid()
    ensures fresh(snap) && fresh(snap.index.Values) && snap.Valid()
    ensures snap.Content() == loaded.Content() && snap.entryCount == loaded.entryCount
  {
    hide Tree, CopyOf, Stored;
    snap := new Snapshot();
    ghost var copy := CloneRoot(loaded.root, snap.root, loaded.index);
    assert forall n :: n in copy.Values ==> fresh(n) by {
      assert forall n :: n in copy.Values ==> n == snap.root || n in copy.Values - {snap.root};
    }
    snap.Take(loaded.entryCount, copy);
  }

  method CloneRoot(src: Node, dst: Node, ghost index: Index) returns (ghost copy: Index)
    requires Tree(index, []) && [] in index && index[[]] == src
    requires dst !in index.Values && dst.children == map[] && dst.entries == []
    modifies dst
    ensures Tree(copy, []) && [] in copy && copy[[]] == dst && Stored(copy) == Stored(index)
    ensures fresh(copy.Values - {dst})
  {
    hide Tree, CopyOf, Stored;
    copy := CloneNode(src, dst, index, []);
    CopyIsTree(copy, index, []);
    CopyStores(copy, index);
  }

  /** A copy of the loaded snapshot with one more entry; the loaded one is not touched. */
  method CloneAndInsert(loaded: Snapshot, pattern: string, entry: Entry<TopicSlot>, ghost live: seq<Subscription>)
    returns (snap: Snapshot)
    requires loaded.Valid() && Stores(loaded.Content(), Items(live)) && loaded.entryCount == |live|
    ensures fresh(snap) && fresh(snap.index.Values) && snap.Valid()
    ensures Stores(snap.Content(), Items(live + [Subscription(pattern, entry)])) && snap.entryCount == |live| + 1
  {
    hide Tree, Stores, Stored, Inserted, Items, Split;
    ghost var m := loaded.Content();
    snap := CloneSnapshot(loaded);
    AddTo(snap, pattern, entry);
    ItemsPush(live, Subscription(pattern, entry));
    StoresInsert(m, Items(live), Item(Split(pattern), entry));
  }

  /** Inserts into a snapshot nobody else sees yet. */
  method AddTo(snap: Snapshot, pattern: string, entry: Entry<TopicSlot>)
    requires snap.Valid()
    modifies snap, snap.index.Values
    ensures snap.Valid() && fresh(snap.index.Values - old(snap.index.Values))
    ensures snap.Content() == Inserted(old(snap.Content()), Split(pattern), entry)
    ensures snap.entryCount == old(snap.entryCount) + 1
  {
    hide Tree, Stored, Inserted;
    var levels := SplitLevels(pattern);
    ghost var more := InsertAt(snap.root, levels, entry, snap.index);
    snap.index := more;
    snap.entryCount := snap.entryCount + 1;
  }

  /** Every entry of the trie belongs to a live subscription. */
  lemma SlotsAreLive(m: Content<TopicSlot>, live: seq<Subscription>)
    requires Stores(m, Items(live))
    ensures SlotsIn(m, SlotsOf(live))
  {
    forall q, j | q in m && 0 <= j < |m[q]|
      ensures m[q][j].slot in SlotsOf(live)
    {
      assert At(m, q) == m[q] == Here(Items(live), q);
      var k := HerePlace(Items(live), q, j);
      assert live[k].entry == m[q][j];
    }
  }

  ghost predicate NoneHasId(live: seq<Subscription>, id: nat) {
    forall k :: 0 <= k < |live| ==> live[k].entry.id != id
  }

  lemma NoIdNoSubscription(m: Content<TopicSlot>, live: seq<Subscription>, id: nat)
    requires Stores(m, Items(live)) && NoIdBelow(m, [], id)
    ensures NoneHasId(live, id)
  {
    forall k | 0 <= k < |live|
      ensures live[k].entry.id != id
    {
      HereHas(Items(live), k);
      var q := Split(live[k].pattern);
      assert At(m, q) == Here(Items(live), q);
      var j :| 0 <= j < |Here(Items(live), q)| && Here(Items(live), q)[j] == live[k].entry;
      assert m[q][j] == live[k].entry;
    }
  }

  lemma {:induction false} HereHas<S>(items: seq<Item<S>>, k: nat)
    requires k < |items|
    ensures items[k].entry in Here(items, items[k].path)
  {
    if k < |items| - 1 { HereHas(items[..|items| - 1], k); }
  }

  ghost function ListsOf(slots: set<TopicSlot>): (lists: Lists)
    reads slots
    ensures lists.Keys == slots && Listed(lists)
  {
    map t | t in slots :: t.subscribers
  }

  /** The subscriber lists after id left one slot. */
  twostate predicate OnlyLeft(slots: set<TopicSlot>, slot: TopicSlot, id: nat)
    reads slots
  {
    forall t :: t in slots ==>
      t.subscribers == if t == slot then Filter(old(t.subscribers), Except(id)) else old(t.subscribers)
  }

  lemma StoresPruned(m: Content<TopicSlot>, live: seq<Subscription>)
    requires Stores(m, Items(live))
    ensures Pruned(m)
  {}

  lemma RemovedFromList(m: Content<TopicSlot>, after: Content<TopicSlot>, live: seq<Subscription>, path: Path, i: nat, id: nat)
    returns (k: nat)
    requires Stores(m, Items(live)) && Removed(m, after, [], path, i, id)
    ensures [] in after && path in m && i < |m[path]|
    ensures k < |live| && live[k].entry.id == id && live[k].entry.slot == m[path][i].slot
    ensures Stores(after, Items(Drop(live, k)))
  {
    hide Stores, Closed;
    ShakenBelowRoot(Cleared(m, path, i));
    k := StoresRemove(m, Items(live), path, i);
    ItemsDrop(live, k);
    StoresRoot(after, Drop(live, k));
  }

  lemma StoresRoot(m: Content<TopicSlot>, live: seq<Subscription>)
    requires Stores(m, Items(live))
    ensures [] in m
  {}

  /** Removes from a snapshot nobody else sees yet, and from the slot it finds. */
  method RemoveEntry(snap: Snapshot, id: nat, ghost live: seq<Subscription>, ghost lists: Lists)
    returns (found: bool, ghost k: nat)
    requires snap.Valid() && Stores(snap.Content(), Items(live)) && snap.entryCount == |live|
    requires lists.Keys == SlotsOf(live) && Listed(lists)
    modifies snap, snap.index.Values, SlotsOf(live)
    ensures !found ==> NoneHasId(live, id) && Listed(lists)
    ensures found ==>
              && k < |live| && live[k].entry.id == id && live[k].entry.slot in lists
              && Listed(WithoutId(lists, live[k].entry.slot, id))
              && snap.Valid() && Stores(snap.Content(), Items(Drop(live, k))) && snap.entryCount == |live| - 1
    ensures forall q :: q in snap.index ==> q in old(snap.index) && snap.index[q] == old(snap.index)[q]
  {
    hide Tree, Stored, Stores, Pruned, NoIdBelow, SlotsIn, Removed, Shaken, ShakenBelow, Cleared, Listed, NoneHasId, Drop;
    ghost var m := snap.Content();
    SlotsAreLive(m, live);
    StoresPruned(m, live);
    ghost var left, path, i;
    found, left, path, i := RemoveFrom(snap.root, id, m, snap.index, [], lists);
    if found {
      k := RemovedFromList(m, Stored(left), live, path, i, id);
      snap.index := left;
      snap.entryCount := snap.entryCount - 1;
    } else {
      k := 0;
      NoIdNoSubscription(m, live, id);
    }
  }

  /** A copy of the loaded snapshot without the entry with this id; the loaded one is not touched. */
  method CloneAndRemove(loaded: Snapshot, id: nat, ghost live: seq<Subscription>, ghost lists: Lists)
    returns (snap: Snapshot, found: bool, ghost k: nat)
    requires loaded.Valid() && Stores(loaded.Content(), Items(live)) && loaded.entryCount == |live|
    requires lists.Keys == SlotsOf(live) && Listed(lists)
    modifies SlotsOf(live)
    ensures !found ==> NoneHasId(live, id) && Listed(lists)
    ensures found ==>
              && k < |live| && live[k].entry.id == id && live[k].entry.slot in lists
              && Listed(WithoutId(lists, live[k].entry.slot, id))
              && fresh(snap) && fresh(snap.index.Values) && snap.Valid()
              && Stores(snap.Content(), Items(Drop(live, k))) && snap.entryCount == |live| - 1
  {
    hide Tree, Stores, Stored, NoneHasId, WithoutId;
    snap := CloneSnapshot(loaded);
    ghost var copied := snap.index;
    found, k := RemoveEntry(snap, id, live, lists);
    FewerNodes(copied, snap.index);
  }

  lemma FewerNodes(more: Index, less: Index)
    requires forall q :: q in less ==> q in more && less[q] == more[q]
    ensures less.Values <= more.Values
  {}

  /** A snapshot whose nodes nobody wrote keeps its content. */
  twostate lemma Untouched(snap: Snapshot)
    requires unchanged(snap) && forall n :: n in snap.index.Values ==> unchanged(n)
    ensures snap.Content() == old(snap.Content())
  {}

  /** A snapshot with the list of subscriptions it was published for. */
  datatype Version = Version(snap: Snapshot, live: seq<Subscription>)

  ghost predicate VersionOk(v: Version, snaps: set<Snapshot>, nodes: set<Node>)
    reads snaps, nodes
  {
    && v.snap in snaps && v.snap.index.Values <= nodes && v.snap.Valid()
    && Stores(v.snap.Content(), Items(v.live)) && v.snap.entryCount == |v.live|
  }

  /** The linear scan over the patterns of the live subscriptions, with topicMatches. */
  function LinearScan(live: seq<Subscription>, topic: string, tag: nat): seq<TopicSlot> {
    if live == [] then []
    else
      var x := live[|live| - 1];
      LinearScan(live[..|live| - 1], topic, tag)
      + (if x.entry.tag == tag && CharMatch(x.pattern, topic) then [x.entry.slot] else [])
  }

  lemma {:induction false} ScanIsLinearScan(live: seq<Subscription>, topic: string, tag: nat)
    requires forall i :: 0 <= i < |live| ==> WellFormedPattern(live[i].pattern)
    requires !TrailingSlash(topic)
    ensures Scan(Items(live), Split(topic), tag) == LinearScan(live, topic, tag)
  {
    if live != [] {
      var before, x := live[..|live| - 1], live[|live| - 1];
      assert Items(live)[..|live| - 1] == Items(before);
      ScanIsLinearScan(before, topic, tag);
      CharMatchIsLevelMatch(x.pattern, topic);
    }
  }

  /** What match returns on a snapshot that stores live. */
  ghost predicate Answers(out: seq<TopicSlot>, live: seq<Subscription>, topic: string, tag: nat) {
    && multiset(out) == multiset(Walked(Items(live), Split(topic), tag))
    && (Unambiguous(Split(topic)) ==> multiset(out) == multiset(Scan(Items(live), Split(topic), tag)))
    && (Unambiguous(Split(topic)) && !TrailingSlash(topic)
        && (forall i :: 0 <= i < |live| ==> WellFormedPattern(live[i].pattern)) ==>
          multiset(out) == multiset(LinearScan(live, topic, tag)))
  }

  lemma MatchAnswers(m: Content<TopicSlot>, live: seq<Subscription>, topic: string, tag: nat)
    requires Stores(m, Items(live))
    ensures Answers(Match(m, [], Split(topic), tag), live, topic, tag)
  {
    hide Scan, Walked, LinearScan, Match, Stores, WellFormedPattern;
    var out, walked := Match(m, [], Split(topic), tag), Walked(Items(live), Split(topic), tag);
    forall s | s in out || s in walked
      ensures Count(out, s) == Count(walked, s)
    {
      MatchIsWalk(m, Items(live), Split(topic), tag, s);
    }
    SameCounts(out, walked);
    if Unambiguous(Split(topic)) { WalkedIsScan(Items(live), Split(topic), tag); }
    if !TrailingSlash(topic) && forall i :: 0 <= i < |live| ==> WellFormedPattern(live[i].pattern) {
      ScanIsLinearScan(live, topic, tag);
    }
  }

  class WildcardTrie {
    var snapshot: Snapshot
    ghost var live: seq<Subscription>
    /** Every version published so far; the last one is current. */
    ghost var history: seq<Version>
    ghost var snaps: set<Snapshot>
    ghost var nodes: set<Node>

    ghost predicate Valid()
      reads this, snaps, nodes
    {
      && history != [] && history[|history| - 1] == Version(snapshot, live)
      && forall i :: 0 <= i < |history| ==> VersionOk(history[i], snaps, nodes)
    }

    constructor ()
      ensures Valid() && live == [] && history == [Version(snapshot, [])] && fresh(snaps) && fresh(nodes)
    {
      var s := new Snapshot();
      snapshot, live, history := s, [], [Version(s, [])];
      snaps, nodes := {s}, s.index.Values;
      new;
      assert Closed(snapshot.Content());
    }

    /** An empty trie has no subscription in it, and the other way round. */
    method Empty() returns (r: bool)
      requires Valid()
      ensures r <==> live == []
    {
      r := snapshot.entryCount == 0;
    }

    /** A walk over version i, loaded at any time in the past. */
    method MatchLoaded(snap: Snapshot, topic: string, tag: nat, ghost i: nat) returns (out: seq<TopicSlot>)
      requires Valid() && i < |history| && history[i].snap == snap
      ensures Answers(out, history[i].live, topic, tag)
      ensures out == TrieSpec.Match(snap.Content(), [], Split(topic), tag)
    {
      assert VersionOk(history[i], snaps, nodes);
      MatchAnswers(snap.Content(), history[i].live, topic, tag);
      if snap.entryCount == 0 {
        assert forall q :: At(snap.Content(), q) == Here(Items(history[i].live), q);
        EmptyMatch(snap.Content(), [], Split(topic), tag);
        return [];
      }
      var levels := SplitLevels(topic);
      assert levels[0..] == levels;
      out := MatchNode(snap.root, levels, 0, tag, [], snap.index, []);
    }

    method Match(topic: string, tag: nat) returns (out: seq<TopicSlot>)
      requires Valid()
      ensures Answers(out, live, topic, tag)
    {
      var snap := snapshot;
      out := MatchLoaded(snap, topic, tag, |history| - 1);
    }

    method Insert(pattern: string, entry: Entry<TopicSlot>)
      requires Valid()
      modifies this
      ensures Valid() && live == old(live) + [Subscription(pattern, entry)]
      ensures history == old(history) + [Version(snapshot, live)] && fresh(snapshot)
      ensures forall i :: 0 <= i < |old(history)| ==>
                old(history)[i].snap.Content() == old(history[i].snap.Content())
    {
      hide Tree, Stores, Stored;
      assert VersionOk(history[|history| - 1], snaps, nodes);
      var snap := CloneAndInsert(snapshot, pattern, entry, live);
      Publish(snap, live + [Subscription(pattern, entry)]);
    }

    /** Inserting a fresh subscription and removing it again publishes exactly the content before. */
    method InsertAndRemove(pattern: string, entry: Entry<TopicSlot>)
      requires Valid() && NoneHasId(live, entry.id)
      modifies this, SlotsOf(live), entry.slot
      ensures Valid() && live == old(live) && fresh(snapshot)
      ensures snapshot.Content() == old(snapshot.Content())
    {
      hide Tree, Stores, Stored;
      ghost var before := live;
      ghost var content := CurrentContent();
      Insert(pattern, entry);
      assert live[|before|].entry.id == entry.id;
      ghost var k;
      var found;
      found, k := Remove(entry.id);
      assert k == |before| && Drop(before + [Subscription(pattern, entry)], |before|) == before;
      ghost var after := CurrentContent();
      SameListSameContent(content, after, before);
    }

    /** What the current snapshot stores is the list. */
    lemma CurrentContent() returns (m: Content<TopicSlot>)
      requires Valid()
      ensures m == snapshot.Content() && Stores(m, Items(live))
    {
      m := snapshot.Content();
      assert VersionOk(history[|history| - 1], snaps, nodes);
    }

    /** Removes the entry with this id, if there is one. The subscriber list of its slot is the
        only thing older snapshots see change. */
    method Remove(id: nat) returns (found: bool, ghost k: nat)
      requires Valid()
      modifies this, SlotsOf(live)
      ensures Valid()
      ensures found <==> !NoneHasId(old(live), id)
      ensures !found ==> unchanged(this) && forall t :: t in SlotsOf(live) ==> t.subscribers == old(t.subscribers)
      ensures found ==>
                && k < |old(live)| && old(live)[k].entry.id == id && live == Drop(old(live), k)
                && OnlyLeft(old(SlotsOf(live)), old(live)[k].entry.slot, id)
                && history == old(history) + [Version(snapshot, live)] && fresh(snapshot)
      ensures forall i :: 0 <= i < |old(history)| ==>
                old(history)[i].snap.Content() == old(history[i].snap.Content())
    {
      hide Tree, Stores, Stored;
      assert VersionOk(history[|history| - 1], snaps, nodes);
      hide VersionOk, OnlyLeft, NoneHasId;
      var snap;
      snap, found, k := CloneAndRemove(snapshot, id, live, ListsOf(SlotsOf(live)));
      if found {
        Publish(snap, Drop(live, k));
      }
      forall i | 0 <= i < |old(history)|
        ensures old(history)[i].snap.Content() == old(history[i].snap.Content())
      {
        Untouched(old(history)[i].snap);
      }
    }

    /** Makes snap current. */
    method Publish(snap: Snapshot, ghost now: seq<Subscription>)
      requires Valid() && snap.Valid() && Stores(snap.Content(), Items(now)) && snap.entryCount == |now|
      modifies this
      ensures Valid() && live == now && snapshot == snap && history == old(history) + [Version(snap, now)]
    {
      hide VersionOk, Tree, Stores, Stored;
      snapshot, live := snap, now;
      ghost var versions, snaps0, nodes0 := history, snaps, nodes;
      history := versions + [Version(snap, now)];
      snaps, nodes := snaps + {snap}, nodes + snap.index.Values;
      NewVersion(snap, now, snaps, nodes);
      forall i | 0 <= i < |versions|
        ensures VersionOk(versions[i], snaps, nodes)
      {
        assert VersionOk(versions[i], snaps0, nodes0);
        VersionGrows(versions[i], snaps0, nodes0, snaps, nodes);
      }
    }
  }

  lemma NewVersion(snap: Snapshot, now: seq<Subscription>, snaps: set<Snapshot>, nodes: set<Node>)
    requires snap.Valid() && Stores(snap.Content(), Items(now)) && snap.entryCount == |now|
    requires snap in snaps && snap.index.Values <= nodes
    ensures VersionOk(Version(snap, now), snaps, nodes)
  {}

  lemma VersionGrows(v: Version, snaps: set<Snapshot>, nodes: set<Node>, moreSnaps: set<Snapshot>, moreNodes: set<Node>)
    requires VersionOk(v, snaps, nodes) && snaps <= moreSnaps && nodes <= moreNodes
    ensures VersionOk(v, moreSnaps, moreNodes)
  {
    hide Tree, Stores, Stored;
  }

  /** A list of subscriptions determines the content of the snapshot that stores it. */
  lemma SameListSameContent(m: Content<TopicSlot>, n: Content<TopicSlot>, live: seq<Subscription>)
    requires Stores(m, Items(live)) && Stores(n, Items(live))
    ensures m == n
  {
    hide Closed, Occupied;
    Canonical(m, n);
  }

  lemma ItemsPush(live: seq<Subscription>, x: Subscription)
    ensures Items(live + [x]) == Items(live) + [Item(Split(x.pattern), x.entry)]
  {}

  lemma ItemsDrop(live: seq<Subscription>, k: nat)
    requires k < |live|
    ensures Items(Drop(live, k)) == Drop(Items(live), k)
  {}
}
