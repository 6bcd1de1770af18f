/** Removal from a cloned trie: find the entry, take it out of its slot and its node, prune the
    nodes left bare on the way back. */
module TrieRemoval {
  import opened Seqs
  import opened TopicSlots
  import opened TrieSpec
  import opened TrieNodes

  /** No entry at or below p has this id. */
  ghost predicate NoIdBelow(m: Content<TopicSlot>, p: Path, id: nat) {
    forall q, j :: q in m && p <= q && 0 <= j < |m[q]| ==> m[q][j].id != id
  }

  ghost predicate NoneIn(names: set<string>, m: Content<TopicSlot>, p: Path, id: nat) {
    forall k :: k in names ==> NoIdBelow(m, p + [k], id)
  }

  predicate NoIdIn(entries: seq<Entry<TopicSlot>>, id: nat) {
    forall j :: 0 <= j < |entries| ==> entries[j].id != id
  }

  ghost predicate SlotsIn(m: Content<TopicSlot>, slots: set<TopicSlot>) {
    forall q, j :: q in m && 0 <= j < |m[q]| ==> m[q][j].slot in slots
  }

  /** Entry i of path is gone, and the nodes left bare below p with it. */
  ghost predicate Removed(before: Content<TopicSlot>, after: Content<TopicSlot>, p: Path, path: Path, i: nat, id: nat) {
    && path in before && i < |before[path]| && before[path][i].id == id && p <= path
    && after == ShakenBelow(Cleared(before, path, i), p)
  }

  /** What every slot lists; a map, so that it can be compared across steps. */
  type Lists = map<TopicSlot, seq<nat>>

  ghost predicate Listed(lists: Lists)
    reads lists.Keys
  {
    forall t :: t in lists ==> t.subscribers == lists[t]
  }

  /** The slot of the removed entry drops the subscriber; every other slot is left alone. */
  ghost function WithoutId(lists: Lists, slot: TopicSlot, id: nat): Lists
    requires slot in lists
  {
    lists[slot := Filter(lists[slot], Except(id))]
  }

  ghost predicate Ready(m: Content<TopicSlot>, index: Index, lists: Lists)
    reads index.Values, lists.Keys
  {
    Tree(index, []) && Stored(index) == m && Pruned(m) && SlotsIn(m, lists.Keys) && Listed(lists)
  }

  /** The result of a search below p. */
  ghost predicate Outcome(found: bool, m: Content<TopicSlot>, index: Index, left: Index, lists: Lists,
                          p: Path, path: Path, i: nat, id: nat)
    reads index.Values, left.Values, lists.Keys
  {
    && (forall q :: q in left ==> q in index && left[q] == index[q])
    && if found then
         && Tree(left, []) && Removed(m, Stored(left), p, path, i, id)
         && m[path][i].slot in lists && Listed(WithoutId(lists, m[path][i].slot, id))
       else Ready(m, index, lists) && NoIdBelow(m, p, id)
  }

  method FindHere(node: Node, id: nat) returns (found: bool, n: nat)
    ensures found ==> n < |node.entries| && node.entries[n].id == id
    ensures !found ==> NoIdIn(node.entries, id)
  {
    n := 0;
    while n < |node.entries|
      invariant 0 <= n <= |node.entries|
      invariant forall j :: 0 <= j < n ==> node.entries[j].id != id
    {
      if node.entries[n].id == id {
        return true, n;
      }
      n := n + 1;
    }
    found := false;
  }

  /** Only an entry of p changed. */
  twostate lemma EntryGone(index: Index, new p: Path, new i: nat)
    requires old(Tree(index, [])) && p in index && i < |old(index[p].entries)|
    requires forall q :: q in index && q != p ==> unchanged(index[q])
    requires index[p].children == old(index[p].children) && index[p].entries == Drop(old(index[p].entries), i)
    ensures Tree(index, []) && Stored(index) == Cleared(old(Stored(index)), p, i)
  {
    assert forall q :: q in index ==> index[q].children == old(index[q].children);
    assert old(Stored(index))[p] == old(index[p].entries);
  }

  /** Only p changed, by losing a bare child. */
  twostate lemma Detached(index: Index, new p: Path, new key: string)
    requires old(Tree(index, [])) && p in index && p + [key] in index
    requires forall k :: p + [key] + [k] !in index
    requires forall q :: q in index && q != p ==> unchanged(index[q])
    requires index[p].children == old(index[p].children) - {key} && index[p].entries == old(index[p].entries)
    ensures Tree(index - {p + [key]}, []) && Stored(index - {p + [key]}) == old(Stored(index)) - {p + [key]}
  {
    var left := index - {p + [key]};
    NoParent(index.Keys, p + [key]);
    forall q {:trigger Parent(q)} | q in left && q != []
      ensures Parent(q) in left && q[|q| - 1] in left[Parent(q)].children
    {
      assert Parent(q) in index && q[|q| - 1] in old(index[Parent(q)].children);
      OtherParent(index[Parent(q)], index[p], p, key, q);
    }
    forall q, k | q in left && k in left[q].children
      ensures q + [k] in left && left[q].children[k] == left[q + [k]]
    {
      SameChild(p, key, q, k);
      assert k in old(index[q].children);
    }
  }

  lemma NoParent(paths: set<Path>, leaf: Path)
    requires forall k :: leaf + [k] !in paths
    ensures forall q {:trigger Parent(q)} :: q in paths && q != [] ==> Parent(q) != leaf
  {
    forall q {:trigger Parent(q)} | q in paths && q != []
      ensures Parent(q) != leaf
    {
      assert q == Parent(q) + [q[|q| - 1]];
    }
  }

  twostate lemma OtherParent(parent: Node, new node: Node, new p: Path, new key: string, new q: Path)
    requires old(allocated(node))
    requires q != [] && q != p + [key] && q[|q| - 1] in old(parent.children)
    requires parent == node ==> Parent(q) == p
    requires unchanged(parent) || (parent == node && parent.children == old(parent.children) - {key})
    ensures q[|q| - 1] in parent.children
  {
    assert q == Parent(q) + [q[|q| - 1]];
  }

  method PruneChild(node: Node, key: string, ghost index: Index, ghost p: Path) returns (ghost left: Index)
    requires Tree(index, []) && p in index && index[p] == node && key in node.children
    modifies node
    ensures p + [key] in index
    ensures left == if Bare(old(Stored(index)), p + [key]) then index - {p + [key]} else index
    ensures Tree(left, [])
    ensures Stored(left) == if Bare(old(Stored(index)), p + [key]) then old(Stored(index)) - {p + [key]} else old(Stored(index))
  {
    var child := node.children[key];
    ghost var childPath := p + [key];
    assert childPath in index && index[childPath] == child && Stored(index)[childPath] == child.entries;
    forall k
      ensures k in child.children <==> childPath + [k] in index
    {
      ChildPath(index, [], childPath, k);
    }
    left := index;
    if child.entries == [] && child.children == map[] {
      assert forall q :: q in index && q != p ==> index[q] != node;
      label detach:
      node.children := node.children - {key};
      Detached@detach(index, p, key);
      left := index - {childPath};
    } else {
      assert child.children != map[] ==> exists k :: k in child.children;
    }
  }

  method RemoveFrom(node: Node, id: nat, ghost m: Content<TopicSlot>, ghost index: Index, ghost p: Path, ghost lists: Lists)
    returns (found: bool, ghost left: Index, ghost path: Path, ghost i: nat)
    requires Ready(m, index, lists) && p in index && index[p] == node
    modifies index.Values, lists.Keys
    ensures Outcome(found, m, index, left, lists, p, path, i, id)
    decreases SubPaths(index, p), 1
  {
    hide Tree, NoIdBelow, Pruned, SlotsIn, Listed;
    assert m[p] == node.entries && node in index.Values;
    var here, n := FindHere(node, id);
    if here {
      RemoveHere(node, n, id, m, index, p, lists);
      found, left, path, i := true, index, p, n;
    } else {
      assert NoIdIn(m[p], id);
      ghost var names := node.children.Keys;
      Names(index, p);
      found, left, path, i := RemoveFromChildren(node, id, m, index, p, lists, names);
      if !found { NotInChildren(index, p, id, m, names); }
    }
  }

  method RemoveHere(node: Node, n: nat, id: nat, ghost m: Content<TopicSlot>, ghost index: Index, ghost p: Path, ghost lists: Lists)
    requires Ready(m, index, lists) && p in index && index[p] == node && n < |node.entries| && node.entries[n].id == id
    modifies node, lists.Keys
    ensures Outcome(true, m, index, index, lists, p, p, n, id)
  {
    assert m[p] == node.entries;
    NothingBelow(m, p, n);
    var slot := node.entries[n].slot;
    var _ := slot.RemoveSubscriber(id);
    node.entries := Drop(node.entries, n);
    assert forall q :: q in index && q != p ==> index[q] != node;
    EntryGone(index, p, n);
  }

  method RemoveFromChildren(node: Node, id: nat, ghost m: Content<TopicSlot>, ghost index: Index, ghost p: Path, ghost lists: Lists,
                            ghost names: set<string>)
    returns (found: bool, ghost left: Index, ghost path: Path, ghost i: nat)
    requires Ready(m, index, lists) && p in index && index[p] == node && names == node.children.Keys
    requires NamesBelow(names, index, p)
    modifies index.Values, lists.Keys
    ensures if found then Outcome(true, m, index, left, lists, p, path, i, id)
            else Ready(m, index, lists) && left == index && NoneIn(names, m, p, id)
    decreases SubPaths(index, p), 0
  {
    hide Ready, Outcome, NoIdBelow;
    var todo := node.children.Keys;
    while todo != {}
      invariant todo <= names && Ready(m, index, lists)
      invariant NoneIn(names - todo, m, p, id)
      decreases todo
    {
      var key :| key in todo;
      SubPathsChild(index, p, key);
      found, left, path, i := RemoveFromChild(node, key, id, m, index, p, lists);
      if found {
        return;
      }
      todo := todo - {key};
    }
    found, left, path, i := false, index, p, 0;
  }

  /** The levels that lead from p to a node. */
  ghost predicate NamesBelow(names: set<string>, index: Index, p: Path) {
    forall k :: k in names <==> p + [k] in index
  }

  lemma Names(index: Index, p: Path)
    requires Tree(index, []) && p in index
    ensures NamesBelow(index[p].children.Keys, index, p)
  {
    forall k
      ensures k in index[p].children <==> p + [k] in index
    {
      ChildPath(index, [], p, k);
    }
  }

  method RemoveFromChild(node: Node, key: string, id: nat, ghost m: Content<TopicSlot>, ghost index: Index, ghost p: Path,
                         ghost lists: Lists)
    returns (found: bool, ghost left: Index, ghost path: Path, ghost i: nat)
    requires Ready(m, index, lists) && p in index && index[p] == node && p + [key] in index
    modifies index.Values, lists.Keys
    ensures if found then Outcome(true, m, index, left, lists, p, path, i, id)
            else Ready(m, index, lists) && left == index && NoIdBelow(m, p + [key], id)
    decreases SubPaths(index, p + [key]), 2
  {
    hide SlotsIn, NoIdBelow, ShakenBelow, Cleared, Tree, Stored, Listed, WithoutId;
    assert node in index.Values;
    ChildPath(index, [], p, key);
    found, left, path, i := RemoveFrom(node.children[key], id, m, index, p + [key], lists);
    if found {
      Deeper(p, key, path);
      ghost var below := left;
      left := PruneOnPath(node, key, m, below, p, path, i, WithoutId(lists, m[path][i].slot, id));
      FoundAbove(m, index, below, left, lists, p, path, i, id);
    } else {
      left := index;
    }
  }

  /** The outcome one level up. */
  lemma FoundAbove(m: Content<TopicSlot>, index: Index, below: Index, left: Index, lists: Lists, p: Path, path: Path, i: nat, id: nat)
    requires forall q :: q in below ==> q in index && below[q] == index[q]
    requires forall q :: q in left ==> q in below && left[q] == below[q]
    requires Tree(left, []) && path in m && i < |m[path]| && m[path][i].id == id && p <= path
    requires Stored(left) == ShakenBelow(Cleared(m, path, i), p)
    requires m[path][i].slot in lists && Listed(WithoutId(lists, m[path][i].slot, id))
    ensures Outcome(true, m, index, left, lists, p, path, i, id)
  {
    hide Tree, Stored, ShakenBelow, Cleared, Listed, WithoutId;
  }

  method PruneOnPath(node: Node, key: string, ghost m: Content<TopicSlot>, ghost index: Index, ghost p: Path,
                     ghost path: Path, ghost i: nat, ghost lists: Lists)
    returns (ghost left: Index)
    requires Listed(lists) && Pruned(m) && p in m && p + [key] in m && path in m && i < |m[path]| && p + [key] <= path
    requires Tree(index, []) && Stored(index) == ShakenBelow(Cleared(m, path, i), p + [key])
    requires p in index ==> index[p] == node
    modifies node
    ensures Listed(lists) && Tree(left, []) && Stored(left) == ShakenBelow(Cleared(m, path, i), p)
    ensures forall q :: q in left ==> q in index && left[q] == index[q]
  {
    ghost var c, child := Cleared(m, path, i), p + [key];
    ShakeOneLevel(m, p, key, path, i);
    assert !Under(child, p) && Stays(c, child, p) && p in index;
    ChildPath(index, [], p, key);
    left := PruneChild(node, key, index, p);
  }

  lemma NotInChildren(index: Index, p: Path, id: nat, m: Content<TopicSlot>, names: set<string>)
    requires Tree(index, []) && p in index && m.Keys == index.Keys && NamesBelow(names, index, p)
    requires NoIdIn(m[p], id) && NoneIn(names, m, p, id)
    ensures NoIdBelow(m, p, id)
  {
    forall q, j | q in m && p <= q && 0 <= j < |m[q]|
      ensures m[q][j].id != id
    {
      if |q| > |p| {
        FirstStep(index, p, q);
        Deeper(p, q[|p|], q);
      } else {
        assert q == p;
      }
    }
  }
}
