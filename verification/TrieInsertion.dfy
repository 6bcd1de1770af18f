/** Insertion into a cloned trie: walk down the levels, making the missing nodes. */
module TrieInsertion {
  import opened TopicSlots
  import opened TrieSpec
  import opened TrieNodes

  /** The trie with a node for every prefix of p up to length n. */
  ghost function Widened<S>(m: Content<S>, p: Path, n: nat): Content<S>
    requires n <= |p|
  {
    map q | q in m.Keys + (set i | 0 <= i <= n :: p[..i]) :: At(m, q)
  }

  lemma WidenedStep<S>(m: Content<S>, p: Path, n: nat)
    requires n < |p|
    ensures p[..n] + [p[n]] == p[..n + 1]
    ensures Widened(m, p, n + 1) == Widened(m, p, n)[p[..n + 1] := At(m, p[..n + 1])]
    ensures At(Widened(m, p, n), p[..n + 1]) == At(m, p[..n + 1])
  {}

  lemma WidenedStart<S>(m: Content<S>, p: Path)
    requires [] in m
    ensures Widened(m, p, 0) == m
  {
    assert p[..0] == [];
  }

  lemma WidenedEnd<S>(m: Content<S>, p: Path, e: Entry<S>)
    ensures var w := Widened(m, p, |p|); p in w && w[p := w[p] + [e]] == Inserted(m, p, e)
  {
    assert p[..|p|] == p;
  }

  /** index and one more node. */
  ghost function With(index: Index, q: Path, node: Node): Index { index[q := node] }

  lemma OnlyAt(index: Index, q: Path)
    requires Tree(index, []) && q in index
    ensures forall r :: r in index && r != q ==> index[r] != index[q]
  {}

  /** Only the node of path q changed, by gaining a new child. */
  twostate lemma Grown(index: Index, new q: Path, new level: string, new child: Node)
    requires old(Tree(index, [])) && q in index && q + [level] !in index
    requires forall r :: r in index ==> index[r] != child
    requires forall r :: r in index && r != q ==> unchanged(index[r])
    requires index[q].children == old(index[q].children)[level := child] && index[q].entries == old(index[q].entries)
    requires child.children == map[] && child.entries == []
    ensures Tree(With(index, q + [level], child), [])
    ensures Stored(With(index, q + [level], child)) == old(Stored(index))[q + [level] := []]
  {
    var c, more := q + [level], With(index, q + [level], child);
    assert Parent(c) == q && c[|q|] == level;
    forall r {:trigger Parent(r)} | r in more && r != []
      ensures Parent(r) in more && r[|r| - 1] in more[Parent(r)].children
    {
      if r != c {
        assert Parent(r) in index && r[|r| - 1] in old(index[Parent(r)].children);
        StillParent(index[Parent(r)], index[q], level, child, r[|r| - 1]);
      }
    }
    forall r, k | r in more && k in more[r].children
      ensures r + [k] in more && more[r].children[k] == more[r + [k]]
    {
      SameChild(q, level, r, k);
      assert r != c && (r != q || k != level) ==> k in old(index[r].children);
    }
  }

  twostate lemma StillParent(parent: Node, new node: Node, new level: string, new child: Node, new k: string)
    requires old(allocated(node))
    requires unchanged(parent) || (parent == node && parent.children == old(parent.children)[level := child])
    requires k in old(parent.children)
    ensures k in parent.children
  {}

  /** One level down, making the child when there is none. */
  method Descend(cur: Node, level: string, ghost index: Index, ghost q: Path) returns (child: Node, ghost more: Index)
    requires Tree(index, []) && q in index && index[q] == cur
    modifies cur
    ensures Tree(more, []) && q + [level] in more && more[q + [level]] == child
    ensures Stored(more) == old(Stored(index))[q + [level] := At(old(Stored(index)), q + [level])]
    ensures forall r :: r in index ==> r in more && more[r] == index[r]
    ensures forall r :: r in more && r !in index ==> fresh(more[r])
  {
    ChildPath(index, [], q, level);
    if level in cur.children {
      child, more := cur.children[level], index;
      assert Stored(index) == Stored(index)[q + [level] := At(Stored(index), q + [level])];
    } else {
      child := new Node();
      hide Tree, Stored;
      OnlyAt(index, q);
      label attach:
      cur.children := cur.children[level := child];
      Grown@attach(index, q, level, child);
      more := With(index, q + [level], child);
    }
  }

  method AddEntry(node: Node, e: Entry<TopicSlot>, ghost index: Index, ghost p: Path)
    requires Tree(index, []) && p in index && index[p] == node
    modifies node
    ensures Tree(index, []) && Stored(index) == old(Stored(index))[p := old(Stored(index))[p] + [e]]
  {
    assert forall r :: r in index && r != p ==> index[r] != node;
    label push:
    node.entries := node.entries + [e];
    assert forall r :: r in index ==> index[r].children == old@push(index[r].children);
  }

  method InsertAt(root: Node, levels: seq<string>, e: Entry<TopicSlot>, ghost index: Index) returns (ghost more: Index)
    requires Tree(index, []) && [] in index && index[[]] == root
    modifies index.Values
    ensures Tree(more, []) && more[[]] == root
    ensures Stored(more) == Inserted(old(Stored(index)), levels, e)
    ensures forall r :: r in more && r !in index ==> fresh(more[r])
    ensures forall r :: r in index ==> r in more && more[r] == index[r]
  {
    hide Tree, Widened, Inserted, Stored;
    ghost var m := Stored(index);
    var cur := root;
    more := index;
    WidenedStart(m, levels);
    for i := 0 to |levels|
      invariant Tree(more, []) && [] in more && more[[]] == root && levels[..i] in more && more[levels[..i]] == cur
      invariant Stored(more) == Widened(m, levels, i)
      invariant forall r :: r in index ==> r in more && more[r] == index[r]
      invariant forall r :: r in more && r !in index ==> fresh(more[r])
    {
      WidenedStep(m, levels, i);
      assert cur in index.Values || fresh(cur);
      cur, more := Descend(cur, levels[i], more, levels[..i]);
    }
    assert levels[..|levels|] == levels;
    assert cur in index.Values || fresh(cur);
    WidenedEnd(m, levels, e);
    AddEntry(cur, e, more, levels);
  }
}
