/** Trie nodes on the heap, with a ghost index of all nodes by path. */
module TrieNodes {
  import opened TopicSlots
  import opened TrieSpec

  class Node {
    var children: map<string, Node>
    var entries: seq<Entry<TopicSlot>>

    constructor ()
      ensures children == map[] && entries == []
    {
      children, entries := map[], [];
    }
  }

  type Index = map<Path, Node>

  /** The index lists exactly the nodes reachable from the node of path p0, each under its path. */
  ghost predicate Tree(index: Index, p0: Path)
    reads index.Values
  {
    && p0 in index
    && (forall q :: q in index ==> p0 <= q)
    && (forall q {:trigger Parent(q)} :: q in index && q != p0 ==> Parent(q) in index && q[|q| - 1] in index[Parent(q)].children)
    && (forall q, k :: q in index && k in index[q].children ==> q + [k] in index && index[q].children[k] == index[q + [k]])
    && (forall q, r :: q in index && r in index && index[q] == index[r] ==> q == r)
  }

  ghost function Stored(index: Index): (m: Content<TopicSlot>)
    reads index.Values
    ensures m.Keys == index.Keys
  {
    map q | q in index :: index[q].entries
  }

  lemma TreeIsClosed(index: Index)
    requires Tree(index, [])
    ensures Closed(Stored(index))
  {}

  lemma ChildPath(index: Index, p0: Path, q: Path, k: string)
    requires Tree(index, p0) && q in index
    ensures k in index[q].children <==> q + [k] in index
    ensures k in index[q].children ==> index[q].children[k] == index[q + [k]]
  {
    assert p0 <= q && |p0| < |q + [k]|;
    assert Parent(q + [k]) == q && (q + [k])[|q|] == k;
  }

  lemma SameChild(p: Path, key: string, q: Path, k: string)
    ensures p + [key] == q + [k] <==> p == q && key == k
  {
    if p + [key] == q + [k] {
      assert (p + [key])[|p|] == key && (q + [k])[..|q|] == q && (p + [key])[..|p|] == p;
    }
  }

  // ---------- match ----------

  method MatchNode(node: Node, levels: seq<string>, depth: nat, tag: nat, found: seq<TopicSlot>,
                   ghost index: Index, ghost p: Path)
    returns (out: seq<TopicSlot>)
    requires Tree(index, []) && p in index && index[p] == node && depth <= |levels|
    ensures out == found + Match(Stored(index), p, levels[depth..], tag)
    decreases |levels| - depth, 1
  {
    hide Tree, TrieSpec.Match, Slots;
    var hash := MatchHash(node, tag, found, index, p);
    if depth >= |levels| {
      out := CollectSlots(node.entries, tag, hash);
      MatchEnd(Stored(index), p, tag, found, hash, out);
      assert levels[depth..] == [];
      return;
    }
    var exact := MatchChild(node, levels[depth], levels, depth, tag, hash, index, p);
    out := MatchChild(node, "*", levels, depth, tag, exact, index, p);
    MatchPieces(Stored(index), p, levels[depth..], tag, found, hash, exact, out);
  }

  /** The child for key, if there is one. */
  method MatchChild(node: Node, key: string, levels: seq<string>, depth: nat, tag: nat, found: seq<TopicSlot>,
                    ghost index: Index, ghost p: Path)
    returns (out: seq<TopicSlot>)
    requires Tree(index, []) && p in index && index[p] == node && depth < |levels|
    ensures out == found + Match(Stored(index), p + [key], levels[depth + 1..], tag)
    decreases |levels| - depth, 0
  {
    hide Tree, TrieSpec.Match, Stored;
    ChildPath(index, [], p, key);
    if key in node.children {
      out := MatchNode(node.children[key], levels, depth + 1, tag, found, index, p + [key]);
    } else {
      TreeIsClosed(index);
      NoNodeNoMatch(Stored(index), p + [key], levels[depth + 1..], tag);
      out := found;
    }
  }

  /** The entries of the "#" child match whatever levels remain. */
  method MatchHash(node: Node, tag: nat, found: seq<TopicSlot>, ghost index: Index, ghost p: Path)
    returns (out: seq<TopicSlot>)
    requires Tree(index, []) && p in index && index[p] == node
    ensures out == found + Slots(At(Stored(index), p + ["#"]), tag)
  {
    ChildPath(index, [], p, "#");
    out := found;
    if "#" in node.children {
      out := CollectSlots(node.children["#"].entries, tag, out);
    }
  }

  method CollectSlots(entries: seq<Entry<TopicSlot>>, tag: nat, found: seq<TopicSlot>) returns (out: seq<TopicSlot>)
    ensures out == found + Slots(entries, tag)
  {
    out := found;
    for i := 0 to |entries|
      invariant out == found + Slots(entries[..i], tag)
    {
      assert entries[..i + 1][..i] == entries[..i];
      if entries[i].tag == tag {
        out := out + [entries[i].slot];
      }
    }
    assert entries[..|entries|] == entries;
  }

  // ---------- clone ----------

  /** copy has the nodes of the part of index below p, with the same entries and child names. */
  ghost predicate CopyOf(copy: Index, index: Index, p: Path)
    requires p in index
    reads copy.Values, index.Values
  {
    && copy.Keys == (set q | q in index && p <= q)
    && (forall q :: q in copy ==> copy[q].entries == index[q].entries && copy[q].children.Keys == index[q].children.Keys)
    && (forall q, k :: q in copy && k in copy[q].children ==> q + [k] in copy && copy[q].children[k] == copy[q + [k]])
    && (forall q, r :: q in copy && r in copy && copy[q] == copy[r] ==> q == r)
  }

  lemma CopyIsTree(copy: Index, index: Index, p: Path)
    requires Tree(index, []) && p in index && CopyOf(copy, index, p)
    ensures Tree(copy, p)
  {
    forall q | q in copy && q != p
      ensures Parent(q) in copy && q[|q| - 1] in copy[Parent(q)].children
    {
      assert Parent(q) in index && q[|q| - 1] in index[Parent(q)].children;
      assert p <= Parent(q);
    }
  }

  lemma CopyStores(copy: Index, index: Index)
    requires [] in index && CopyOf(copy, index, [])
    ensures Stored(copy) == Stored(index)
  {}

  ghost function SubPaths(index: Index, p: Path): set<Path> { set q | q in index && p <= q }

  lemma SubPathsChild(index: Index, p: Path, k: string)
    requires p in index
    ensures SubPaths(index, p + [k]) < SubPaths(index, p)
  {
    assert p in SubPaths(index, p) && p !in SubPaths(index, p + [k]);
    forall q | q in SubPaths(index, p + [k])
      ensures q in SubPaths(index, p)
    {
      Deeper(p, k, q);
    }
  }

  /** Paths at or below p, whose next level, if any, is among done. */
  ghost predicate Covered(p: Path, done: set<string>, q: Path) {
    p <= q && (|q| > |p| ==> q[|p|] in done)
  }

  /** A copy of the node of path p and of its children named in done. */
  ghost predicate Partial(copy: Index, index: Index, p: Path, done: set<string>)
    requires p in index
    reads copy.Values, index.Values
  {
    && p in copy && copy.Keys == (set q | q in index && Covered(p, done, q))
    && copy[p].entries == index[p].entries && copy[p].children.Keys == done
    && (forall q :: q in copy && q != p ==>
          copy[q].entries == index[q].entries && copy[q].children.Keys == index[q].children.Keys)
    && (forall q, k :: q in copy && k in copy[q].children ==> q + [k] in copy && copy[q].children[k] == copy[q + [k]])
    && (forall q, r :: q in copy && r in copy && copy[q] == copy[r] ==> q == r)
  }

  method CloneNode(src: Node, dst: Node, ghost index: Index, ghost p: Path) returns (ghost copy: Index)
    requires Tree(index, []) && p in index && index[p] == src
    requires dst !in index.Values && dst.children == map[] && dst.entries == []
    modifies dst
    ensures CopyOf(copy, index, p) && copy[p] == dst
    ensures forall q :: q in copy && q != p ==> fresh(copy[q])
    decreases SubPaths(index, p), 1
  {
    assert src in index.Values;
    dst.entries := src.entries;
    JustRoot(map[p := dst], index, p);
    copy := CloneChildren(src, dst, index, p);
  }

  method CloneChildren(src: Node, dst: Node, ghost index: Index, ghost p: Path) returns (ghost copy: Index)
    requires Tree(index, []) && p in index && index[p] == src && src != dst
    requires dst !in index.Values && Partial(map[p := dst], index, p, {})
    modifies dst
    ensures CopyOf(copy, index, p) && copy[p] == dst
    ensures forall q :: q in copy && q != p ==> fresh(copy[q])
    decreases SubPaths(index, p), 0
  {
    copy := map[p := dst];
    var todo := src.children.Keys;
    ghost var names, done: set<string> := todo, {};
    while todo != {}
      invariant src.children.Keys == names && done !! todo && done + todo == names
      invariant p in copy && copy[p] == dst
      invariant forall q :: q in copy && q != p ==> fresh(copy[q])
      invariant Partial(copy, index, p, done)
      decreases todo
    {
      var key :| key in todo;
      SubPathsChild(index, p, key);
      copy := CloneChild(src, dst, key, copy, done, index, p);
      done, todo := done + {key}, todo - {key};
    }
    WholeCopy(copy, index, p);
  }

  method CloneChild(src: Node, dst: Node, key: string, ghost copy: Index, ghost done: set<string>,
                    ghost index: Index, ghost p: Path)
    returns (ghost more: Index)
    requires Tree(index, []) && p in index && index[p] == src && key in src.children && key !in done
    requires Partial(copy, index, p, done) && copy[p] == dst && dst !in index.Values
    modifies dst
    ensures Partial(more, index, p, done + {key}) && more[p] == dst
    ensures forall q :: q in more && q != p ==> fresh(more[q]) || (q in copy && more[q] == copy[q])
    decreases SubPaths(index, p + [key]), 2
  {
    var cloned := new Node();
    ghost var part := CloneNode(src.children[key], cloned, index, p + [key]);
    MergeKeys(index, p, done, key, copy, part);
    assert forall r :: r in part ==> fresh(part[r]);
    OnlyDst(copy, part, index, p, dst);
    label attach:
    dst.children := dst.children[key := cloned];
    Attach@attach(copy, part, index, p, done, key, dst, cloned);
    more := copy + part;
  }

  lemma OnlyDst(copy: Index, part: Index, index: Index, p: Path, dst: Node)
    requires p in copy && copy[p] == dst && dst !in index.Values
    requires forall q, r :: q in copy && r in copy && copy[q] == copy[r] ==> q == r
    requires forall q, r :: q in copy && r in part ==> copy[q] != part[r]
    ensures forall q :: q in copy && q != p ==> copy[q] != dst
    ensures forall q :: q in part ==> part[q] != dst
    ensures forall q :: q in index ==> index[q] != dst
  {
    forall q | q in index
      ensures index[q] != dst
    {
      assert index[q] in index.Values;
    }
  }

  /** Only dst changed, by gaining one child. */
  twostate lemma Attach(copy: Index, new part: Index, new index: Index, new p: Path, new done: set<string>, new key: string,
                        new dst: Node, new cloned: Node)
    requires old(allocated(part)) && old(allocated(index)) && old(allocated(dst))
    requires p in index && p + [key] in index && key !in done
    requires old(Partial(copy, index, p, done)) && copy[p] == dst
    requires old(CopyOf(part, index, p + [key])) && part[p + [key]] == cloned
    requires copy.Keys !! part.Keys && (copy + part).Keys == (set q | q in index && Covered(p, done + {key}, q))
    requires forall q, r :: q in copy && r in part ==> copy[q] != part[r]
    requires dst.children == old(dst.children)[key := cloned] && dst.entries == old(dst.entries)
    requires forall q :: q in copy && q != p ==> unchanged(copy[q])
    requires forall q :: q in part ==> unchanged(part[q])
    requires forall q :: q in index ==> unchanged(index[q])
    ensures Partial(copy + part, index, p, done + {key})
  {
    MergeCopies(copy, part, index, p, done, key);
  }

  lemma JustRoot(copy: Index, index: Index, p: Path)
    requires p in index && copy.Keys == {p} && copy[p].entries == index[p].entries && copy[p].children == map[]
    ensures Partial(copy, index, p, {})
  {
    OnlyRoot(index, p);
  }

  lemma WholeCopy(copy: Index, index: Index, p: Path)
    requires Tree(index, []) && p in index && Partial(copy, index, p, index[p].children.Keys)
    ensures CopyOf(copy, index, p)
  {
    AllCovered(index, p, index[p].children.Keys);
  }

  lemma OnlyRoot(index: Index, p: Path)
    requires p in index
    ensures (set q | q in index && Covered(p, {}, q)) == {p}
  {
    forall q | q in index && Covered(p, {}, q)
      ensures q == p
    {
      assert q == p + q[|p|..];
    }
  }

  /** Attaching one more copied child. */
  lemma MergeCopies(copy: Index, part: Index, index: Index, p: Path, done: set<string>, key: string)
    requires p in index && p + [key] in index && key !in done
    requires p in copy && copy.Keys == (set q | q in index && Covered(p, done, q))
    requires copy.Keys !! part.Keys && (copy + part).Keys == (set q | q in index && Covered(p, done + {key}, q))
    requires copy[p].entries == index[p].entries && copy[p].children.Keys == done + {key}
    requires CopyOf(part, index, p + [key]) && copy[p].children[key] == part[p + [key]]
    requires forall k :: k in done ==> p + [k] in copy && copy[p].children[k] == copy[p + [k]]
    requires forall q :: q in copy && q != p ==>
               copy[q].entries == index[q].entries && copy[q].children.Keys == index[q].children.Keys
    requires forall q, k :: q in copy && q != p && k in copy[q].children ==> q + [k] in copy && copy[q].children[k] == copy[q + [k]]
    requires forall q, r :: q in copy && r in copy && copy[q] == copy[r] ==> q == r
    requires forall q, r :: q in copy && r in part ==> copy[q] != part[r]
    ensures Partial(copy + part, index, p, done + {key})
  {}

  lemma MergeKeys(index: Index, p: Path, done: set<string>, key: string, copy: Index, part: Index)
    requires p in index && key !in done
    requires copy.Keys == (set q | q in index && Covered(p, done, q))
    requires part.Keys == (set q | q in index && p + [key] <= q)
    ensures copy.Keys !! part.Keys
    ensures (copy + part).Keys == (set q | q in index && Covered(p, done + {key}, q))
  {
    forall q | q in index
      ensures p + [key] <= q <==> p <= q && |q| > |p| && q[|p|] == key
    {
      Deeper(p, key, q);
    }
  }

  lemma AllCovered(index: Index, p: Path, done: set<string>)
    requires Tree(index, []) && p in index && done == index[p].children.Keys
    ensures (set q | q in index && Covered(p, done, q)) == SubPaths(index, p)
  {
    forall q | q in index && p <= q && |q| > |p|
      ensures q[|p|] in done
    {
      FirstStep(index, p, q);
    }
  }

  lemma {:induction false} FirstStep(index: Index, p: Path, q: Path)
    requires Tree(index, []) && p in index && q in index && p <= q && |q| > |p|
    ensures q[|p|] in index[p].children
    decreases |q|
  {
    if |q| == |p| + 1 {
      assert Parent(q) == p;
    } else {
      FirstStep(index, p, Parent(q));
    }
  }
}
