/** The wildcard index as a value: the entries stored at each path of levels, compared with the
    linear list of subscriptions it stands for. */
module TrieSpec {
  import opened Seqs
  import opened TopicLevels

  type Path = seq<string>

  datatype Entry<S> = Entry(tag: nat, slot: S, id: nat)

  /** Every path that has a node, with the entries of that node. */
  type Content<S> = map<Path, seq<Entry<S>>>

  function At<S>(m: Content<S>, p: Path): seq<Entry<S>> {
    if p in m then m[p] else []
  }

  function Parent(p: Path): Path
    requires p != []
  {
    p[..|p| - 1]
  }

  /** The paths form a tree. */
  ghost predicate Closed<S>(m: Content<S>) {
    [] in m && forall p {:trigger Parent(p)} :: p in m && p != [] ==> Parent(p) in m
  }

  /** Some entry is stored at or below p. */
  ghost predicate Occupied<S>(m: Content<S>, p: Path) {
    exists q :: q in m && p <= q && m[q] != []
  }

  /** Every node but the root leads to an entry. */
  ghost predicate Pruned<S>(m: Content<S>) {
    Closed(m) && forall p :: p in m && p != [] ==> Occupied(m, p)
  }

  // ---------- insert and remove ----------

  ghost function Inserted<S>(m: Content<S>, p: Path, e: Entry<S>): Content<S> {
    map q | q in m.Keys + (set i | 0 <= i <= |p| :: p[..i]) :: if q == p then At(m, p) + [e] else At(m, q)
  }

  function Drop<T>(xs: seq<T>, i: nat): seq<T>
    requires i < |xs|
  {
    xs[..i] + xs[i + 1..]
  }

  /** Taking out entry i of path p, without pruning. */
  ghost function Cleared<S>(m: Content<S>, p: Path, i: nat): Content<S>
    requires p in m && i < |m[p]|
  {
    m[p := Drop(m[p], i)]
  }

  /** What is left after the nodes that lead to no entry are pruned. */
  ghost function Shaken<S>(m: Content<S>): Content<S> {
    map q | q in m && (q == [] || Occupied(m, q)) :: m[q]
  }

  predicate Under(p: Path, q: Path) { p <= q && |p| < |q| }

  ghost predicate Stays<S>(m: Content<S>, p: Path, q: Path) { Under(p, q) ==> Occupied(m, q) }

  /** The same, but only nodes strictly below p are pruned. */
  ghost function ShakenBelow<S>(m: Content<S>, p: Path): Content<S> {
    map q | q in m && Stays(m, p, q) :: m[q]
  }

  lemma ShakenBelowRoot<S>(m: Content<S>)
    ensures ShakenBelow(m, []) == Shaken(m)
  {
    assert forall q: Path :: Under([], q) <==> q != [];
  }

  /** Removing an entry of p itself leaves every node below p occupied. */
  lemma NothingBelow<S>(m: Content<S>, p: Path, i: nat)
    requires Pruned(m) && p in m && i < |m[p]|
    ensures ShakenBelow(Cleared(m, p, i), p) == Cleared(m, p, i)
  {
    hide Closed;
    var c := Cleared(m, p, i);
    forall q | q in c && Under(p, q)
      ensures Occupied(c, q)
    {
      var r :| r in m && q <= r && m[r] != [];
      assert r in c && c[r] == m[r];
    }
  }

  /** No entry here and no child. */
  ghost predicate Bare<S>(m: Content<S>, p: Path)
    requires p in m
  {
    m[p] == [] && forall k :: p + [k] !in m
  }

  /** One level up, the child on the path is dropped exactly when nothing is left in it. */
  lemma ShakeOneLevel<S>(m: Content<S>, p: Path, k: string, path: Path, i: nat)
    requires Pruned(m) && p in m && p + [k] in m && path in m && p + [k] <= path && i < |m[path]|
    ensures var c, child := Cleared(m, path, i), p + [k];
            child in ShakenBelow(c, child)
            && ShakenBelow(c, p) == if Bare(ShakenBelow(c, child), child) then ShakenBelow(c, child) - {child}
                                    else ShakenBelow(c, child)
  {
    hide Closed, Occupied;
    var c, child := Cleared(m, path, i), p + [k];
    OccupiedChild(m, c, child);
    assert !Under(child, child) && Stays(c, child, child);
    forall q | q in c
      ensures Stays(c, p, q) <==> Stays(c, child, q) && (q == child ==> Occupied(c, child))
    {
      StaysOneLevel(m, p, k, path, i, q);
    }
  }

  lemma StaysOneLevel<S>(m: Content<S>, p: Path, k: string, path: Path, i: nat, q: Path)
    requires Pruned(m) && path in m && p + [k] <= path && i < |m[path]| && q in m
    ensures var c, child := Cleared(m, path, i), p + [k];
            Stays(c, p, q) <==> Stays(c, child, q) && (q == child ==> Occupied(c, child))
  {
    if Under(p, q) && !(p + [k] <= q) { OtherBranch(m, p, k, path, i, q); }
    assert p + [k] <= q ==> Under(p, q) && (Under(p + [k], q) || q == p + [k]);
  }

  lemma OtherBranch<S>(m: Content<S>, p: Path, k: string, path: Path, i: nat, q: Path)
    requires Pruned(m) && path in m && p + [k] <= path && i < |m[path]|
    requires q in m && Under(p, q) && !(p + [k] <= q)
    ensures Occupied(Cleared(m, path, i), q)
  {
    var r := Occupant(m, q);
    hide Closed, Pruned, Under;
    if r == path {
      PrefixOfBoth(p + [k], q, path);
      assert false;
    }
    assert r in Cleared(m, path, i) && Cleared(m, path, i)[r] == m[r];
  }

  lemma Occupant<S>(m: Content<S>, q: Path) returns (r: Path)
    requires Pruned(m) && q in m && q != []
    ensures r in m && q <= r && m[r] != []
  {
    hide Closed;
    r :| r in m && q <= r && m[r] != [];
  }

  lemma PrefixOfBoth(a: Path, q: Path, r: Path)
    requires a <= r && q <= r && |a| <= |q|
    ensures a <= q
  {
    assert q == r[..|q|];
  }

  lemma OccupiedChild<S>(m: Content<S>, c: Content<S>, child: Path)
    requires Closed(m) && c.Keys == m.Keys && child in c
    ensures Occupied(c, child) <==> !Bare(ShakenBelow(c, child), child)
  {
    var m1 := ShakenBelow(c, child);
    if Occupied(c, child) && c[child] == [] {
      var r :| r in c && child <= r && c[r] != [];
      assert |r| == |child| ==> r == child;
      var k := r[|child|];
      assert r == child + [k] + r[|child| + 1..];
      ClosedPrefix(m, child + [k], r);
      assert Occupied(c, child + [k]);
      assert child + [k] in m1;
    }
    if !Bare(m1, child) && c[child] == [] {
      var k :| child + [k] in m1;
      assert Under(child, child + [k]);
      var r :| r in c && child + [k] <= r && c[r] != [];
      assert child <= r;
    }
  }

  lemma InsertedKeeps<S>(m: Content<S>, p: Path, e: Entry<S>)
    requires Pruned(m)
    ensures Pruned(Inserted(m, p, e))
    ensures forall q :: At(Inserted(m, p, e), q) == if q == p then At(m, p) + [e] else At(m, q)
  {
    var m' := Inserted(m, p, e);
    assert p[..|p|] == p && p[..0] == [];
    forall q | q in m' && q != []
      ensures Parent(q) in m' && Occupied(m', q)
    {
      InsertedNode(m, p, e, q);
    }
  }

  lemma InsertedNode<S>(m: Content<S>, p: Path, e: Entry<S>, q: Path)
    requires Pruned(m) && q in Inserted(m, p, e) && q != []
    ensures Parent(q) in Inserted(m, p, e) && Occupied(Inserted(m, p, e), q)
  {
    var m' := Inserted(m, p, e);
    assert p[..|p|] == p;
    if q in m {
      var r :| r in m && q <= r && m[r] != [];
      assert r in m' && m'[r] != [];
    } else {
      var i :| 0 <= i <= |p| && q == p[..i];
      assert Parent(q) == p[..i - 1];
      assert q <= p && p in m' && m'[p] != [];
    }
  }

  lemma ShakenKeeps<S>(m: Content<S>)
    requires Closed(m)
    ensures Pruned(Shaken(m))
    ensures forall q :: At(Shaken(m), q) == At(m, q)
  {
    var m' := Shaken(m);
    forall q | q in m' && q != []
      ensures Parent(q) in m' && Occupied(m', q)
    {
      var r :| r in m && q <= r && m[r] != [];
      assert Occupied(m, r) && r in m';
      assert Parent(q) <= r;
      assert Occupied(m, Parent(q));
    }
    forall q
      ensures At(m', q) == At(m, q)
    {
      if q in m && m[q] != [] { assert Occupied(m, q); }
    }
  }

  /** A pruned trie is determined by its entries. */
  lemma Canonical<S>(m: Content<S>, n: Content<S>)
    requires Pruned(m) && Pruned(n) && forall q :: At(m, q) == At(n, q)
    ensures m == n
  {
    forall q
      ensures q in m <==> q in n
    {
      if q in m { SamePaths(m, n, q); }
      if q in n { SamePaths(n, m, q); }
    }
    forall q | q in m
      ensures m[q] == n[q]
    {
      assert At(m, q) == At(n, q);
    }
  }

  lemma SamePaths<S>(m: Content<S>, n: Content<S>, q: Path)
    requires Pruned(m) && Pruned(n) && q in m && forall r :: At(m, r) == At(n, r)
    ensures q in n
  {
    if q != [] {
      var r :| r in m && q <= r && m[r] != [];
      assert At(n, r) != [];
      ClosedPrefix(n, q, r);
    }
  }

  lemma {:induction false} ClosedPrefix<S>(n: Content<S>, q: Path, r: Path)
    requires Closed(n) && r in n && q <= r
    ensures q in n
    decreases |r|
  {
    if q != r { ClosedPrefix(n, q, Parent(r)); }
  }

  ghost predicate HasId<S>(m: Content<S>, id: nat) {
    exists p, i :: p in m && 0 <= i < |m[p]| && m[p][i].id == id
  }

  /** Inserting a fresh subscription and removing it gives back exactly the trie before. */
  lemma RemoveUndoesInsert<S>(m: Content<S>, p: Path, e: Entry<S>, q: Path, i: nat)
    requires Pruned(m) && !HasId(m, e.id)
    requires var m1 := Inserted(m, p, e); q in m1 && i < |m1[q]| && m1[q][i].id == e.id
    ensures Shaken(Cleared(Inserted(m, p, e), q, i)) == m
  {
    hide Occupied;
    var m1 := Inserted(m, p, e);
    InsertedKeeps(m, p, e);
    assert At(m1, q) == m1[q];
    assert q == p && i == |At(m, p)|;
    var m2 := Cleared(m1, q, i);
    ShakenKeeps(m2);
    forall r
      ensures At(Shaken(m2), r) == At(m, r)
    {
      assert At(m2, r) == if r == p then Drop(m1[p], i) else At(m1, r);
      assert Drop(At(m, p) + [e], |At(m, p)|) == At(m, p);
    }
    Canonical(Shaken(m2), m);
  }

  // ---------- the recursive match ----------

  function Slots<S>(entries: seq<Entry<S>>, tag: nat): seq<S> {
    if entries == [] then []
    else
      var e := entries[|entries| - 1];
      Slots(entries[..|entries| - 1], tag) + (if e.tag == tag then [e.slot] else [])
  }

  /** The slots collected at the node of path p for the levels still to match. */
  function Match<S>(m: Content<S>, p: Path, levels: seq<string>, tag: nat): seq<S>
    decreases |levels|
  {
    Slots(At(m, p + ["#"]), tag) +
    if levels == [] then Slots(At(m, p), tag)
    else Match(m, p + [levels[0]], levels[1..], tag) + Match(m, p + ["*"], levels[1..], tag)
  }

  /** Collecting into found, piece by piece, collects the match. */
  lemma MatchPieces<S>(m: Content<S>, p: Path, levels: seq<string>, tag: nat, found: seq<S>, hash: seq<S>, exact: seq<S>, star: seq<S>)
    requires levels != []
    requires hash == found + Slots(At(m, p + ["#"]), tag)
    requires exact == hash + Match(m, p + [levels[0]], levels[1..], tag)
    requires star == exact + Match(m, p + ["*"], levels[1..], tag)
    ensures star == found + Match(m, p, levels, tag)
  {
    var a, b, c := Slots(At(m, p + ["#"]), tag), Match(m, p + [levels[0]], levels[1..], tag), Match(m, p + ["*"], levels[1..], tag);
    assert Match(m, p, levels, tag) == a + (b + c) by { hide Slots, At; }
    hide Match, Slots, At;
    Associate(found, a, b, c);
  }

  lemma Associate<S>(w: seq<S>, a: seq<S>, b: seq<S>, c: seq<S>)
    ensures w + a + b + c == w + (a + (b + c))
  {}

  lemma MatchEnd<S>(m: Content<S>, p: Path, tag: nat, found: seq<S>, hash: seq<S>, all: seq<S>)
    requires hash == found + Slots(At(m, p + ["#"]), tag)
    requires all == hash + Slots(At(m, p), tag)
    ensures all == found + Match(m, p, [], tag)
  {}

  lemma {:induction false} NoNodeNoMatch<S>(m: Content<S>, p: Path, levels: seq<string>, tag: nat)
    requires Closed(m) && p !in m
    ensures Match(m, p, levels, tag) == []
    decreases |levels|
  {
    NoChild(m, p, "#");
    if levels != [] {
      NoChild(m, p, levels[0]);
      NoChild(m, p, "*");
      NoNodeNoMatch(m, p + [levels[0]], levels[1..], tag);
      NoNodeNoMatch(m, p + ["*"], levels[1..], tag);
    }
  }

  lemma NoChild<S>(m: Content<S>, p: Path, k: string)
    requires Closed(m) && p !in m
    ensures p + [k] !in m
  {
    assert Parent(p + [k]) == p;
  }

  // ---------- the linear list ----------

  /** A live subscription: the levels of its pattern, and its entry. */
  datatype Item<S> = Item(path: Path, entry: Entry<S>)

  /** The entries of the list with exactly this path, in order. */
  function Here<S>(live: seq<Item<S>>, p: Path): seq<Entry<S>> {
    if live == [] then []
    else
      var x := live[|live| - 1];
      Here(live[..|live| - 1], p) + (if x.path == p then [x.entry] else [])
  }

  /** The trie stores the list: each node has the entries of its path, in order. */
  ghost predicate Stores<S>(m: Content<S>, live: seq<Item<S>>) {
    Pruned(m) && forall p :: At(m, p) == Here(live, p)
  }

  /** The linear scan the trie replaces. */
  function Scan<S>(live: seq<Item<S>>, levels: seq<string>, tag: nat): seq<S> {
    if live == [] then []
    else
      var x := live[|live| - 1];
      Scan(live[..|live| - 1], levels, tag)
      + (if x.entry.tag == tag && LevelMatch(x.path, levels) then [x.entry.slot] else [])
  }

  /** How often the recursive match visits the path r below a node, for these levels. */
  function Visits(levels: seq<string>, r: Path): nat
    decreases |levels|
  {
    (if r == ["#"] then 1 else 0) +
    if levels == [] then (if r == [] then 1 else 0)
    else if r == [] then 0
    else
      (if r[0] == levels[0] then Visits(levels[1..], r[1..]) else 0)
      + (if r[0] == "*" then Visits(levels[1..], r[1..]) else 0)
  }

  /** The slots of the list, each as often as the match visits the node of its path. */
  function Walked<S>(live: seq<Item<S>>, levels: seq<string>, tag: nat): seq<S> {
    if live == [] then []
    else
      var x := live[|live| - 1];
      Walked(live[..|live| - 1], levels, tag)
      + Copies(if x.entry.tag == tag then Visits(levels, x.path) else 0, x.entry.slot)
  }

  /** No level of the topic is a star, and the last one is not a hash. */
  predicate Unambiguous(levels: seq<string>) {
    "*" !in levels && (levels != [] ==> levels[|levels| - 1] != "#")
  }

  lemma {:induction false} VisitsOnce(levels: seq<string>, r: Path)
    requires Unambiguous(levels)
    ensures Visits(levels, r) == if LevelMatch(r, levels) then 1 else 0
    decreases |levels|
  {
    if levels != [] && r != [] {
      assert levels[0] in levels;
      assert forall l :: l in levels[1..] ==> l in levels;
      VisitsOnce(levels[1..], r[1..]);
    }
  }

  function Stars(n: nat): (p: Path)
    ensures |p| == n && forall i :: 0 <= i < n ==> p[i] == "*"
  {
    seq(n, i => "*")
  }

  lemma {:induction false} StarsMatch(levels: seq<string>)
    ensures LevelMatch(Stars(|levels|), levels)
    ensures Visits(levels, Stars(|levels|)) >= if "*" in levels then 2 else 1
    decreases |levels|
  {
    if levels != [] {
      assert Stars(|levels|)[1..] == Stars(|levels| - 1);
      StarsMatch(levels[1..]);
      assert "*" in levels ==> levels[0] == "*" || "*" in levels[1..];
    }
  }

  lemma {:induction false} HashVisitedTwice(levels: seq<string>)
    requires levels != [] && levels[|levels| - 1] == "#"
    ensures LevelMatch(Stars(|levels| - 1) + ["#"], levels)
    ensures Visits(levels, Stars(|levels| - 1) + ["#"]) >= 2
    decreases |levels|
  {
    var r := Stars(|levels| - 1) + ["#"];
    if |levels| == 1 {
      assert r == ["#"] && levels == ["#"] && r[1..] == [] && levels[1..] == [];
      assert Visits([], []) == 1;
    } else {
      assert r[1..] == Stars(|levels| - 2) + ["#"];
      HashVisitedTwice(levels[1..]);
    }
  }

  /** The trie visits each matching well-formed pattern once, for every list of subscriptions, if
      and only if the topic has no star level and does not end in a hash level. */
  lemma VisitsOnceIff(levels: seq<string>)
    ensures Unambiguous(levels) <==>
            forall r :: WellFormedLevels(r) ==> Visits(levels, r) == if LevelMatch(r, levels) then 1 else 0
  {
    if Unambiguous(levels) {
      forall r | WellFormedLevels(r)
        ensures Visits(levels, r) == if LevelMatch(r, levels) then 1 else 0
      {
        VisitsOnce(levels, r);
      }
    } else if "*" in levels {
      StarsMatch(levels);
      assert WellFormedLevels(Stars(|levels|));
    } else {
      HashVisitedTwice(levels);
      assert WellFormedLevels(Stars(|levels| - 1) + ["#"]);
    }
  }

  // ---------- match against scan ----------

  lemma SlotsPush<S>(xs: seq<Entry<S>>, e: Entry<S>, tag: nat, s: S)
    ensures Count(Slots(xs + [e], tag), s) == Count(Slots(xs, tag), s) + (if e.tag == tag && e.slot == s then 1 else 0)
  {
    assert (xs + [e])[..|xs|] == xs;
    if e.tag == tag { CountPush(Slots(xs, tag), e.slot, s); }
    assert Slots(xs, tag) + [] == Slots(xs, tag);
  }

  /** The part of r below p. */
  function Below(p: Path, r: Path): Path
    requires p <= r
  {
    r[|p|..]
  }

  /** How often the match from node p visits the node of path r. */
  function VisitsFrom(p: Path, levels: seq<string>, r: Path): nat {
    if p <= r then Visits(levels, Below(p, r)) else 0
  }

  lemma VisitsUnfold(p: Path, levels: seq<string>, r: Path)
    ensures VisitsFrom(p, levels, r) ==
            (if r == p + ["#"] then 1 else 0) +
            if levels == [] then (if r == p then 1 else 0)
            else VisitsFrom(p + [levels[0]], levels[1..], r) + VisitsFrom(p + ["*"], levels[1..], r)
  {
    if p <= r {
      var b := Below(p, r);
      assert r == p + b;
      assert b == ["#"] <==> r == p + ["#"];
      if b != [] && levels != [] {
        Deeper(p, levels[0], r);
        Deeper(p, "*", r);
      } else {
        assert r == p <==> b == [];
      }
    } else if levels != [] {
      Deeper(p, levels[0], r);
      Deeper(p, "*", r);
    }
  }

  lemma Deeper(p: Path, k: string, r: Path)
    ensures p + [k] <= r <==> p <= r && |r| > |p| && Below(p, r)[0] == k
    ensures p + [k] <= r ==> Below(p + [k], r) == Below(p, r)[1..]
  {
    if p + [k] <= r {
      assert r[..|p|] == p && r[|p|] == (p + [k])[|p|];
    }
    if p <= r && |r| > |p| && Below(p, r)[0] == k {
      assert r == p + [k] + r[|p| + 1..];
    }
  }

  /** One more stored entry is collected as often as its node is visited. */
  lemma {:induction false} MatchOneMore<S>(m: Content<S>, n: Content<S>, x: Item<S>, p: Path, levels: seq<string>, tag: nat, s: S)
    requires forall q :: At(n, q) == At(m, q) + (if q == x.path then [x.entry] else [])
    ensures Count(Match(n, p, levels, tag), s) == Count(Match(m, p, levels, tag), s)
            + (if x.entry.tag == tag && x.entry.slot == s then VisitsFrom(p, levels, x.path) else 0)
    decreases |levels|
  {
    VisitsUnfold(p, levels, x.path);
    NodeOneMore(m, n, x, p + ["#"], tag, s);
    CountUnfold(m, p, levels, tag, s);
    CountUnfold(n, p, levels, tag, s);
    if levels == [] {
      NodeOneMore(m, n, x, p, tag, s);
    } else {
      MatchOneMore(m, n, x, p + [levels[0]], levels[1..], tag, s);
      MatchOneMore(m, n, x, p + ["*"], levels[1..], tag, s);
    }
  }

  lemma CountUnfold<S>(m: Content<S>, p: Path, levels: seq<string>, tag: nat, s: S)
    ensures Count(Match(m, p, levels, tag), s) == Count(Slots(At(m, p + ["#"]), tag), s) +
            if levels == [] then Count(Slots(At(m, p), tag), s)
            else Count(Match(m, p + [levels[0]], levels[1..], tag), s) + Count(Match(m, p + ["*"], levels[1..], tag), s)
  {
    if levels == [] {
      CountConcat(Slots(At(m, p + ["#"]), tag), Slots(At(m, p), tag), s);
    } else {
      var a, b := Match(m, p + [levels[0]], levels[1..], tag), Match(m, p + ["*"], levels[1..], tag);
      CountConcat(Slots(At(m, p + ["#"]), tag), a + b, s);
      CountConcat(a, b, s);
    }
  }

  lemma NodeOneMore<S>(m: Content<S>, n: Content<S>, x: Item<S>, q: Path, tag: nat, s: S)
    requires At(n, q) == At(m, q) + (if q == x.path then [x.entry] else [])
    ensures Count(Slots(At(n, q), tag), s) == Count(Slots(At(m, q), tag), s)
            + (if q == x.path && x.entry.tag == tag && x.entry.slot == s then 1 else 0)
  {
    if q == x.path { SlotsPush(At(m, q), x.entry, tag, s); } else { assert At(n, q) == At(m, q); }
  }

  /** A trie for the list without its last item, used only to compare. */
  ghost function Table<S>(live: seq<Item<S>>): (m: Content<S>)
    ensures forall p :: At(m, p) == Here(live, p)
  {
    if live == [] then map[]
    else
      var x, m := live[|live| - 1], Table(live[..|live| - 1]);
      m[x.path := At(m, x.path) + [x.entry]]
  }

  lemma {:induction false} MatchSame<S>(m: Content<S>, n: Content<S>, p: Path, levels: seq<string>, tag: nat)
    requires forall q :: At(m, q) == At(n, q)
    ensures Match(m, p, levels, tag) == Match(n, p, levels, tag)
    decreases |levels|
  {
    if levels != [] {
      MatchSame(m, n, p + [levels[0]], levels[1..], tag);
      MatchSame(m, n, p + ["*"], levels[1..], tag);
    }
  }

  lemma {:induction false} TableWalk<S>(live: seq<Item<S>>, levels: seq<string>, tag: nat, s: S)
    ensures Count(Match(Table(live), [], levels, tag), s) == Count(Walked(live, levels, tag), s)
  {
    hide Match, Walked, Table, Count;
    if live == [] {
      NothingStored<S>(levels, tag, s);
    } else {
      var before, x := live[..|live| - 1], live[|live| - 1];
      TableWalk(before, levels, tag, s);
      TableStep(before, x, levels, tag, s);
      assert live == before + [x];
    }
  }

  lemma NothingStored<S>(levels: seq<string>, tag: nat, s: S)
    ensures Count(Match(Table<S>([]), [], levels, tag), s) == Count(Walked<S>([], levels, tag), s)
  {
    EmptyMatch<S>(Table([]), [], levels, tag);
  }

  lemma TableStep<S>(live: seq<Item<S>>, x: Item<S>, levels: seq<string>, tag: nat, s: S)
    requires Count(Match(Table(live), [], levels, tag), s) == Count(Walked(live, levels, tag), s)
    ensures Count(Match(Table(live + [x]), [], levels, tag), s) == Count(Walked(live + [x], levels, tag), s)
  {
    hide Match, Walked, Visits, Table, Count;
    HerePush(live, x);
    WalkedPush(live, x, levels, tag, s);
    MatchOneMore(Table(live), Table(live + [x]), x, [], levels, tag, s);
    assert Below([], x.path) == x.path;
  }

  lemma WalkedPush<S>(live: seq<Item<S>>, x: Item<S>, levels: seq<string>, tag: nat, s: S)
    ensures Count(Walked(live + [x], levels, tag), s) == Count(Walked(live, levels, tag), s)
            + (if x.entry.tag == tag && x.entry.slot == s then Visits(levels, x.path) else 0)
  {
    hide Visits;
    assert (live + [x])[..|live|] == live;
    var n := if x.entry.tag == tag then Visits(levels, x.path) else 0;
    CopiesCount(n, x.entry.slot, s);
    CountConcat(Walked(live, levels, tag), Copies(n, x.entry.slot), s);
  }

  /** On an unambiguous topic that is the linear scan. */
  lemma {:induction false} WalkedIsScan<S>(live: seq<Item<S>>, levels: seq<string>, tag: nat)
    requires Unambiguous(levels)
    ensures Walked(live, levels, tag) == Scan(live, levels, tag)
  {
    hide Visits, LevelMatch;
    if live != [] {
      var x := live[|live| - 1];
      WalkedIsScan(live[..|live| - 1], levels, tag);
      VisitsOnce(levels, x.path);
      assert Copies(1, x.entry.slot) == [x.entry.slot] && Copies(0, x.entry.slot) == [];
    }
  }

  lemma {:induction false} EmptyMatch<S>(m: Content<S>, p: Path, levels: seq<string>, tag: nat)
    requires forall q :: At(m, q) == []
    ensures Match(m, p, levels, tag) == []
    decreases |levels|
  {
    if levels != [] {
      EmptyMatch(m, p + [levels[0]], levels[1..], tag);
      EmptyMatch(m, p + ["*"], levels[1..], tag);
    }
  }

  /** On every topic the trie returns each slot as often as its patterns are visited. */
  lemma MatchIsWalk<S>(m: Content<S>, live: seq<Item<S>>, levels: seq<string>, tag: nat, s: S)
    requires Stores(m, live)
    ensures Count(Match(m, [], levels, tag), s) == Count(Walked(live, levels, tag), s)
  {
    MatchSame(m, Table(live), [], levels, tag);
    TableWalk(live, levels, tag, s);
  }

  /** The trie answers exactly as the linear scan: each slot as often. */
  lemma MatchIsScan<S>(m: Content<S>, live: seq<Item<S>>, levels: seq<string>, tag: nat, s: S)
    requires Stores(m, live) && Unambiguous(levels)
    ensures Count(Match(m, [], levels, tag), s) == Count(Scan(live, levels, tag), s)
  {
    MatchIsWalk(m, live, levels, tag, s);
    WalkedIsScan(live, levels, tag);
  }

  // ---------- the list under insert and remove ----------

  lemma StoresInsert<S>(m: Content<S>, live: seq<Item<S>>, x: Item<S>)
    requires Stores(m, live)
    ensures Stores(Inserted(m, x.path, x.entry), live + [x])
  {
    InsertedKeeps(m, x.path, x.entry);
    assert (live + [x])[..|live|] == live;
  }

  lemma DropPush<T>(xs: seq<T>, x: T, k: nat)
    requires k < |xs|
    ensures Drop(xs + [x], k) == Drop(xs, k) + [x]
  {}

  lemma HerePush<S>(live: seq<Item<S>>, x: Item<S>)
    ensures forall p :: Here(live + [x], p) == if x.path == p then Here(live, p) + [x.entry] else Here(live, p)
  {
    assert (live + [x])[..|live|] == live;
  }

  lemma {:induction false} HerePlace<S>(live: seq<Item<S>>, p: Path, i: nat) returns (k: nat)
    requires i < |Here(live, p)|
    ensures k < |live| && live[k] == Item(p, Here(live, p)[i])
    ensures Here(Drop(live, k), p) == Drop(Here(live, p), i)
    ensures forall q :: q != p ==> Here(Drop(live, k), q) == Here(live, q)
  {
    var before, x := live[..|live| - 1], live[|live| - 1];
    if i == |Here(before, p)| {
      k := |live| - 1;
      assert Drop(live, k) == before;
    } else {
      k := HerePlace(before, p, i);
      DropPush(before, x, k);
      assert live == before + [x];
      HerePush(Drop(before, k), x);
      if x.path == p { DropPush(Here(before, p), x.entry, i); }
    }
  }

  /** Removing the entry the trie finds for an id removes one item with that id from the list. */
  lemma StoresRemove<S>(m: Content<S>, live: seq<Item<S>>, p: Path, i: nat) returns (k: nat)
    requires Stores(m, live) && p in m && i < |m[p]|
    ensures k < |live| && live[k] == Item(p, m[p][i])
    ensures Stores(Shaken(Cleared(m, p, i)), Drop(live, k))
  {
    assert m[p] == At(m, p) == Here(live, p);
    k := HerePlace(live, p, i);
    ShakenKeeps(Cleared(m, p, i));
  }
}
