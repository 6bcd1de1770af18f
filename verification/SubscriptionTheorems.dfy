/** What subscribers may rely on, in every interleaving. */
module SubscriptionTheorems {
  import opened Seqs
  import opened SubscriptionProtocol
  import opened SubscriptionProofs

  // ---------- slots ----------

  ghost predicate Extends(s: State, z: State) {
    && (forall tid :: tid in s.slots ==> tid in z.slots && z.slots[tid] == s.slots[tid])
    && ArenaGrows(s.arena, z.arena)
    && s.past.gone <= z.past.gone
  }

  lemma StepExtends(s: State, a: Action)
    requires PcsOk(s) && Enabled(s, a)
    ensures Extends(s, Apply(s, a))
  {
    SlotsStep(s, a);
    ArenaStep(s, a);
    hide ArenaNext, TrieNext, InfoNext, Next;
  }

  lemma ExtendsCompose(s: State, s1: State, z: State)
    requires Extends(s, s1) && Extends(s1, z)
    ensures Extends(s, z)
  {
    forall k | 0 <= k < |s.arena|
      ensures SlotGrows(s.arena[k], z.arena[k])
    {
      assert SlotGrows(s.arena[k], s1.arena[k]) && SlotGrows(s1.arena[k], z.arena[k]);
    }
  }

  lemma {:induction false} RunExtends(s: State, acts: seq<Action>)
    requires Inv(s) && Legal(s, acts)
    ensures Extends(s, Exec(s, acts))
    decreases |acts|
  {
    hide Apply, Enabled, PcOk, Extends;
    if acts != [] {
      StepInv(s, acts[0]);
      StepExtends(s, acts[0]);
      RunExtends(Apply(s, acts[0]), acts[1..]);
      ExtendsCompose(s, Apply(s, acts[0]), Exec(s, acts));
    } else {
      Itself(s);
    }
  }

  lemma Itself(s: State)
    ensures Extends(s, s)
  {}

  /** A topic that has a slot keeps that slot, with its type, in every later slot map, and shares
      it with no other topic. */
  lemma OneSlotPerTopic(s: State, first: seq<Action>, later: seq<Action>, tid: nat, other: nat)
    requires Init(s) && Legal(s, first) && Legal(Exec(s, first), later) && tid in Exec(s, first).slots
    ensures var y, z := Exec(s, first), Exec(Exec(s, first), later);
            && tid in z.slots && z.slots[tid] == y.slots[tid] < |y.arena| <= |z.arena|
            && z.arena[z.slots[tid]].tag == y.arena[y.slots[tid]].tag
            && (other in z.slots && z.slots[other] == z.slots[tid] ==> other == tid)
  {
    hide PcOk, ArenaOk, TrieOk, InfoOk, GoneOk, Exclusive, Owners;
    InitInv(s);
    RunInv(s, first);
    RunInv(Exec(s, first), later);
    RunExtends(Exec(s, first), later);
    var y, z := Exec(s, first), Exec(Exec(s, first), later);
    assert SlotGrows(y.arena[y.slots[tid]], z.arena[y.slots[tid]]);
  }

  // ---------- nothing is lost ----------

  /** A dispatch that loads now finds the subscription. */
  ghost predicate Reachable(s: State, id: nat, target: Target) {
    match target
    case Exact(tid) => tid in s.slots && id in ListOf(s, s.slots[tid])
    case Wild(_) => exists j :: 0 <= j < |s.trie| && s.trie[j].id == id && id in ListOf(s, s.trie[j].slot)
  }

  lemma LiveIsListed(s: State, id: nat, k: nat)
    requires ArenaOk(s) && Live(s, id, k)
    ensures id in ListOf(s, k)
  {
    var x := s.arena[k];
    assert SlotOk(x, s.issued);
    FilterMember(x.added, NotIn(x.removed), id);
  }

  /** Whatever other calls ran meanwhile, every subscription whose subscribe has returned and whose
      unsubscribe has not begun is listed where dispatch looks; and each list holds exactly the
      ids added to it and not removed, in the order in which they were added. */
  lemma NoSubscriptionLost(s: State, acts: seq<Action>)
    requires Init(s) && Legal(s, acts)
    ensures var z := Exec(s, acts);
            && (forall id :: id in z.past.subscribed && id !in z.past.leaving ==> id in z.info)
            && (forall id :: id in z.info ==> Reachable(z, id, z.info[id]))
            && (forall k :: 0 <= k < |z.arena| ==> z.arena[k].subs == Filter(z.arena[k].added, NotIn(z.arena[k].removed)))
  {
    hide Apply, Enabled, PcOk, MapOk, TrieOk, GoneOk, Exclusive, Owners, ListOf, Live;
    InitInv(s);
    RunInv(s, acts);
    var z := Exec(s, acts);
    forall id | id in z.info
      ensures Reachable(z, id, z.info[id])
    {
      HomeIsReachable(z, id, z.info[id]);
    }
    forall k | 0 <= k < |z.arena|
      ensures z.arena[k].subs == Filter(z.arena[k].added, NotIn(z.arena[k].removed))
    {
      assert SlotOk(z.arena[k], z.issued);
    }
  }

  lemma HomeIsReachable(s: State, id: nat, target: Target)
    requires ArenaOk(s) && Home(s, id, target)
    ensures Reachable(s, id, target)
  {
    hide ListOf, Live, ArenaOk;
    match target
    case Exact(tid) => LiveIsListed(s, id, s.slots[tid]);
    case Wild(_) =>
      var j :| 0 <= j < |s.trie| && s.trie[j].id == id && Live(s, id, s.trie[j].slot);
      LiveIsListed(s, id, s.trie[j].slot);
  }

  // ---------- unsubscribe ----------

  lemma DeadIsUnlisted(s: State, id: nat, k: nat)
    requires ArenaOk(s) && Dead(s, id)
    ensures id !in ListOf(s, k)
  {
    if k < |s.arena| {
      var x := s.arena[k];
      assert SlotOk(x, s.issued);
      FilterMember(x.added, NotIn(x.removed), id);
    }
  }

  /** A dispatch that has loaded a list with id in it, and not called it yet. */
  predicate MayCall(pc: Pc, id: nat) { pc.DRun? && id in pc.list }

  /** How often thread i has called id. */
  function CallsOf(calls: seq<Call>, i: nat, id: nat): nat {
    if calls == [] then 0
    else
      var c := calls[|calls| - 1];
      CallsOf(calls[..|calls| - 1], i, id) + (if c.thread == i && c.id == id then 1 else 0)
  }

  lemma UnlistedStep(s: State, a: Action, id: nat, i: nat)
    requires Enabled(s, a) && i < |s.pcs| && !MayCall(s.pcs[i], id) && forall k :: id !in ListOf(s, k)
    ensures var z := Apply(s, a); !MayCall(z.pcs[i], id) && CallsOf(z.calls, i, id) == CallsOf(s.calls, i, id)
  {
    hide ArenaNext, TrieNext, InfoNext, ListOf, SlotsFree, TrieFree, SlotFree, Matched;
    if a.Step? && s.pcs[a.i].DRun? && s.pcs[a.i].list != [] {
      var pc := s.pcs[a.i];
      assert (s.calls + [Call(a.i, pc.list[0], pc.msg)])[..|s.calls|] == s.calls;
      assert forall x :: x in pc.list[1..] ==> x in pc.list;
    }
  }

  /** After unsubscribe has returned, no dispatch calls the handler, ever, except one that had
      loaded its list before; walking an old snapshot of the trie makes no difference. */
  lemma {:induction false} NeverCalledAgain(s: State, acts: seq<Action>, id: nat, i: nat)
    requires Inv(s) && Legal(s, acts) && id in s.past.gone && i < |s.pcs| && !MayCall(s.pcs[i], id)
    ensures var z := Exec(s, acts);
            i < |z.pcs| && !MayCall(z.pcs[i], id) && CallsOf(z.calls, i, id) == CallsOf(s.calls, i, id)
    decreases |acts|
  {
    hide Apply, Enabled, PcOk, Dead, ArenaOk, MayCall, CallsOf, ListOf, MapOk, TrieOk, InfoOk, Owners, Exclusive;
    if acts != [] {
      var s1 := Apply(s, acts[0]);
      forall k
        ensures id !in ListOf(s, k)
      {
        DeadIsUnlisted(s, id, k);
      }
      UnlistedStep(s, acts[0], id, i);
      StepInv(s, acts[0]);
      StepExtends(s, acts[0]);
      SamePcs(s, acts[0]);
      NeverCalledAgain(s1, acts[1..], id, i);
    }
  }

  // ---------- order ----------

  ghost predicate Before(xs: seq<nat>, a: nat, b: nat) {
    exists i, j :: 0 <= i < j < |xs| && xs[i] == a && xs[j] == b
  }

  lemma {:induction false} FilterKeepsOrder(xs: seq<nat>, keep: nat -> bool, a: nat, b: nat)
    ensures Before(Filter(xs, keep), a, b) ==> Before(xs, a, b)
    ensures Before(xs, a, b) && keep(a) && keep(b) ==> Before(Filter(xs, keep), a, b)
  {
    if xs != [] {
      var ys, y := xs[..|xs| - 1], xs[|xs| - 1];
      FilterKeepsOrder(ys, keep, a, b);
      FilterMember(ys, keep, a);
      BeforePush(ys, y, a, b);
      BeforePush(Filter(ys, keep), y, a, b);
      assert xs == ys + [y];
      assert Filter(ys, keep) + [] == Filter(ys, keep);
    }
  }

  lemma BeforePush(xs: seq<nat>, y: nat, a: nat, b: nat)
    ensures Before(xs + [y], a, b) <==> Before(xs, a, b) || (a in xs && y == b)
  {
    if Before(xs, a, b) {
      var i, j :| 0 <= i < j < |xs| && xs[i] == a && xs[j] == b;
      assert (xs + [y])[i] == a && (xs + [y])[j] == b;
    }
    if a in xs && y == b {
      var i :| 0 <= i < |xs| && xs[i] == a;
      assert (xs + [y])[i] == a && (xs + [y])[|xs|] == b;
    }
  }

  /** Two subscribers of a slot are called in the same order as long as both are subscribed. */
  lemma OrderKept(s: State, acts: seq<Action>, k: nat, a: nat, b: nat)
    requires Inv(s) && Legal(s, acts) && k < |s.arena| && Before(s.arena[k].subs, a, b)
    requires a in ListOf(Exec(s, acts), k) && b in ListOf(Exec(s, acts), k)
    ensures Before(ListOf(Exec(s, acts), k), a, b)
  {
    hide Apply, Enabled, PcOk, MapOk, TrieOk, GoneOk, InfoOk, Exclusive, Owners;
    RunInv(s, acts);
    RunExtends(s, acts);
    var z := Exec(s, acts);
    var x, y := s.arena[k], z.arena[k];
    assert SlotOk(x, s.issued) && SlotOk(y, z.issued) && SlotGrows(x, y);
    FilterKeepsOrder(x.added, NotIn(x.removed), a, b);
    BeforePrefix(x.added, y.added, a, b);
    FilterMember(y.added, NotIn(y.removed), a);
    FilterMember(y.added, NotIn(y.removed), b);
    FilterKeepsOrder(y.added, NotIn(y.removed), a, b);
  }

  lemma BeforePrefix(xs: seq<nat>, ys: seq<nat>, a: nat, b: nat)
    requires xs <= ys && Before(xs, a, b)
    ensures Before(ys, a, b)
  {
    var i, j :| 0 <= i < j < |xs| && xs[i] == a && xs[j] == b;
    assert ys[i] == a && ys[j] == b;
  }
}
