/** The subscribers of one topic, or of one wildcard pattern: a copy-on-write list. */
module TopicSlots {
  import opened Seqs

  class TopicSlot {
    const tag: nat
    var subscribers: seq<nat>

    constructor (tag: nat)
      ensures this.tag == tag && subscribers == []
    {
      this.tag := tag;
      subscribers := [];
    }

    method AddSubscriber(id: nat)
      modifies this
      ensures subscribers == old(subscribers) + [id]
    {
      var newList := subscribers;
      newList := newList + [id];
      subscribers := newList;
    }

    /** Rebuilds the list without id; the others keep their order. */
    method RemoveSubscriber(id: nat) returns (found: bool)
      modifies this
      ensures subscribers == Filter(old(subscribers), Except(id))
      ensures found <==> id in old(subscribers)
    {
      var list := subscribers;
      var newList := [];
      found := false;
      for i := 0 to |list|
        invariant subscribers == list && newList == Filter(list[..i], Except(id))
        invariant found <==> id in list[..i]
      {
        assert list[..i + 1] == list[..i] + [list[i]];
        FilterPush(list[..i], list[i], Except(id));
        if list[i] == id {
          found := true;
        } else {
          newList := newList + [list[i]];
        }
      }
      assert list[..|list|] == list;
      if found {
        subscribers := newList;
      } else {
        NothingRemoved(list, id);
      }
    }

    /** The handlers called, in order, from the list loaded at the start. */
    method Dispatch() returns (calls: seq<nat>)
      ensures calls == subscribers
    {
      var subs := subscribers;
      calls := [];
      for i := 0 to |subs|
        invariant calls == subs[..i]
      {
        calls := calls + [subs[i]];
      }
    }
  }

  lemma {:induction false} NothingRemoved(list: seq<nat>, id: nat)
    requires id !in list
    ensures Filter(list, Except(id)) == list
  {
    if list != [] {
      assert list == list[..|list| - 1] + [list[|list| - 1]];
      NothingRemoved(list[..|list| - 1], id);
    }
  }

  /** After a removal the list never names the id again, whoever loads it. */
  lemma RemovedIsGone(list: seq<nat>, id: nat, other: nat)
    ensures id !in Filter(list, Except(id))
    ensures other != id ==> (other in Filter(list, Except(id)) <==> other in list)
  {
    FilterMember(list, Except(id), id);
    FilterMember(list, Except(id), other);
  }
}
