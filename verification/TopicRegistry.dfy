/** Topic strings and their ids: the registry as one thread sees it. */
module TopicRegistries {

  /** TopicId is a 32-bit counter. */
  const WORD32: nat := 0x1_0000_0000

  /** Id of the i-th topic registered. */
  function IdOf(i: nat): (id: nat)
    ensures id < WORD32
    ensures i + 1 < WORD32 ==> id == i + 1
  {
    (i + 1) % WORD32
  }

  ghost predicate Distinct(order: seq<string>) {
    forall i, j :: 0 <= i < j < |order| ==> order[i] != order[j]
  }

  /** The ids given to the registered topics are nonzero and all different. */
  ghost predicate Sound(order: seq<string>) {
    && (forall i :: 0 <= i < |order| ==> IdOf(i) != 0)
    && (forall i, j :: 0 <= i < j < |order| ==> IdOf(i) != IdOf(j))
  }

  /** The counter gives each topic its own valid id exactly as long as it has not wrapped. */
  lemma SoundIff(order: seq<string>)
    ensures Sound(order) <==> |order| < WORD32
  {
    if |order| >= WORD32 {
      assert IdOf(WORD32 - 1) == 0;
    } else {
      forall i | 0 <= i < |order|
        ensures IdOf(i) == i + 1
      {}
    }
  }

  ghost predicate Listed(order: seq<string>, ids: map<string, nat>) {
    && Distinct(order)
    && (forall t :: t in ids <==> t in order)
    && (forall i :: 0 <= i < |order| ==> ids[order[i]] == IdOf(i))
  }

  /** An id names the first topic that got it; that is one of the first WORD32. */
  ghost predicate Named(order: seq<string>, names: map<nat, string>) {
    && (forall i :: 0 <= i < |order| && i < WORD32 ==> IdOf(i) in names && names[IdOf(i)] == order[i])
    && (forall id :: id in names ==> exists i :: 0 <= i < |order| && i < WORD32 && IdOf(i) == id)
  }

  lemma OrderIsIds(order: seq<string>, ids: map<string, nat>, topic: string)
    requires Listed(order, ids)
    ensures topic in order <==> topic in ids
  {}

  lemma ListOneMore(order: seq<string>, ids: map<string, nat>, topic: string)
    requires Listed(order, ids) && topic !in order
    ensures Listed(order + [topic], ids[topic := IdOf(|order|)])
  {
    var more := order + [topic];
    assert more[|order|] == topic;
    assert forall t :: t in order ==> t in more;
  }

  lemma NameOneMore(order: seq<string>, names: map<nat, string>, topic: string)
    requires Named(order, names)
    ensures var id := IdOf(|order|); Named(order + [topic], if id in names then names else names[id := topic])
  {
    var more, id := order + [topic], IdOf(|order|);
    NameFree(|order|);
    assert more[|order|] == topic;
    assert forall i :: 0 <= i < |order| ==> more[i] == order[i];
  }

  class TopicRegistry {
    var ids: map<string, nat>
    var names: map<nat, string>
    var nextId: nat
    /** The topics, in the order in which they were registered. */
    ghost var order: seq<string>

    ghost predicate Valid()
      reads this
    {
      Listed(order, ids) && Named(order, names) && nextId == IdOf(|order|)
    }

    constructor ()
      ensures Valid() && order == []
    {
      ids, names, nextId, order := map[], map[], 1, [];
    }

    /** A known topic keeps its id; a new one gets the next. emplace leaves an id already named alone. */
    method Resolve(topic: string) returns (id: nat)
      requires Valid()
      modifies this
      ensures Valid()
      ensures order == if topic in old(order) then old(order) else old(order) + [topic]
      ensures exists i :: 0 <= i < |order| && order[i] == topic && id == IdOf(i)
      ensures ids == if topic in old(ids) then old(ids) else old(ids)[topic := id]
      ensures topic in ids && ids[topic] == id
    {
      hide Named, Distinct;
      if topic in ids {
        id := ids[topic];
      } else {
        id := nextId;
        nextId := (nextId + 1) % WORD32;
        ids := ids[topic := id];
        if id !in names { names := names[id := topic]; }
        ListOneMore(order, old(ids), topic);
        NameOneMore(order, old(names), topic);
        NameFree(|order|);
        order := order + [topic];
        assert order[|order| - 1] == topic;
      }
    }

    /** The empty string stands for an unknown id. */
    method ToString(id: nat) returns (topic: string)
      requires Valid()
      ensures (exists i :: 0 <= i < |order| && i < WORD32 && IdOf(i) == id && order[i] == topic)
              || (topic == "" && forall i :: 0 <= i < |order| && i < WORD32 ==> IdOf(i) != id)
    {
      topic := if id in names then names[id] else "";
    }

    /** Resolving a topic and looking its id up gives the topic back, as long as the counter has
        not wrapped. */
    method RoundTrip(topic: string) returns (id: nat, back: string)
      requires Valid() && |order| + 1 < WORD32
      modifies this
      ensures Valid() && id != 0 && back == topic
    {
      id := Resolve(topic);
      back := ToString(id);
    }
  }

  /** A counter that has not wrapped gives an id that no topic has. */
  lemma NameFree(n: nat)
    ensures n < WORD32 ==> forall i: nat :: i < n ==> IdOf(i) != IdOf(n)
    ensures IdOf(n + 1) == (IdOf(n) + 1) % WORD32
    ensures n >= WORD32 ==> IdOf(n) == IdOf(n % WORD32) && n % WORD32 < n
  {
    WrapOnce(n + 1);
  }

  lemma WrapOnce(n: nat)
    ensures (n + 1) % WORD32 == (n % WORD32 + 1) % WORD32
  {}
}
