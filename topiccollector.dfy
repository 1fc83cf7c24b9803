/**
 * The topic collector listens to every published topic for a while and remembers each
 * topic once, in the order it was first seen.
 */
module TopicCollector {
  import opened Dicts

  /** `add_topic` on a list: the topic is appended unless it is already there. */
  function AddOne(topics: seq<string>, topic: string): (r: seq<string>)
    ensures topic in r && |topics| <= |r| <= |topics| + 1
    ensures forall x :: x in r <==> x in topics || x == topic
    ensures r[..|topics|] == topics
    ensures topic in topics ==> r == topics
    ensures Distinct(topics) ==> Distinct(r)
  {
    if topic in topics then topics else topics + [topic]
  }

  /** The list after adding `keys` one after the other. */
  function AddAll(topics: seq<string>, keys: seq<string>): (r: seq<string>)
    decreases |keys|
  {
    if keys == [] then topics
    else AddOne(AddAll(topics, keys[..|keys| - 1]), keys[|keys| - 1])
  }

  class TopicCollectorListener {
    /** `topics`: every topic seen, in first-seen order. */
    var topics: seq<string>

    ghost predicate Valid()
      reads this
    {
      Distinct(topics)
    }

    constructor ()
      ensures Valid() && topics == []
    {
      topics := [];
    }

    /** `add_topic`. */
    method AddTopic(topic: string)
      requires Valid()
      modifies this`topics
      ensures Valid()
      ensures topics == AddOne(old(topics), topic)
    {
      if topic !in topics {
        topics := topics + [topic];
      }
    }

    /** `handle_subscription_data`: every key of the data, in the dict's order. */
    method HandleSubscriptionData<V>(data: Dict<string, V>)
      requires Valid()
      modifies this`topics
      ensures Valid()
      ensures topics == AddAll(old(topics), data.keys)
    {
      for i := 0 to |data.keys|
        invariant Valid()
        invariant topics == AddAll(old(topics), data.keys[..i])
      {
        assert data.keys[..i + 1][..i] == data.keys[..i];
        AddTopic(data.keys[i]);
      }
      assert data.keys[..|data.keys|] == data.keys;
    }

    /**
     * `handle_subscription_message`: the message's topic, `topic` here being the text its
     * bytes decode to.
     */
    method HandleSubscriptionMessage(topic: string)
      requires Valid()
      modifies this`topics
      ensures Valid()
      ensures topics == AddOne(old(topics), topic)
    {
      AddTopic(topic);
    }
  }

  // ---------------------------------------------------------------- properties

  /** After adding keys, the topics are the old ones and the keys, and nothing else. */
  lemma {:induction false} AddAllMembers(topics: seq<string>, keys: seq<string>, x: string)
    ensures x in AddAll(topics, keys) <==> x in topics || x in keys
    decreases |keys|
  {
    if keys != [] {
      var n := |keys| - 1;
      AddAllMembers(topics, keys[..n], x);
      assert keys == keys[..n] + [keys[n]];
    }
  }

  /** Adding keys only appends: the old list, in its order, is a prefix of the new one. */
  lemma {:induction false} AddAllPrefix(topics: seq<string>, keys: seq<string>)
    ensures |topics| <= |AddAll(topics, keys)|
    ensures AddAll(topics, keys)[..|topics|] == topics
    decreases |keys|
  {
    if keys != [] {
      var n := |keys| - 1;
      AddAllPrefix(topics, keys[..n]);
      var before := AddAll(topics, keys[..n]);
      assert AddAll(topics, keys)[..|before|] == before;
      assert AddAll(topics, keys)[..|topics|] == before[..|topics|];
    }
  }

  /** The list never holds a topic twice. */
  lemma {:induction false} AddAllDistinct(topics: seq<string>, keys: seq<string>)
    requires Distinct(topics)
    ensures Distinct(AddAll(topics, keys))
    decreases |keys|
  {
    if keys != [] {
      AddAllDistinct(topics, keys[..|keys| - 1]);
    }
  }

  /** New distinct keys are appended exactly in the order they arrive. */
  lemma {:induction false} AddAllFresh(topics: seq<string>, keys: seq<string>)
    requires Distinct(keys)
    requires forall i :: 0 <= i < |keys| ==> keys[i] !in topics
    ensures AddAll(topics, keys) == topics + keys
    decreases |keys|
  {
    if keys != [] {
      var n := |keys| - 1;
      DistinctPrefix(keys, n);
      AddAllFresh(topics, keys[..n]);
      DistinctAt(keys, n);
      assert keys[n] !in topics + keys[..n];
      assert topics + keys[..n] + [keys[n]] == topics + keys;
    }
  }

  /** Keys that are all known already leave the list unchanged. */
  lemma {:induction false} AddAllKnown(topics: seq<string>, keys: seq<string>)
    requires forall i :: 0 <= i < |keys| ==> keys[i] in topics
    ensures AddAll(topics, keys) == topics
    decreases |keys|
  {
    if keys != [] {
      var n := |keys| - 1;
      AddAllKnown(topics, keys[..n]);
    }
  }

  /** Receiving the same keys again changes nothing. */
  lemma AddAllIdempotent(topics: seq<string>, keys: seq<string>)
    ensures AddAll(AddAll(topics, keys), keys) == AddAll(topics, keys)
  {
    forall i | 0 <= i < |keys| ensures keys[i] in AddAll(topics, keys) {
      AddAllMembers(topics, keys, keys[i]);
    }
    AddAllKnown(AddAll(topics, keys), keys);
  }
}
