/**
 * The republisher listens to data messages and republishes selected values under new names
 * after applying a function to them. Its handlings map an incoming key to a function and
 * the name to publish the result under.
 */
module Republisher {
  import opened Wrappers
  import opened Dicts

  /**
   * A handling: `apply` is the function applied to the value (`None` when it raises) and
   * `newName` the key the result is published under.
   */
  datatype Handling<!V> = Handling(apply: V -> Option<V>, newName: string)

  type Handlings<!V> = map<string, Handling<V>>

  /** The item has a handling, and the handling's function succeeds on its value. */
  predicate Handled<V>(handlings: Handlings<V>, item: (string, V)) {
    item.0 in handlings && handlings[item.0].apply(item.1).Some?
  }

  /** The item has a handling publishing under `name`, and it succeeds. */
  predicate Produces<V>(handlings: Handlings<V>, item: (string, V), name: string) {
    Handled(handlings, item) && handlings[item.0].newName == name
  }

  /** The new data after the given items: each handled item sets its new name. */
  function Remap<V>(handlings: Handlings<V>, items: seq<(string, V)>): (r: Dict<string, V>)
    ensures r.Valid()
    decreases |items|
  {
    if items == [] then Empty()
    else
      var n := |items| - 1;
      var before := Remap(handlings, items[..n]);
      var item := items[n];
      if Handled(handlings, item) then
        before.Put(handlings[item.0].newName, handlings[item.0].apply(item.1).value)
      else before
  }

  class RepublisherActor<V> {
    /** `handlings`: incoming key to function and new name; empty by default. */
    var handlings: Handlings<V>
    /** The data published so far, in order. */
    var published: seq<Dict<string, V>>

    constructor (h: Option<Handlings<V>>)
      ensures handlings == (if h.Some? then h.value else map[]) && published == []
    {
      handlings := if h.Some? then h.value else map[];
      published := [];
    }

    /**
     * `calculate_new_data`: every key with a handling whose function succeeds sets the new
     * name to the function's value; a failing function is skipped and the loop goes on.
     */
    method CalculateNewData(data: Dict<string, V>) returns (newData: Dict<string, V>)
      requires data.Valid()
      ensures newData == Remap(handlings, data.Items())
    {
      newData := Empty();
      ghost var items := data.Items();
      for i := 0 to |data.keys|
        invariant newData == Remap(handlings, items[..i])
      {
        var key := data.keys[i];
        var value := data.entries[key];
        assert items[..i + 1][..i] == items[..i];
        assert items[..i + 1][i] == (key, value);
        if key in handlings {
          var handling := handlings[key];
          var result := handling.apply(value);
          if result.Some? {
            newData := newData.Put(handling.newName, result.value);
          }
        }
      }
      assert items[..|data.keys|] == items;
    }

    /** `handle_subscription_data`: the new data is published only when it is not empty. */
    method HandleSubscriptionData(data: Dict<string, V>)
      requires data.Valid()
      modifies this`published
      ensures var newData := Remap(handlings, data.Items());
        published == if newData.keys == [] then old(published) else old(published) + [newData]
    {
      var newData := CalculateNewData(data);
      if newData.keys != [] {
        published := published + [newData];
      }
    }
  }

  // ---------------------------------------------------------------- properties

  /** A name is in the new data exactly when some item produces it. */
  lemma {:induction false} RemapKeys<V>(handlings: Handlings<V>, items: seq<(string, V)>, name: string)
    ensures name in Remap(handlings, items).entries <==>
      exists i :: 0 <= i < |items| && Produces(handlings, items[i], name)
    decreases |items|
  {
    if items != [] {
      var n := |items| - 1;
      RemapKeys(handlings, items[..n], name);
      if name in Remap(handlings, items[..n]).entries {
        var i :| 0 <= i < n && Produces(handlings, items[..n][i], name);
        assert items[i] == items[..n][i];
      }
      if exists i :: 0 <= i < |items| && Produces(handlings, items[i], name) {
        var i :| 0 <= i < |items| && Produces(handlings, items[i], name);
        if i < n {
          assert items[..n][i] == items[i];
        }
      }
    }
  }

  /** The value under a name is the function's value on the last item producing it. */
  lemma {:induction false} RemapValue<V>(handlings: Handlings<V>, items: seq<(string, V)>, i: nat, name: string)
    requires i < |items| && Produces(handlings, items[i], name)
    requires forall j :: i < j < |items| ==> !Produces(handlings, items[j], name)
    ensures name in Remap(handlings, items).entries
    ensures Remap(handlings, items).entries[name] == handlings[items[i].0].apply(items[i].1).value
    decreases |items|
  {
    var n := |items| - 1;
    if i < n {
      forall j | i < j < n ensures !Produces(handlings, items[..n][j], name) {
        assert items[..n][j] == items[j];
      }
      assert items[..n][i] == items[i];
      RemapValue(handlings, items[..n], i, name);
    }
  }

  /** Items without a handling, or whose function fails, change nothing. */
  lemma {:induction false} RemapSkipsUnhandled<V>(handlings: Handlings<V>, items: seq<(string, V)>, rest: seq<(string, V)>)
    requires forall j :: 0 <= j < |rest| ==> !Handled(handlings, rest[j])
    ensures Remap(handlings, items + rest) == Remap(handlings, items)
    decreases |rest|
  {
    if rest == [] {
      assert items + rest == items;
    } else {
      var n := |rest| - 1;
      assert (items + rest)[..|items| + n] == items + rest[..n];
      assert (items + rest)[|items| + n] == rest[n];
      RemapSkipsUnhandled(handlings, items, rest[..n]);
    }
  }

  /** With no handlings, nothing is ever republished. */
  lemma {:induction false} NoHandlingsNothing<V>(items: seq<(string, V)>)
    ensures Remap(map[], items) == Empty()
    decreases |items|
  {
    if items != [] {
      NoHandlingsNothing(items[..|items| - 1]);
    }
  }

  function Double(v: int): Option<int> {
    Some(2 * v)
  }

  /** Doubling "old" into "new": `{'old': 7}` becomes `{'new': 14}`. */
  lemma DoubleExample()
    ensures var data := Dict(["old"], map["old" := 7]);
      Remap(map["old" := Handling(Double, "new")], data.Items()) == Dict(["new"], map["new" := 14])
  {
    var data := Dict(["old"], map["old" := 7]);
    var items := data.Items();
    assert items == [("old", 7)];
    assert items[..0] == [];
  }
}
