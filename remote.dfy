/**
 * The window that follows another data logger: every datapoint the followed logger
 * publishes is appended to the local history lists.
 */
module Remote {
  import opened Wrappers
  import opened Dicts
  import opened PyStr
  import opened History
  import opened LoggerBase

  /** A datapoint as received: variable name to value, where `None` is a missing value. */
  type Datapoint = Dict<string, Option<Value>>

  /** The payload of a data message or of an RPC reply: a dict, or anything else. */
  datatype Payload = DictPayload(datapoint: Datapoint) | OtherPayload

  // ---------------------------------------------------------------- specification

  /** The lists after appending `v` under `key`; an unknown key gets a new one-element list. */
  function AppendValue(lists: Lists, key: string, v: Value): (r: Lists)
    requires lists.Valid()
    ensures r.Valid()
  {
    if key in lists.entries then lists.Put(key, lists.entries[key] + [v]) else lists.Put(key, [v])
  }

  /** The lists after the loop of `_add_datapoint_to_lists` has handled the keys `keys` of `dp`. */
  function AddAll(lists: Lists, keys: seq<string>, dp: map<string, Option<Value>>): (r: Lists)
    requires lists.Valid()
    requires forall k :: k in keys ==> k in dp
    ensures r.Valid()
  {
    if keys == [] then lists
    else
      var n := |keys| - 1;
      AppendValue(AddAll(lists, keys[..n], dp), keys[n], OrNaN(dp[keys[n]]))
  }

  /** One more key handled by the loop appends its value to the lists so far. */
  lemma AddAllStep(lists: Lists, keys: seq<string>, i: int, dp: map<string, Option<Value>>)
    requires lists.Valid() && 0 <= i < |keys|
    requires forall k :: k in keys ==> k in dp
    ensures AddAll(lists, keys[..i + 1], dp) == AppendValue(AddAll(lists, keys[..i], dp), keys[i], OrNaN(dp[keys[i]]))
  {
    assert keys[..i + 1][..i] == keys[..i];
  }

  /** The keys of `keys` that `known` does not have, in order. */
  function Unknown(keys: seq<string>, known: map<string, seq<Value>>): (r: seq<string>)
    ensures forall k :: k in r <==> k in keys && k !in known
  {
    if keys == [] then []
    else
      var n := |keys| - 1;
      if keys[n] in known then Unknown(keys[..n], known) else Unknown(keys[..n], known) + [keys[n]]
  }

  /** The list a key had before, or the empty list when it had none. */
  function Before(lists: Lists, k: string): seq<Value> {
    if k in lists.entries then lists.entries[k] else []
  }

  /** After the loop the lists have exactly the old keys and the datapoint's keys. */
  lemma {:induction false} AddAllDomain(lists: Lists, keys: seq<string>, dp: map<string, Option<Value>>)
    requires lists.Valid()
    requires forall k :: k in keys ==> k in dp
    ensures forall k :: k in AddAll(lists, keys, dp).entries <==> k in lists.entries || k in keys
    decreases |keys|
  {
    if keys != [] {
      var n := |keys| - 1;
      AddAllDomain(lists, keys[..n], dp);
      assert keys == keys[..n] + [keys[n]];
    }
  }

  /** Lists whose key is not in the datapoint stay as they were. */
  lemma {:induction false} AddAllOthers(lists: Lists, keys: seq<string>, dp: map<string, Option<Value>>, k: string)
    requires lists.Valid()
    requires forall k :: k in keys ==> k in dp
    requires k in lists.entries && k !in keys
    ensures k in AddAll(lists, keys, dp).entries && AddAll(lists, keys, dp).entries[k] == lists.entries[k]
    decreases |keys|
  {
    if keys != [] {
      var n := |keys| - 1;
      assert keys == keys[..n] + [keys[n]];
      AddAllOthers(lists, keys[..n], dp, k);
    }
  }

  /**
   * `_add_datapoint_to_lists`: every key of the datapoint gets its value appended to the
   * list it had (or to an empty one), with None as NaN.
   */
  lemma {:induction false} AddAllListed(lists: Lists, keys: seq<string>, dp: map<string, Option<Value>>, k: string)
    requires lists.Valid() && Distinct(keys)
    requires forall k :: k in keys ==> k in dp
    requires k in keys
    ensures k in AddAll(lists, keys, dp).entries
    ensures AddAll(lists, keys, dp).entries[k] == Before(lists, k) + [OrNaN(dp[k])]
    decreases |keys|
  {
    var n := |keys| - 1;
    var front := keys[..n];
    var mid := AddAll(lists, front, dp);
    assert keys == front + [keys[n]];
    DistinctAt(keys, n);
    DistinctPrefix(keys, n);
    AddAllDomain(lists, front, dp);
    if k == keys[n] {
      if k in lists.entries {
        AddAllOthers(lists, front, dp, k);
      }
    } else {
      AddAllListed(lists, front, dp, k);
    }
  }

  /** New keys come after the old ones, in datapoint order. */
  lemma {:induction false} AddAllKeys(lists: Lists, keys: seq<string>, dp: map<string, Option<Value>>)
    requires lists.Valid() && Distinct(keys)
    requires forall k :: k in keys ==> k in dp
    ensures AddAll(lists, keys, dp).keys == lists.keys + Unknown(keys, lists.entries)
    decreases |keys|
  {
    if keys != [] {
      var n := |keys| - 1;
      DistinctAt(keys, n);
      DistinctPrefix(keys, n);
      AddAllKeys(lists, keys[..n], dp);
      AddAllDomain(lists, keys[..n], dp);
    }
  }

  /** Every list of the datapoint grows by exactly one entry, the others keep their length. */
  lemma AddAllLengths(lists: Lists, dp: Datapoint)
    requires lists.Valid() && dp.Valid()
    ensures var r := AddAll(lists, dp.keys, dp.entries);
      && (forall k :: k in dp.entries ==> k in r.entries && |r.entries[k]| == |Before(lists, k)| + 1)
      && (forall k :: k in lists.entries && k !in dp.entries ==> k in r.entries && |r.entries[k]| == |lists.entries[k]|)
  {
    var r := AddAll(lists, dp.keys, dp.entries);
    forall k | k in dp.entries ensures k in r.entries && |r.entries[k]| == |Before(lists, k)| + 1 {
      AddAllListed(lists, dp.keys, dp.entries, k);
    }
    forall k | k in lists.entries && k !in dp.entries
      ensures k in r.entries && |r.entries[k]| == |lists.entries[k]|
    {
      AddAllOthers(lists, dp.keys, dp.entries, k);
    }
  }

  /** The name to subscribe to: a dotted name as is, else qualified by the namespace if any. */
  function SubscriptionName(remote: string, namespace: Option<string>): (r: string)
    ensures EndsWith(r, remote)
    ensures '.' in remote ==> r == remote
    ensures '.' !in remote && namespace.Some? ==> r == namespace.value + "." + remote
    ensures '.' !in remote && namespace.None? ==> r == remote
  {
    if '.' in remote then remote
    else if namespace.Some? then
      var r := namespace.value + "." + remote;
      assert r[|r| - |remote|..] == remote;
      r
    else remote
  }

  // ---------------------------------------------------------------- the window

  /** The loop of `_add_datapoint_to_lists` over the keys of the datapoint, None stored as NaN. */
  method AppendDatapoint(lists: Lists, datapoint: Datapoint) returns (r: Lists)
    requires lists.Valid() && datapoint.Valid()
    ensures r == AddAll(lists, datapoint.keys, datapoint.entries)
  {
    var keys := datapoint.keys;
    r := lists;
    var i := 0;
    while i < |keys|
      invariant 0 <= i <= |keys|
      invariant r.Valid()
      invariant r == AddAll(lists, keys[..i], datapoint.entries)
    {
      var key := keys[i];
      var value := datapoint.entries[key];
      r := AppendValue(r, key, OrNaN(value));
      AddAllStep(lists, keys, i, datapoint.entries);
      i := i + 1;
    }
    assert keys[..i] == keys;
  }

  class DataLoggerRemote {
    /** The shared window state this window extends. */
    const base: DataLoggerBase
    /** The name of the followed logger. */
    var remote: string
    /** `remote_length`: how many datapoints have arrived from the followed logger. */
    var remoteLength: int
    /** The count shown in the "Remote data points" label. */
    var shownRemoteCount: int
    /** The names subscribed to at the proxy. */
    var subscriptions: seq<string>
    /** Whether the polling timer runs (it does when not following). */
    var pollingTimer: bool

    /**
     * `__init__`: the inherited initialisation runs `setSettings` with the stored remote
     * name and follow setting (`namespace` is the communicator's), then
     * `restore_configuration` with the remote's `reply`; afterwards `current_units` is
     * set to the units of the restored line.
     */
    constructor (b: DataLoggerBase, name: string, namespace: Option<string>, follow: bool,
                 reply: Option<(SavedConfig, int)>)
      requires b.Valid()
      modifies b
      ensures b.Valid()
      ensures base == b && remote == name && shownRemoteCount == 0
      ensures follow ==> subscriptions == [SubscriptionName(name, namespace)] && !pollingTimer
      ensures !follow ==> subscriptions == [] && pollingTimer
      ensures remoteLength == if reply.Some? then reply.value.1 else 0
      ensures var c := if reply.Some? then reply.value.0 else NoConfig;
        && b.variablesText == Configured(old(b.Text()), c).text
        && b.headerText == (if c.header.Some? then c.header.value else old(b.headerText))
      ensures (b.variables, b.units) == ParseVariablesText(b.variablesText)
      ensures b.lists == ClearedFor(old(b.lists), b.variables)
      ensures b.currentUnits == b.units
    {
      base := b;
      remote := "DataLogger";
      remoteLength := 0;
      shownRemoteCount := 0;
      subscriptions := [];
      pollingTimer := false;
      new;
      ApplyRemoteSettings(name, namespace, follow);
      RestoreConfiguration(reply);
      var current := base.GetUnits();
      base.currentUnits := current;
    }

    /**
     * `read_configuration`: `reply` is the remote's configuration with its list length, or
     * None when asking failed; only a successful reply sets `remote_length`.
     */
    method ReadConfiguration(reply: Option<(SavedConfig, int)>) returns (c: SavedConfig)
      modifies this`remoteLength
      ensures reply.None? ==> c == NoConfig && remoteLength == old(remoteLength)
      ensures reply.Some? ==> c == reply.value.0 && remoteLength == reply.value.1
    {
      if reply.None? {
        return NoConfig;
      }
      remoteLength := reply.value.1;
      c := reply.value.0;
    }

    /** `restore_configuration` with the configuration the remote replies. */
    method RestoreConfiguration(reply: Option<(SavedConfig, int)>)
      requires base.Valid()
      modifies this`remoteLength, base`variables, base`units, base`variablesText, base`headerText, base`lists
      ensures base.Valid()
      ensures remoteLength == if reply.Some? then reply.value.1 else old(remoteLength)
      ensures var c := if reply.Some? then reply.value.0 else NoConfig;
        && base.variablesText == Configured(old(base.Text()), c).text
        && base.headerText == (if c.header.Some? then c.header.value else old(base.headerText))
      ensures (base.variables, base.units) == ParseVariablesText(base.variablesText)
      ensures base.lists == ClearedFor(old(base.lists), base.variables)
    {
      var c := ReadConfiguration(reply);
      base.RestoreConfiguration(c);
    }

    /**
     * `reset`: restore the remote's configuration, which also empties the lists of its
     * variables, and take its units as the current ones.
     */
    method Reset(reply: Option<(SavedConfig, int)>)
      requires base.Valid()
      modifies this`remoteLength, base`variables, base`units, base`variablesText, base`headerText, base`lists
      modifies base`currentUnits
      ensures base.Valid()
      ensures remoteLength == if reply.Some? then reply.value.1 else old(remoteLength)
      ensures var c := if reply.Some? then reply.value.0 else NoConfig;
        && base.variablesText == Configured(old(base.Text()), c).text
        && base.headerText == (if c.header.Some? then c.header.value else old(base.headerText))
      ensures (base.variables, base.units) == ParseVariablesText(base.variablesText)
      ensures base.lists == ClearedFor(old(base.lists), base.variables)
      ensures base.currentUnits == base.units
    {
      RestoreConfiguration(reply);
      var current := base.GetUnits();
      base.currentUnits := current;
    }

    /** `_add_datapoint_to_lists`. */
    method AddDatapointToLists(datapoint: Datapoint)
      requires base.Valid() && datapoint.Valid()
      modifies base`lists
      ensures base.Valid()
      ensures base.lists == AddAll(old(base.lists), datapoint.keys, datapoint.entries)
    {
      base.lists := AppendDatapoint(base.lists, datapoint);
    }

    /** `_handle_new_data_point`: store the datapoint, apply the length limit, show the count. */
    method HandleNewDataPoint(datapoint: Datapoint, count: int)
      requires base.Valid() && datapoint.Valid()
      modifies base`lists, this`shownRemoteCount
      ensures base.Valid()
      ensures var added := AddAll(old(base.lists), datapoint.keys, datapoint.entries);
        base.lists == AfterShow(added, base.limitDataLength, base.dataLengthLimit)
      ensures shownRemoteCount == count
    {
      AddDatapointToLists(datapoint);
      base.ShowListLength();
      shownRemoteCount := count;
    }

    /** `add_data_point`: accept the datapoint only from a sender ending in the remote name. */
    method AddDataPoint(sender: string, datapoint: Datapoint)
      requires base.Valid() && datapoint.Valid()
      modifies base`lists, this`shownRemoteCount, this`remoteLength
      ensures base.Valid()
      ensures EndsWith(sender, remote) ==>
        && remoteLength == old(remoteLength) + 1
        && shownRemoteCount == remoteLength
        && base.lists == AfterShow(AddAll(old(base.lists), datapoint.keys, datapoint.entries),
                                   base.limitDataLength, base.dataLengthLimit)
      ensures !EndsWith(sender, remote) ==>
        remoteLength == old(remoteLength) && base.lists == old(base.lists) && shownRemoteCount == old(shownRemoteCount)
    {
      if EndsWith(sender, remote) {
        remoteLength := remoteLength + 1;
        HandleNewDataPoint(datapoint, remoteLength);
      }
    }

    /**
     * `dataReceived`: pop the last (sender, datapoint) pair of `data` and add it; an empty
     * dict is left alone. Returns what `data` holds afterwards.
     */
    method DataReceived(data: Dict<string, Datapoint>) returns (rest: Dict<string, Datapoint>)
      requires base.Valid() && data.Valid()
      requires forall s :: s in data.entries ==> data.entries[s].Valid()
      modifies base`lists, this`shownRemoteCount, this`remoteLength
      ensures base.Valid() && rest.Valid()
      ensures data.keys == [] ==>
        rest == data && base.lists == old(base.lists) && remoteLength == old(remoteLength)
      ensures data.keys != [] ==>
        var sender := data.keys[|data.keys| - 1];
        var datapoint := data.entries[sender];
        && datapoint.Valid()
        && rest.keys == data.keys[..|data.keys| - 1]
        && rest.entries == data.entries - {sender}
        && (EndsWith(sender, remote) ==>
              remoteLength == old(remoteLength) + 1
              && base.lists == AfterShow(AddAll(old(base.lists), datapoint.keys, datapoint.entries),
                                         base.limitDataLength, base.dataLengthLimit))
        && (!EndsWith(sender, remote) ==> remoteLength == old(remoteLength) && base.lists == old(base.lists))
    {
      if data.keys == [] {
        return data;
      }
      var n := |data.keys| - 1;
      var sender := data.keys[n];
      var datapoint := data.entries[sender];
      DistinctAt(data.keys, n);
      rest := Dict(data.keys[..n], data.entries - {sender});
      assert data.keys == data.keys[..n] + [sender];
      assert Distinct(rest.keys) by {
        forall a, b | 0 <= a < b < n ensures rest.keys[a] != rest.keys[b] {
          assert rest.keys[a] == data.keys[a] && rest.keys[b] == data.keys[b];
        }
      }
      AddDataPoint(sender, datapoint);
    }

    /** `handle_data_message`: a dict payload is added with the topic as sender, others ignored. */
    method HandleDataMessage(topic: string, data: Payload)
      requires base.Valid() && (data.DictPayload? ==> data.datapoint.Valid())
      modifies base`lists, this`shownRemoteCount, this`remoteLength
      ensures base.Valid()
      ensures data.OtherPayload? ==>
        base.lists == old(base.lists) && remoteLength == old(remoteLength) && shownRemoteCount == old(shownRemoteCount)
      ensures data.DictPayload? && EndsWith(topic, remote) ==>
        && remoteLength == old(remoteLength) + 1
        && base.lists == AfterShow(AddAll(old(base.lists), data.datapoint.keys, data.datapoint.entries),
                                   base.limitDataLength, base.dataLengthLimit)
      ensures data.DictPayload? && !EndsWith(topic, remote) ==>
        base.lists == old(base.lists) && remoteLength == old(remoteLength)
    {
      if data.DictPayload? {
        AddDataPoint(topic, data.datapoint);
      }
    }

    /**
     * `make_data_point`: `reply` is the remote list length with the last datapoint, or None
     * when asking failed. A dict datapoint is stored and the length shown; `remote_length`
     * itself is not touched.
     */
    method MakeDataPoint(reply: Option<(int, Payload)>)
      requires base.Valid()
      requires reply.Some? && reply.value.1.DictPayload? ==> reply.value.1.datapoint.Valid()
      modifies base`lists, this`shownRemoteCount
      ensures base.Valid()
      ensures reply.None? || reply.value.1.OtherPayload? ==>
        base.lists == old(base.lists) && shownRemoteCount == old(shownRemoteCount)
      ensures reply.Some? && reply.value.1.DictPayload? ==>
        var dp := reply.value.1.datapoint;
        && shownRemoteCount == reply.value.0
        && base.lists == AfterShow(AddAll(old(base.lists), dp.keys, dp.entries),
                                   base.limitDataLength, base.dataLengthLimit)
    {
      if reply.None? {
        return;
      }
      var (length, datapoint) := reply.value;
      if !datapoint.DictPayload? {
        return;
      }
      HandleNewDataPoint(datapoint.datapoint, length);
    }

    /**
     * The remote part of `setSettings`: store the name, drop all subscriptions, then
     * subscribe to the qualified name when following, or run the polling timer.
     */
    method ApplyRemoteSettings(name: string, namespace: Option<string>, follow: bool)
      modifies this`remote, this`subscriptions, this`pollingTimer
      ensures remote == name
      ensures follow ==> subscriptions == [SubscriptionName(name, namespace)] && !pollingTimer
      ensures !follow ==> subscriptions == [] && pollingTimer
    {
      remote := name;
      subscriptions := [];
      if follow {
        pollingTimer := false;
        var r;
        if '.' in remote {
          r := remote;
        } else if namespace.Some? {
          r := namespace.value + "." + remote;
        } else {
          r := remote;
        }
        subscriptions := subscriptions + [r];
      } else {
        pollingTimer := true;
      }
    }
  }
}
