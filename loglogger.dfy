/**
 * The log logger window collects log entries of other programs: one table of rows per
 * emitter, a combo box listing the emitters ("senders") and a text field naming the
 * loggers to subscribe to.
 *
 * The tables are values here: `models` maps an emitter's full name to its rows. The table
 * the window shows is `current`, the name under which that table is stored, or `None` once
 * it was deleted from `models` (the window then still shows the detached table, which no
 * longer receives rows). Calls to the communicator are recorded as `effects`.
 */
module LogLogger {
  import opened Wrappers
  import opened Dicts
  import opened PyStr

  /** One log entry: time, severity, logger and message, as strings. */
  type Row = seq<string>

  /** What the full name of a logger depends on: the communicator's namespace, which is
   *  `None` before it signed in, and the node stored at the last closing. */
  datatype Naming = Naming(namespace: Option<string>, lastNode: string)

  /** A call to the communicator. */
  datatype Effect = Subscribed(name: string) | Unsubscribed(name: string)

  datatype LookupError = KeyError

  /** `generate_full_name`: a name with a "." is full already; else the node is prefixed. */
  function FullName(naming: Naming, name: string): (r: string)
    ensures '.' in r
    ensures '.' in name ==> r == name
    ensures '.' !in name ==> r == (if naming.namespace.Some? then naming.namespace.value else naming.lastNode) + "." + name
  {
    if '.' in name then name
    else
      var node := match naming.namespace case Some(ns) => ns case None => naming.lastNode;
      assert (node + "." + name)[|node|] == '.';
      node + "." + name
  }

  /** A full name is its own full name. */
  lemma FullNameIdempotent(naming: Naming, name: string)
    ensures FullName(naming, FullName(naming, name)) == FullName(naming, name)
  {
  }

  // ---------------------------------------------------------------- the combo box

  /** `findText`: the first index of `text`, or -1. */
  function FindText(items: seq<string>, text: string): (r: int)
    ensures -1 <= r < |items|
    ensures r == -1 <==> text !in items
    ensures r >= 0 ==> items[r] == text && text !in items[..r]
    decreases |items|
  {
    if items == [] then -1
    else if items[0] == text then 0
    else
      var i := FindText(items[1..], text);
      if i == -1 then -1
      else
        assert items[..i + 1] == [items[0]] + items[1..][..i];
        i + 1
  }

  /** `removeItem`: drop the item at `index`; an index out of range changes nothing. */
  function RemoveItem(items: seq<string>, index: int): (r: seq<string>)
  {
    if 0 <= index < |items| then items[..index] + items[index + 1..] else items
  }

  /** Removing the found text from a list without repetitions drops that text and only it. */
  lemma RemoveFoundText(items: seq<string>, text: string)
    requires Distinct(items)
    ensures var r := RemoveItem(items, FindText(items, text));
      Distinct(r) && forall x :: x in r <==> x in items && x != text
  {
    var i := FindText(items, text);
    if i >= 0 {
      RemoveAt(items, i);
    }
  }

  /** Dropping the item at an index of a list without repetitions drops that item only. */
  lemma RemoveAt(items: seq<string>, i: int)
    requires Distinct(items) && 0 <= i < |items|
    ensures var r := items[..i] + items[i + 1..];
      Distinct(r) && forall x :: x in r <==> x in items && x != items[i]
  {
    var r := items[..i] + items[i + 1..];
    assert |r| == |items| - 1;
    assert forall a :: 0 <= a < i ==> r[a] == items[a];
    assert forall a :: i <= a < |r| ==> r[a] == items[a + 1];
    forall a, b | 0 <= a < b < |r| ensures r[a] != r[b] {
      var a', b' := if a < i then a else a + 1, if b < i then b else b + 1;
      assert r[a] == items[a'] && r[b] == items[b'] && a' < b';
    }
    forall x | x in r ensures x in items && x != items[i] {
      var a :| 0 <= a < |r| && r[a] == x;
      var a' := if a < i then a else a + 1;
      assert items[a'] == x && a' != i;
    }
    forall x | x in items && x != items[i] ensures x in r {
      var k :| 0 <= k < |items| && items[k] == x;
      if k < i { assert r[k] == x; } else { assert r[k - 1] == x; }
    }
  }

  // ---------------------------------------------------------------- the window state

  /** The tables, the combo box items, the shown table and the communicator calls. */
  datatype Window = Window(models: map<string, seq<Row>>, senders: seq<string>, current: Option<string>, effects: seq<Effect>)

  /** The combo box lists every table once and nothing else; a shown table is stored. */
  ghost predicate Consistent(w: Window) {
    && Distinct(w.senders)
    && (forall n :: n in w.senders <==> n in w.models)
    && (w.current.Some? ==> w.current.value in w.models)
  }

  /** The rows of a table, none for an unknown name. */
  function Rows(w: Window, name: string): seq<Row> {
    if name in w.models then w.models[name] else []
  }

  /**
   * One step of the first loop of `subscribe`: an old key that is not among the new keys
   * is unsubscribed by its full name, and its table and sender are removed when it has no
   * rows; a missing table is skipped.
   */
  function Drop(w: Window, naming: Naming, key: string, newKeys: seq<string>): Window {
    if key in newKeys then w
    else
      var name := FullName(naming, key);
      var told := w.(effects := w.effects + [Unsubscribed(name)]);
      if name in w.models && w.models[name] == [] then
        told.(models := w.models - {name},
              senders := RemoveItem(w.senders, FindText(w.senders, name)),
              current := if w.current == Some(name) then None else w.current)
      else told
  }

  /** The first loop of `subscribe` over `keys`. */
  function DropAll(w: Window, naming: Naming, keys: seq<string>, newKeys: seq<string>): Window
    decreases |keys|
  {
    if keys == [] then w
    else Drop(DropAll(w, naming, keys[..|keys| - 1], newKeys), naming, keys[|keys| - 1], newKeys)
  }

  /**
   * One step of the second loop of `subscribe`: the full name is subscribed unless it is
   * among the old RAW keys, and a table and sender are created when it has none.
   */
  function Take(w: Window, naming: Naming, key: string, oldKeys: seq<string>): Window {
    var name := FullName(naming, key);
    var told := if name !in oldKeys then w.(effects := w.effects + [Subscribed(name)]) else w;
    if name !in w.models then told.(models := w.models[name := []], senders := w.senders + [name])
    else told
  }

  /** The second loop of `subscribe` over `keys`. */
  function TakeAll(w: Window, naming: Naming, keys: seq<string>, oldKeys: seq<string>): Window
    decreases |keys|
  {
    if keys == [] then w
    else Take(TakeAll(w, naming, keys[..|keys| - 1], oldKeys), naming, keys[|keys| - 1], oldKeys)
  }

  /** `subscribe` from the old subscription to the new keys. */
  function Resubscribe(w: Window, naming: Naming, oldKeys: seq<string>, newKeys: seq<string>): Window {
    TakeAll(DropAll(w, naming, oldKeys, newKeys), naming, newKeys, oldKeys)
  }

  /** `add_log_entry`: the row is appended to the emitter's table, which is created first. */
  function AddEntry(w: Window, emitter: string, row: Row): (r: Window)
    ensures emitter in r.models && r.models[emitter] == Rows(w, emitter) + [row]
    ensures forall n :: n != emitter ==> (n in r.models <==> n in w.models) && Rows(r, n) == Rows(w, n)
    ensures r.senders == if emitter in w.models then w.senders else w.senders + [emitter]
    ensures r.current == w.current && r.effects == w.effects
    ensures Consistent(w) ==> Consistent(r)
  {
    if emitter in w.models then w.(models := w.models[emitter := w.models[emitter] + [row]])
    else w.(models := w.models[emitter := [row]], senders := w.senders + [emitter])
  }

  /** `add_entry_old_style` over the items of the data. */
  function AddEntries(w: Window, items: seq<(string, Row)>): Window
    decreases |items|
  {
    if items == [] then w
    else
      var n := |items| - 1;
      AddEntry(AddEntries(w, items[..n]), items[n].0, items[n].1)
  }

  /** `reset`: the shown table loses its rows; a detached one is not among the tables. */
  function ResetCurrent(w: Window): (r: Window)
    ensures r.senders == w.senders && r.current == w.current && r.effects == w.effects
    ensures w.current.Some? ==> r.current.value in r.models && r.models[w.current.value] == []
    ensures forall n :: (w.current.None? || n != w.current.value) ==>
      (n in r.models <==> n in w.models) && Rows(r, n) == Rows(w, n)
    ensures Consistent(w) ==> Consistent(r)
  {
    if w.current.Some? then w.(models := w.models[w.current.value := []]) else w
  }

  // ---------------------------------------------------------------- the window

  class LogLoggerWindow {
    /** `models`: the rows of each emitter's table. */
    var models: map<string, seq<Row>>
    /** The items of the `bbSender` combo box. */
    var senders: seq<string>
    /** The name under which the shown table (`current`) is stored, `None` once deleted. */
    var current: Option<string>
    /** `current_name`: the name last chosen in the combo box. */
    var currentName: string
    /** The calls made to the communicator. */
    var effects: seq<Effect>
    /** `subscription`: the keys of the last subscription. */
    var subscription: seq<string>
    /** The text of the `leSender` field. */
    var senderText: string
    /** The namespace and the last node. */
    var naming: Naming

    ghost function View(): Window
      reads this
    {
      Window(models, senders, current, effects)
    }

    ghost predicate Valid()
      reads this
    {
      Consistent(View())
    }

    /** Starts with the "self" table shown and subscribes to the stored names. */
    constructor (names: string, n: Naming)
      ensures Valid()
      ensures senderText == names && naming == n && currentName == "self"
      ensures subscription == Split(names)
      ensures View() == Resubscribe(Window(map["self" := []], ["self"], Some("self"), []), n, [], Split(names))
    {
      models := map["self" := []];
      senders := ["self"];
      current := Some("self");
      currentName := "self";
      effects := [];
      subscription := [];
      senderText := names;
      naming := n;
      new;
      Subscribe();
    }

    /** `subscribe`: from `subscription` to the keys in the sender field. */
    method Subscribe()
      requires Valid()
      modifies this`models, this`senders, this`current, this`effects, this`subscription
      ensures Valid()
      ensures View() == Resubscribe(old(View()), naming, old(subscription), Split(senderText))
      ensures subscription == Split(senderText)
    {
      var oldKeys := subscription;
      var newKeys := Split(senderText);
      Unsubscribe(oldKeys, newKeys);
      SubscribeNew(newKeys, oldKeys);
      subscription := newKeys;
      ResubscribeConsistent(old(View()), naming, oldKeys, newKeys);
    }

    /** The first loop of `subscribe`: unsubscribe the old keys that are not new keys. */
    method Unsubscribe(oldKeys: seq<string>, newKeys: seq<string>)
      modifies this`models, this`senders, this`current, this`effects
      ensures View() == DropAll(old(View()), naming, oldKeys, newKeys)
    {
      for i := 0 to |oldKeys|
        invariant View() == DropAll(old(View()), naming, oldKeys[..i], newKeys)
      {
        var key := oldKeys[i];
        ghost var before := View();
        assert oldKeys[..i + 1][..i] == oldKeys[..i];
        if key !in newKeys {
          var name := FullName(naming, key);
          effects := effects + [Unsubscribed(name)];
          if name in models && models[name] == [] {
            models := models - {name};
            if current == Some(name) {
              current := None;
            }
            var index := FindText(senders, name);
            senders := RemoveItem(senders, index);
          }
        }
        assert View() == Drop(before, naming, key, newKeys);
      }
      assert oldKeys[..|oldKeys|] == oldKeys;
    }

    /** The second loop of `subscribe`: subscribe the new keys and create their tables. */
    method SubscribeNew(newKeys: seq<string>, oldKeys: seq<string>)
      modifies this`models, this`senders, this`effects
      ensures View() == TakeAll(old(View()), naming, newKeys, oldKeys)
    {
      for i := 0 to |newKeys|
        invariant View() == TakeAll(old(View()), naming, newKeys[..i], oldKeys)
      {
        var name := FullName(naming, newKeys[i]);
        ghost var before := View();
        assert newKeys[..i + 1][..i] == newKeys[..i];
        if name !in oldKeys {
          effects := effects + [Subscribed(name)];
        }
        if name !in models {
          models := models[name := []];
          senders := senders + [name];
        }
        assert View() == Take(before, naming, newKeys[i], oldKeys);
      }
      assert newKeys[..|newKeys|] == newKeys;
    }

    /** `add_log_entry`. */
    method AddLogEntry(emitter: string, row: Row)
      requires Valid()
      modifies this`models, this`senders
      ensures Valid()
      ensures View() == AddEntry(old(View()), emitter, row)
    {
      if emitter in models {
        models := models[emitter := models[emitter] + [row]];
      } else {
        models := models[emitter := [row]];
        senders := senders + [emitter];
      }
    }

    /** `add_entry_old_style`: one entry per key of the data, in the dict's order. */
    method AddEntryOldStyle(data: Dict<string, Row>)
      requires Valid() && data.Valid()
      modifies this`models, this`senders
      ensures Valid()
      ensures View() == AddEntries(old(View()), data.Items())
    {
      ghost var items := data.Items();
      for i := 0 to |data.keys|
        invariant Valid()
        invariant View() == AddEntries(old(View()), items[..i])
      {
        var key := data.keys[i];
        assert items[i] == (key, data.entries[key]);
        AddEntriesPrefixStep(old(View()), items, i);
        AddLogEntry(key, data.entries[key]);
      }
      assert items[..|data.keys|] == items;
    }

    /** `setModel`: the chosen name is noted first, then its table is looked up. */
    method SetModel(name: string) returns (r: Result<(), LookupError>)
      requires Valid()
      modifies this`currentName, this`current
      ensures Valid() && currentName == name
      ensures name in models ==> r == Ok(()) && current == Some(name)
      ensures name !in models ==> r == Err(KeyError) && current == old(current)
    {
      currentName := name;
      if name !in models {
        return Err(KeyError);
      }
      current := Some(name);
      r := Ok(());
    }

    /** `reset`: the shown table is cleared. */
    method Reset()
      requires Valid()
      modifies this`models
      ensures Valid()
      ensures View() == ResetCurrent(old(View()))
    {
      if current.Some? {
        models := models[current.value := []];
      }
    }
  }

  // ---------------------------------------------------------------- properties

  lemma DropConsistent(w: Window, naming: Naming, key: string, newKeys: seq<string>)
    requires Consistent(w)
    ensures Consistent(Drop(w, naming, key, newKeys))
  {
    if key !in newKeys {
      RemoveFoundText(w.senders, FullName(naming, key));
    }
  }

  lemma {:induction false} DropAllConsistent(w: Window, naming: Naming, keys: seq<string>, newKeys: seq<string>)
    requires Consistent(w)
    ensures Consistent(DropAll(w, naming, keys, newKeys))
    decreases |keys|
  {
    if keys != [] {
      var n := |keys| - 1;
      DropAllConsistent(w, naming, keys[..n], newKeys);
      DropConsistent(DropAll(w, naming, keys[..n], newKeys), naming, keys[n], newKeys);
    }
  }

  lemma {:induction false} TakeAllConsistent(w: Window, naming: Naming, keys: seq<string>, oldKeys: seq<string>)
    requires Consistent(w)
    ensures Consistent(TakeAll(w, naming, keys, oldKeys))
    decreases |keys|
  {
    if keys != [] {
      TakeAllConsistent(w, naming, keys[..|keys| - 1], oldKeys);
    }
  }

  /** `subscribe` keeps the combo box equal to the tables, without repetitions. */
  lemma ResubscribeConsistent(w: Window, naming: Naming, oldKeys: seq<string>, newKeys: seq<string>)
    requires Consistent(w)
    ensures Consistent(Resubscribe(w, naming, oldKeys, newKeys))
  {
    DropAllConsistent(w, naming, oldKeys, newKeys);
    TakeAllConsistent(DropAll(w, naming, oldKeys, newKeys), naming, newKeys, oldKeys);
  }

  /**
   * The first loop only unsubscribes: every old key missing from the new keys is
   * unsubscribed by its full name, and every call it makes is such an unsubscription.
   */
  lemma {:induction false} DropAllEffects(w: Window, naming: Naming, keys: seq<string>, newKeys: seq<string>)
    ensures var r := DropAll(w, naming, keys, newKeys);
      && |w.effects| <= |r.effects| && r.effects[..|w.effects|] == w.effects
      && (forall k :: k in keys && k !in newKeys ==> Unsubscribed(FullName(naming, k)) in r.effects[|w.effects|..])
      && (forall e :: e in r.effects[|w.effects|..] ==>
            exists k :: k in keys && k !in newKeys && e == Unsubscribed(FullName(naming, k)))
    decreases |keys|
  {
    if keys != [] {
      var n := |keys| - 1;
      var before := DropAll(w, naming, keys[..n], newKeys);
      var r := DropAll(w, naming, keys, newKeys);
      DropAllEffects(w, naming, keys[..n], newKeys);
      assert keys == keys[..n] + [keys[n]];
      var m := |w.effects|;
      assert r.effects == before.effects || r.effects == before.effects + [Unsubscribed(FullName(naming, keys[n]))];
      assert r.effects[..|before.effects|] == before.effects;
      assert r.effects[..m] == before.effects[..m];
      assert r.effects[m..] == before.effects[m..] + r.effects[|before.effects|..];
      forall e | e in r.effects[m..]
        ensures exists k :: k in keys && k !in newKeys && e == Unsubscribed(FullName(naming, k))
      {
        if e in before.effects[m..] {
          var k :| k in keys[..n] && k !in newKeys && e == Unsubscribed(FullName(naming, k));
          assert k in keys;
        } else {
          assert keys[n] in keys;
        }
      }
    }
  }

  /**
   * The first loop deletes no table with rows and changes no rows: every table after it
   * was there before, with the same rows, and every table with rows is still there.
   */
  lemma {:induction false} DropAllKeepsRows(w: Window, naming: Naming, keys: seq<string>, newKeys: seq<string>)
    ensures var r := DropAll(w, naming, keys, newKeys);
      && (forall n :: n in r.models ==> n in w.models && r.models[n] == w.models[n])
      && (forall n :: n in w.models && w.models[n] != [] ==> n in r.models)
    decreases |keys|
  {
    if keys != [] {
      DropAllKeepsRows(w, naming, keys[..|keys| - 1], newKeys);
    }
  }

  /** A dropped key whose table had no rows loses its table and its sender. */
  lemma {:induction false} DropAllDeletesEmpty(w: Window, naming: Naming, keys: seq<string>, newKeys: seq<string>, k: string)
    requires k in keys && k !in newKeys
    requires FullName(naming, k) in w.models && w.models[FullName(naming, k)] == []
    ensures FullName(naming, k) !in DropAll(w, naming, keys, newKeys).models
    decreases |keys|
  {
    var n := |keys| - 1;
    var before := DropAll(w, naming, keys[..n], newKeys);
    DropAllKeepsRows(w, naming, keys[..n], newKeys);
    if keys[n] != k {
      assert keys == keys[..n] + [keys[n]];
      DropAllDeletesEmpty(w, naming, keys[..n], newKeys, k);
    }
  }

  /**
   * The second loop gives every new key's full name a table; tables that existed keep
   * their rows, and the new tables are empty.
   */
  lemma {:induction false} TakeAllTables(w: Window, naming: Naming, keys: seq<string>, oldKeys: seq<string>)
    ensures var r := TakeAll(w, naming, keys, oldKeys);
      && (forall k :: k in keys ==> FullName(naming, k) in r.models)
      && (forall n :: n in w.models ==> n in r.models && r.models[n] == w.models[n])
      && (forall n :: n in r.models && n !in w.models ==> r.models[n] == [])
    decreases |keys|
  {
    if keys != [] {
      var n := |keys| - 1;
      TakeAllTables(w, naming, keys[..n], oldKeys);
      assert keys == keys[..n] + [keys[n]];
    }
  }

  /**
   * The second loop subscribes the full name of each new key exactly when that full name
   * is not among the old raw keys, and makes no other call.
   */
  lemma {:induction false} TakeAllEffects(w: Window, naming: Naming, keys: seq<string>, oldKeys: seq<string>)
    ensures var r := TakeAll(w, naming, keys, oldKeys);
      && |w.effects| <= |r.effects| && r.effects[..|w.effects|] == w.effects
      && (forall k :: k in keys && FullName(naming, k) !in oldKeys ==> Subscribed(FullName(naming, k)) in r.effects[|w.effects|..])
      && (forall e :: e in r.effects[|w.effects|..] ==>
            exists k :: k in keys && FullName(naming, k) !in oldKeys && e == Subscribed(FullName(naming, k)))
    decreases |keys|
  {
    if keys != [] {
      var n := |keys| - 1;
      var before := TakeAll(w, naming, keys[..n], oldKeys);
      var r := TakeAll(w, naming, keys, oldKeys);
      TakeAllEffects(w, naming, keys[..n], oldKeys);
      assert keys == keys[..n] + [keys[n]];
      var m := |w.effects|;
      assert r.effects == before.effects || r.effects == before.effects + [Subscribed(FullName(naming, keys[n]))];
      assert r.effects[..|before.effects|] == before.effects;
      assert r.effects[..m] == before.effects[..m];
      assert r.effects[m..] == before.effects[m..] + r.effects[|before.effects|..];
      forall e | e in r.effects[m..]
        ensures exists k :: k in keys && FullName(naming, k) !in oldKeys && e == Subscribed(FullName(naming, k))
      {
        if e in before.effects[m..] {
          var k :| k in keys[..n] && FullName(naming, k) !in oldKeys && e == Subscribed(FullName(naming, k));
          assert k in keys;
        } else {
          assert keys[n] in keys;
        }
      }
    }
  }

  /**
   * After `subscribe` every new key's full name has a table, and a table with rows is
   * never lost: it keeps its rows.
   */
  lemma ResubscribeTables(w: Window, naming: Naming, oldKeys: seq<string>, newKeys: seq<string>)
    ensures var r := Resubscribe(w, naming, oldKeys, newKeys);
      && (forall k :: k in newKeys ==> FullName(naming, k) in r.models)
      && (forall n :: n in w.models && w.models[n] != [] ==> n in r.models && r.models[n] == w.models[n])
  {
    DropAllKeepsRows(w, naming, oldKeys, newKeys);
    TakeAllTables(DropAll(w, naming, oldKeys, newKeys), naming, newKeys, oldKeys);
  }

  /**
   * The comparison with the raw old keys is not a set difference: a key without a node,
   * kept from one subscription to the next, is subscribed again.
   */
  lemma SubscribeAgain()
    ensures var w := Window(map["self" := [], "N.x" := []], ["self", "N.x"], Some("self"), []);
      Resubscribe(w, Naming(Some("N"), ""), ["x"], ["x"]).effects == [Subscribed("N.x")]
  {
    var naming := Naming(Some("N"), "");
    assert FullName(naming, "x") == "N.x";
    assert "N.x" != "x";
    var w := Window(map["self" := [], "N.x" := []], ["self", "N.x"], Some("self"), []);
    assert ["x"][..0] == [];
    assert DropAll(w, naming, ["x"], ["x"]) == w;
  }

  /** The last entry is added to the window the entries before it leave. */
  lemma AddEntriesStep(w: Window, items: seq<(string, Row)>)
    requires items != []
    ensures var n := |items| - 1;
      AddEntries(w, items) == AddEntry(AddEntries(w, items[..n]), items[n].0, items[n].1)
  {
  }

  /** One more entry of the loop over the items. */
  lemma AddEntriesPrefixStep(w: Window, items: seq<(string, Row)>, i: int)
    requires 0 <= i < |items|
    ensures AddEntries(w, items[..i + 1]) == AddEntry(AddEntries(w, items[..i]), items[i].0, items[i].1)
  {
    assert items[..i + 1][..i] == items[..i];
    AddEntriesStep(w, items[..i + 1]);
  }

  /** The rows of the entries for emitter `x`, in order. */
  function RowsFor(items: seq<(string, Row)>, x: string): seq<Row>
    decreases |items|
  {
    if items == [] then []
    else
      var n := |items| - 1;
      RowsFor(items[..n], x) + (if items[n].0 == x then [items[n].1] else [])
  }

  /** Every table gets the rows of its entries appended, in the order of the entries. */
  lemma {:induction false} AddEntriesAppends(w: Window, items: seq<(string, Row)>, x: string)
    ensures Rows(AddEntries(w, items), x) == Rows(w, x) + RowsFor(items, x)
    decreases |items|
  {
    if items == [] {
      assert Rows(w, x) + [] == Rows(w, x);
    } else {
      var n := |items| - 1;
      AddEntriesAppends(w, items[..n], x);
      AddEntriesStep(w, items);
    }
  }

  /** Without entries for `x` there are no rows for it. */
  lemma {:induction false} NoRowsFor(items: seq<(string, Row)>, x: string)
    requires forall i :: 0 <= i < |items| ==> items[i].0 != x
    ensures RowsFor(items, x) == []
    decreases |items|
  {
    if items != [] {
      var n := |items| - 1;
      assert forall i :: 0 <= i < n ==> items[..n][i] == items[i];
      NoRowsFor(items[..n], x);
    }
  }

  /** The only entry for its emitter gives that emitter exactly its row. */
  lemma {:induction false} OneRowFor(items: seq<(string, Row)>, i: int)
    requires 0 <= i < |items|
    requires forall j :: 0 <= j < |items| && j != i ==> items[j].0 != items[i].0
    ensures RowsFor(items, items[i].0) == [items[i].1]
    decreases |items|
  {
    var n := |items| - 1;
    var front := items[..n];
    FrontAvoids(items, n, i);
    if i < n {
      assert front[i] == items[i];
      OneRowFor(front, i);
    } else {
      NoRowsFor(front, items[i].0);
    }
  }

  /** The entries before `n` other than entry `i` are not for the emitter of entry `i` either. */
  lemma FrontAvoids(items: seq<(string, Row)>, n: int, i: int)
    requires 0 <= i < |items| && 0 <= n <= |items|
    requires forall j :: 0 <= j < |items| && j != i ==> items[j].0 != items[i].0
    ensures forall j :: 0 <= j < n && j != i ==> items[..n][j].0 != items[i].0
  {
  }

  /** Entries of distinct emitters: each emitter's table gets exactly its row appended. */
  lemma AddEntriesRows(w: Window, items: seq<(string, Row)>)
    requires forall i, j :: 0 <= i < j < |items| ==> items[i].0 != items[j].0
    ensures var r := AddEntries(w, items);
      && (forall i :: 0 <= i < |items| ==> Rows(r, items[i].0) == Rows(w, items[i].0) + [items[i].1])
      && (forall x :: (forall i :: 0 <= i < |items| ==> items[i].0 != x) ==> Rows(r, x) == Rows(w, x))
  {
    forall i | 0 <= i < |items| ensures Rows(AddEntries(w, items), items[i].0) == Rows(w, items[i].0) + [items[i].1] {
      AddEntriesAppends(w, items, items[i].0);
      OneRowFor(items, i);
    }
    forall x | (forall i :: 0 <= i < |items| ==> items[i].0 != x) ensures Rows(AddEntries(w, items), x) == Rows(w, x) {
      AddEntriesAppends(w, items, x);
      NoRowsFor(items, x);
    }
  }

  /** `add_log_entry` appends exactly one row to the emitter's table, whichever it was. */
  lemma AddEntryOneRow(w: Window, emitter: string, row: Row)
    ensures |Rows(AddEntry(w, emitter, row), emitter)| == |Rows(w, emitter)| + 1
    ensures Rows(AddEntry(w, emitter, row), emitter)[..|Rows(w, emitter)|] == Rows(w, emitter)
  {
    assert Rows(AddEntry(w, emitter, row), emitter) == Rows(w, emitter) + [row];
  }
}
