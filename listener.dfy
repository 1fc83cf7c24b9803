/**
 * The trigger handling that `DataLoggerCore` adds on top of the datapoint engine: pausing
 * and resuming the trigger, changing it at run time, the configuration it reports when a
 * measurement starts, and the hour column `time_h`.
 *
 * The timer is the repeating timer the engine runs for the TIMER trigger. Cancelling a
 * timer disarms it, but the timer object stays (its interval can still be written). A
 * state that never had a timer has none, and then cancelling or setting the interval does
 * nothing, as the swallowed `AttributeError` does.
 */
module Listener {
  import opened Wrappers
  import opened Dicts
  import opened History

  datatype TriggerType = NONE | TIMER | VARIABLE

  datatype ValuingMode = LAST | AVERAGE

  /** The repeating timer: its interval in seconds and whether it is running. */
  datatype Timer = Timer(interval: real, armed: bool)

  /** Everything the trigger methods read or write. */
  datatype Trigger = Trigger(
    kind: TriggerType,
    previous: Option<TriggerType>,
    timer: Option<Timer>,
    timeout: real,
    variable: string)

  // ---------------------------------------------------------------- specification

  /** `timer.cancel()`, where a missing timer is ignored. */
  function Cancelled(t: Option<Timer>): Option<Timer> {
    if t.Some? then Some(Timer(t.value.interval, false)) else None
  }

  /** The engine's `start_timer_trigger`: a new running timer with the trigger timeout. */
  function Armed(s: Trigger): Trigger {
    s.(timer := Some(Timer(s.timeout, true)))
  }

  /** `pause(enabled)`. */
  function Paused(s: Trigger, enabled: bool): Trigger {
    if enabled then
      if s.previous.None? then s.(previous := Some(s.kind), kind := NONE, timer := Cancelled(s.timer))
      else s
    else if s.previous.Some? then
      var restored := s.(kind := s.previous.value);
      var started := if restored.kind == TIMER then Armed(restored) else restored;
      started.(previous := None)
    else s
  }

  /** `set_trigger_type(t)`. */
  function WithType(s: Trigger, t: TriggerType): Trigger {
    var cancelled := s.(timer := Cancelled(s.timer), kind := t);
    if t == TIMER then Armed(cancelled) else cancelled
  }

  /** `set_trigger_interval(x)`. */
  function WithInterval(s: Trigger, x: real): Trigger {
    if s.timer.Some? then s.(timer := Some(s.timer.value.(interval := x))) else s
  }

  /** `set_trigger_variable(v)`. */
  function WithVariable(s: Trigger, v: string): Trigger {
    s.(variable := v)
  }

  // ---------------------------------------------------------------- properties

  /** Pausing a running measurement stores its trigger, sets NONE and stops the timer. */
  lemma PauseStoresTrigger(s: Trigger)
    requires s.previous.None?
    ensures var p := Paused(s, true);
      && p.previous == Some(s.kind) && p.kind == NONE
      && (s.timer.Some? <==> p.timer.Some?)
      && (p.timer.Some? ==> !p.timer.value.armed && p.timer.value.interval == s.timer.value.interval)
      && p.timeout == s.timeout && p.variable == s.variable
  {
  }

  /** Pausing a paused measurement changes nothing; hence pausing twice is pausing once. */
  lemma PauseIdempotent(s: Trigger)
    ensures s.previous.Some? ==> Paused(s, true) == s
    ensures Paused(Paused(s, true), true) == Paused(s, true)
  {
  }

  /** Resuming restores the stored trigger, arms a timer exactly for TIMER, and forgets it. */
  lemma ResumeRestores(s: Trigger)
    ensures s.previous.None? ==> Paused(s, false) == s
    ensures s.previous.Some? ==>
      var r := Paused(s, false);
      && r.kind == s.previous.value && r.previous.None?
      && r.timer == (if s.previous.value == TIMER then Some(Timer(s.timeout, true)) else s.timer)
      && r.timeout == s.timeout && r.variable == s.variable
  {
  }

  /** Pausing and resuming a running measurement gives back its trigger type. */
  lemma PauseThenResume(s: Trigger)
    requires s.previous.None?
    ensures Paused(Paused(s, true), false).kind == s.kind
    ensures Paused(Paused(s, true), false).previous.None?
    ensures s.kind == TIMER ==> Paused(Paused(s, true), false).timer == Some(Timer(s.timeout, true))
  {
  }

  /** `set_trigger_type` stops any timer, and a timer runs afterwards exactly for TIMER. */
  lemma SetTypeArmsOnlyTimer(s: Trigger, t: TriggerType)
    ensures var r := WithType(s, t);
      && r.kind == t && r.previous == s.previous
      && (r.timer.Some? && r.timer.value.armed <==> t == TIMER)
      && (t != TIMER ==> r.timer == Cancelled(s.timer))
      && r.timeout == s.timeout && r.variable == s.variable
  {
  }

  /** `set_trigger_interval` changes only the interval of an existing timer. */
  lemma SetIntervalOnlyTimer(s: Trigger, x: real)
    ensures var r := WithInterval(s, x);
      && r.kind == s.kind && r.previous == s.previous && r.timeout == s.timeout && r.variable == s.variable
      && (s.timer.None? ==> r == s)
      && (s.timer.Some? ==> r.timer == Some(Timer(x, s.timer.value.armed)))
  {
  }

  // ---------------------------------------------------------------- start configuration

  /** The value of one keyword argument of `start_collecting`. */
  datatype Setting =
    | VariablesArg(names: seq<string>)
    | UnitsArg(units: map<string, string>)
    | TimeoutArg(timeout: real)
    | TypeArg(triggerType: TriggerType)
    | VariableArg(variable: string)
    | ModeArg(mode: ValuingMode)
    | RepeatingArg(repeating: bool)

  /** The keys of the configuration dict: "variables", "units", "trigger_timeout", ... */
  datatype ConfKey =
    | VariablesKey | UnitsKey | TriggerTimeoutKey | TriggerTypeKey | TriggerVariableKey
    | ValuingModeKey | ValueRepeatingKey

  /** The keys in the order the configuration dict is built. */
  const ConfKeys: seq<ConfKey> := [VariablesKey, UnitsKey, TriggerTimeoutKey, TriggerTypeKey,
    TriggerVariableKey, ValuingModeKey, ValueRepeatingKey]

  /** The keys among `keys` whose value is not None, in order. */
  function PresentKeys(keys: seq<ConfKey>, entries: map<ConfKey, Option<Setting>>): (r: seq<ConfKey>)
    requires forall k :: k in keys ==> k in entries
    ensures forall k :: k in r <==> k in keys && entries[k].Some?
    ensures Distinct(keys) ==> Distinct(r)
  {
    if keys == [] then []
    else
      var n := |keys| - 1;
      var front := PresentKeys(keys[..n], entries);
      assert Distinct(keys) ==> keys[n] !in keys[..n];
      if entries[keys[n]].Some? then front + [keys[n]] else front
  }

  /** The configuration dict of `start_collecting` before the None entries are deleted. */
  function RawConfiguration(
    variables: Option<seq<string>>, units: Option<map<string, string>>, timeout: Option<real>,
    triggerType: Option<TriggerType>, variable: Option<string>, mode: Option<ValuingMode>,
    repeating: Option<bool>): (r: Dict<ConfKey, Option<Setting>>)
    ensures r.Valid() && r.keys == ConfKeys
  {
    var entries := map[
      VariablesKey := if variables.Some? then Some(VariablesArg(variables.value)) else None,
      UnitsKey := if units.Some? then Some(UnitsArg(units.value)) else None,
      TriggerTimeoutKey := if timeout.Some? then Some(TimeoutArg(timeout.value)) else None,
      TriggerTypeKey := if triggerType.Some? then Some(TypeArg(triggerType.value)) else None,
      TriggerVariableKey := if variable.Some? then Some(VariableArg(variable.value)) else None,
      ValuingModeKey := if mode.Some? then Some(ModeArg(mode.value)) else None,
      ValueRepeatingKey := if repeating.Some? then Some(RepeatingArg(repeating.value)) else None];
    Dict(ConfKeys, entries)
  }

  /**
   * The loop of `start_collecting` that deletes every None entry of the configuration:
   * exactly the entries that are not None remain, with their values and in their order.
   */
  method FilterConfiguration(conf: Dict<ConfKey, Option<Setting>>) returns (r: Dict<ConfKey, Option<Setting>>)
    requires conf.Valid()
    ensures r.Valid()
    ensures r.keys == PresentKeys(conf.keys, conf.entries)
    ensures forall k :: k in r.entries <==> k in conf.entries && conf.entries[k].Some?
    ensures forall k :: k in r.entries ==> r.entries[k] == conf.entries[k]
  {
    r := conf;
    var keys := conf.keys;
    var i := 0;
    while i < |keys|
      invariant 0 <= i <= |keys|
      invariant Filtering(conf, r, i)
    {
      var key := keys[i];
      FilterStep(conf, r, i);
      if r.entries[key].None? {
        r := r.Remove(key);
      }
      i := i + 1;
    }
    assert keys[..i] == keys;
  }

  /**
   * The state of the deleting loop after `i` keys: the examined keys that are not None are
   * kept in order, the pending keys are all still there, and no value has changed.
   */
  ghost predicate Filtering(conf: Dict<ConfKey, Option<Setting>>, r: Dict<ConfKey, Option<Setting>>, i: int)
    requires conf.Valid() && 0 <= i <= |conf.keys|
  {
    && r.Valid()
    && r.keys == PresentKeys(conf.keys[..i], conf.entries) + conf.keys[i..]
    && forall k :: k in r.entries ==> k in conf.entries && r.entries[k] == conf.entries[k]
  }

  /** One turn of the deleting loop: the examined key is dropped exactly when it is None. */
  lemma FilterStep(conf: Dict<ConfKey, Option<Setting>>, r: Dict<ConfKey, Option<Setting>>, i: int)
    requires conf.Valid() && 0 <= i < |conf.keys| && Filtering(conf, r, i)
    ensures conf.keys[i] in r.entries
    ensures r.entries[conf.keys[i]].None? ==> Filtering(conf, r.Remove(conf.keys[i]), i + 1)
    ensures r.entries[conf.keys[i]].Some? ==> Filtering(conf, r, i + 1)
  {
    var keys := conf.keys;
    var front := PresentKeys(keys[..i], conf.entries);
    PresentKeysStep(keys, i, conf.entries);
    DistinctAt(keys, i);
    DeleteStep(front, keys, i);
    assert r.keys == (front + [keys[i]]) + keys[i + 1..];
    if r.entries[keys[i]].None? {
      FilterDrop(conf, r, i, front);
    }
  }

  /** A None key is deleted: the kept keys stay as they are, the pending ones lose it. */
  lemma FilterDrop(conf: Dict<ConfKey, Option<Setting>>, r: Dict<ConfKey, Option<Setting>>, i: int, front: seq<ConfKey>)
    requires conf.Valid() && 0 <= i < |conf.keys| && r.Valid()
    requires forall k :: k in r.entries ==> k in conf.entries && r.entries[k] == conf.entries[k]
    requires r.keys == front + conf.keys[i..] && conf.keys[i] in r.entries
    requires RemoveKey(front + conf.keys[i..], conf.keys[i]) == front + conf.keys[i + 1..]
    ensures var n := r.Remove(conf.keys[i]);
      && n.Valid() && n.keys == front + conf.keys[i + 1..]
      && forall k :: k in n.entries ==> k in conf.entries && n.entries[k] == conf.entries[k]
  {
  }

  /** One more examined key: it joins the kept keys exactly when its value is not None. */
  lemma PresentKeysStep(keys: seq<ConfKey>, i: int, entries: map<ConfKey, Option<Setting>>)
    requires 0 <= i < |keys|
    requires forall k :: k in keys ==> k in entries
    ensures PresentKeys(keys[..i + 1], entries) ==
      if entries[keys[i]].Some? then PresentKeys(keys[..i], entries) + [keys[i]] else PresentKeys(keys[..i], entries)
  {
    assert keys[..i + 1] == keys[..i] + [keys[i]];
    assert keys[..i + 1][..i] == keys[..i];
  }

  /** Deleting the examined key from the kept keys followed by the pending ones. */
  lemma DeleteStep(front: seq<ConfKey>, keys: seq<ConfKey>, i: int)
    requires Distinct(keys) && 0 <= i < |keys| && keys[i] !in front
    ensures RemoveKey(front + keys[i..], keys[i]) == front + keys[i + 1..]
    ensures front + keys[i..] == (front + [keys[i]]) + keys[i + 1..]
  {
    DistinctAt(keys, i);
    assert keys[i..][1..] == keys[i + 1..];
    RemoveAtBoundary(front, keys[i..]);
    assert keys[i..] == [keys[i]] + keys[i + 1..];
  }

  /** Deleting the first pending key, which occurs nowhere else. */
  lemma RemoveAtBoundary(front: seq<ConfKey>, rest: seq<ConfKey>)
    requires rest != [] && rest[0] !in front && rest[0] !in rest[1..]
    ensures RemoveKey(front + rest, rest[0]) == front + rest[1..]
  {
    RemoveKeyAppend(front, rest, rest[0]);
    RemoveAbsentKey(rest[1..], rest[0]);
  }

  /** An entry of the raw configuration is None exactly when its argument is. */
  lemma RawEntriesFollowArguments(
    variables: Option<seq<string>>, units: Option<map<string, string>>, timeout: Option<real>,
    triggerType: Option<TriggerType>, variable: Option<string>, mode: Option<ValuingMode>,
    repeating: Option<bool>)
    ensures var e := RawConfiguration(variables, units, timeout, triggerType, variable, mode, repeating).entries;
      && (e[VariablesKey].Some? <==> variables.Some?)
      && (e[UnitsKey].Some? <==> units.Some?)
      && (e[TriggerTimeoutKey].Some? <==> timeout.Some?)
      && (e[TriggerTypeKey].Some? <==> triggerType.Some?)
      && (e[TriggerVariableKey].Some? <==> variable.Some?)
      && (e[ValuingModeKey].Some? <==> mode.Some?)
      && (e[ValueRepeatingKey].Some? <==> repeating.Some?)
  {
  }

  /** Without any argument given nothing is left. */
  lemma {:induction false} NoneLeavesNothing(keys: seq<ConfKey>, entries: map<ConfKey, Option<Setting>>)
    requires forall k :: k in keys ==> k in entries && entries[k].None?
    ensures PresentKeys(keys, entries) == []
    decreases |keys|
  {
    if keys != [] {
      NoneLeavesNothing(keys[..|keys| - 1], entries);
    }
  }

  // ---------------------------------------------------------------- the hour column

  datatype CalcError = KeyError(key: string) | IndexError

  /** The value of `time_h` for a datapoint: `time / 3600`, or the elapsed seconds of the day. */
  function HourValue(d: Dict<string, Value>, elapsed: real): Value {
    if "time" in d.entries then DivBy(d.entries["time"], 3600.0) else Num(elapsed / 3600.0)
  }

  // ---------------------------------------------------------------- the core

  class DataLoggerCore {
    var triggerType: TriggerType
    /** `_previous_trigger`: the trigger saved by a pause. */
    var previousTrigger: Option<TriggerType>
    /** The engine's timer, if one was ever started. */
    var timer: Option<Timer>
    var triggerTimeout: real
    var triggerVariable: string
    /** The engine's history lists. */
    var lists: Lists
    /** Every configuration passed to `set_configuration`, oldest first. */
    var configurations: seq<Dict<ConfKey, Option<Setting>>>
    /** How often `started` was emitted. */
    var startedCount: nat
    /** `_today_zero`: the start of the day, in seconds. */
    var todayZero: real

    function State(): Trigger
      reads this
    {
      Trigger(triggerType, previousTrigger, timer, triggerTimeout, triggerVariable)
    }

    constructor (timeout: real)
      ensures State() == Trigger(NONE, None, None, timeout, "")
      ensures lists == Empty() && configurations == [] && startedCount == 0
    {
      triggerType := NONE;
      previousTrigger := None;
      timer := None;
      triggerTimeout := timeout;
      triggerVariable := "";
      lists := Empty();
      configurations := [];
      startedCount := 0;
      todayZero := 0.0;
    }

    /** Stand-in for the engine's `start_timer_trigger`. */
    method StartTimerTrigger()
      modifies this`timer
      ensures State() == Armed(old(State()))
    {
      timer := Some(Timer(triggerTimeout, true));
    }

    /** `self.timer.cancel()`, ignoring a missing timer. */
    method CancelTimer()
      modifies this`timer
      ensures timer == Cancelled(old(timer))
    {
      if timer.Some? {
        timer := Some(Timer(timer.value.interval, false));
      }
    }

    /** `pause`: pause or resume the measurement. */
    method Pause(pauseEnabled: bool)
      modifies this`triggerType, this`previousTrigger, this`timer
      ensures State() == Paused(old(State()), pauseEnabled)
    {
      if pauseEnabled {
        if previousTrigger.None? {
          previousTrigger := Some(triggerType);
          triggerType := NONE;
          CancelTimer();
        }
      } else {
        if previousTrigger.Some? {
          triggerType := previousTrigger.value;
          if triggerType == TIMER {
            StartTimerTrigger();
          }
          previousTrigger := None;
        }
      }
    }

    /** `set_trigger_type`. */
    method SetTriggerType(t: TriggerType)
      modifies this`triggerType, this`timer
      ensures State() == WithType(old(State()), t)
    {
      CancelTimer();
      triggerType := t;
      if t == TIMER {
        StartTimerTrigger();
      }
    }

    /** `set_trigger_interval`. */
    method SetTriggerInterval(interval: real)
      modifies this`timer
      ensures State() == WithInterval(old(State()), interval)
    {
      if timer.Some? {
        timer := Some(timer.value.(interval := interval));
      }
    }

    /** `set_trigger_variable`. */
    method SetTriggerVariable(variable: string)
      modifies this`triggerVariable
      ensures State() == WithVariable(old(State()), variable)
    {
      triggerVariable := variable;
    }

    /**
     * The part of `start_collecting` after the engine has started: report the given
     * arguments as configuration, emit `started` and store the start of the day.
     */
    method StartCollecting(
      variables: Option<seq<string>>, units: Option<map<string, string>>, timeout: Option<real>,
      triggerType: Option<TriggerType>, variable: Option<string>, mode: Option<ValuingMode>,
      repeating: Option<bool>, today: real)
      modifies this`configurations, this`startedCount, this`todayZero
      ensures |configurations| == |old(configurations)| + 1
      ensures configurations[..|old(configurations)|] == old(configurations)
      ensures var raw := RawConfiguration(variables, units, timeout, triggerType, variable, mode, repeating);
        var conf := configurations[|old(configurations)|];
        && conf.keys == PresentKeys(raw.keys, raw.entries)
        && (forall k :: k in conf.entries <==> k in raw.entries && raw.entries[k].Some?)
        && (forall k :: k in conf.entries ==> conf.entries[k] == raw.entries[k])
      ensures startedCount == old(startedCount) + 1 && todayZero == today
    {
      var raw := RawConfiguration(variables, units, timeout, triggerType, variable, mode, repeating);
      var conf := FilterConfiguration(raw);
      configurations := configurations + [conf];
      startedCount := startedCount + 1;
      todayZero := today;
    }

    /**
     * The `time_h` branch of `calculate_data`, applied to the datapoint `d` the engine
     * computed; `elapsed` is the time since `_today_zero` in seconds. The last entry of
     * the `time_h` list is overwritten as well; a missing or empty list raises.
     */
    method CalculateData(d: Dict<string, Value>, elapsed: real) returns (r: Result<Dict<string, Value>, CalcError>)
      requires d.Valid() && lists.Valid()
      modifies this`lists
      ensures lists.Valid()
      ensures "time_h" !in d.entries ==> r == Ok(d) && lists == old(lists)
      ensures "time_h" in d.entries && "time_h" !in old(lists).entries ==>
        r == Err(KeyError("time_h")) && lists == old(lists)
      ensures "time_h" in d.entries && "time_h" in old(lists).entries && old(lists).entries["time_h"] == [] ==>
        r == Err(IndexError) && lists == old(lists)
      ensures "time_h" in d.entries && "time_h" in old(lists).entries && old(lists).entries["time_h"] != [] ==>
        var v := HourValue(d, elapsed);
        var li := old(lists).entries["time_h"];
        && r == Ok(d.Put("time_h", v))
        && lists.keys == old(lists).keys
        && lists.entries == old(lists).entries["time_h" := li[..|li| - 1] + [v]]
    {
      if "time_h" !in d.entries {
        return Ok(d);
      }
      var v;
      if "time" in d.entries {
        v := DivBy(d.entries["time"], 3600.0);
      } else {
        v := Num(elapsed / 3600.0);
      }
      var e := d.Put("time_h", v);
      if "time_h" !in lists.entries {
        return Err(KeyError("time_h"));
      }
      var li := lists.entries["time_h"];
      if li == [] {
        return Err(IndexError);
      }
      lists := lists.Put("time_h", li[..|li| - 1] + [v]);
      r := Ok(e);
    }
  }

  /** With a "time" entry the hour column is time / 3600 whatever the clock says. */
  lemma HourFromTime(d: Dict<string, Value>, elapsed: real, t: real)
    requires "time" in d.entries && d.entries["time"] == Num(t)
    ensures HourValue(d, elapsed) == Num(t / 3600.0)
  {
  }
}
