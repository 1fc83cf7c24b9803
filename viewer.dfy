/**
 * The window that shows a saved data file: the loaded lists are cut to a common length,
 * and a file with a "time" column but no "time_h" column gets the hour column added.
 */
module Viewer {
  import opened Wrappers
  import opened Dicts
  import opened PyStr
  import opened History
  import opened LoggerBase

  /**
   * `sanitize_data`: every list cut to the length of the first one. The keys and their
   * order stay; each list becomes its prefix of length min(len, L), where L is the
   * length of the first list; an empty dict is returned as it is.
   */
  function Sanitize(data: Lists): (r: Lists)
    requires data.Valid()
    ensures r.Valid() && r.keys == data.keys
    ensures data.keys == [] ==> r == data
    ensures data.keys != [] ==>
      var length := |data.entries[data.keys[0]]|;
      && r.entries[data.keys[0]] == data.entries[data.keys[0]]
      && forall k :: k in data.entries ==>
           && |r.entries[k]| == Min(length, |data.entries[k]|)
           && r.entries[k] == data.entries[k][..|r.entries[k]|]
  {
    if data.keys == [] then data
    else
      var length := |data.entries[data.keys[0]]|;
      var r := Dict(data.keys, map k | k in data.entries :: SliceTo(data.entries[k], length));
      assert forall k :: k in data.entries ==> SliceTo(data.entries[k], length) == data.entries[k][..Min(length, |data.entries[k]|)];
      r
  }

  /** After sanitizing, no list is longer than the first. */
  lemma SanitizeBounded(data: Lists)
    requires data.Valid() && data.keys != []
    ensures forall k :: k in Sanitize(data).entries ==>
      |Sanitize(data).entries[k]| <= |Sanitize(data).entries[data.keys[0]]|
  {
  }

  /** When no list is shorter than the first, sanitizing makes all lists the same length. */
  lemma SanitizeEqualizes(data: Lists)
    requires data.Valid() && data.keys != []
    requires forall k :: k in data.entries ==> |data.entries[k]| >= |data.entries[data.keys[0]]|
    ensures forall k :: k in Sanitize(data).entries ==>
      |Sanitize(data).entries[k]| == |data.entries[data.keys[0]]|
  {
  }

  /** Sanitizing twice is sanitizing once. */
  lemma SanitizeIdempotent(data: Lists)
    requires data.Valid()
    ensures Sanitize(Sanitize(data)) == Sanitize(data)
  {
    var s := Sanitize(data);
    if data.keys != [] {
      var t := Sanitize(s);
      var first := data.keys[0];
      assert s.entries[first] == data.entries[first];
      forall k | k in s.entries ensures t.entries[k] == s.entries[k] {
        assert |s.entries[k]| <= |s.entries[first]|;
      }
      assert t.entries == s.entries;
    }
  }

  /** `np.array(time) / 3600`, element by element. */
  function Hours(time: seq<Value>): (r: seq<Value>)
    ensures |r| == |time|
  {
    seq(|time|, i requires 0 <= i < |time| => DivBy(time[i], 3600.0))
  }

  /**
   * The variables text after `start` appends "time_h": the names are read from `text`,
   * "time_h" is appended and the text rewritten; then the units are read back from that
   * text, "time_h" gets "h" and the text is rewritten once more.
   */
  function HourVariablesText(text: string): (r: string)
  {
    var parsed := ParseVariablesText(text);
    var reread := ParseVariablesText(FormatVariables(parsed.0 + ["time_h"], parsed.1));
    FormatVariables(reread.0, reread.1["time_h" := "h"])
  }

  /**
   * For any text whose names are non-empty, adding the hour column is read back as the
   * old names followed by "time_h", the old units kept and "time_h" with the unit "h".
   */
  lemma AddHourColumnText(text: string)
    requires forall i :: 0 <= i < |ParseVariablesText(text).0| ==> ParseVariablesText(text).0[i] != []
    ensures var (vars, units) := ParseVariablesText(text);
      var withHour := vars + ["time_h"];
      var hourUnits := ListedUnits(units, withHour)["time_h" := "h"];
      && HourVariablesText(text) == FormatVariables(withHour, hourUnits)
      && ParseVariablesText(HourVariablesText(text)) == (withHour, ListedUnits(hourUnits, withHour))
      && "time_h" in ListedUnits(hourUnits, withHour) && ListedUnits(hourUnits, withHour)["time_h"] == "h"
      && (forall k :: k in units && k in vars && units[k] != [] && k != "time_h" ==>
            k in ListedUnits(hourUnits, withHour) && ListedUnits(hourUnits, withHour)[k] == units[k])
  {
    var (vars, units) := ParseVariablesText(text);
    var withHour := vars + ["time_h"];
    ParsedPlain(text);
    HourNamePlain();
    forall i | 0 <= i < |withHour| ensures PlainName(withHour[i]) {
      if i < |vars| { assert withHour[i] == vars[i]; }
    }
    ParseFormatRoundTrip(withHour, units);
    var hourUnits := ListedUnits(units, withHour)["time_h" := "h"];
    assert HourVariablesText(text) == FormatVariables(withHour, hourUnits);
    ParseFormatRoundTrip(withHour, hourUnits);
    HourUnitsListed(vars, units);
  }

  /** Listing the units after "time_h" got "h" keeps every other non-empty unit. */
  lemma HourUnitsListed(vars: seq<string>, units: map<string, string>)
    ensures var withHour := vars + ["time_h"];
      var hourUnits := ListedUnits(units, withHour)["time_h" := "h"];
      && "time_h" in ListedUnits(hourUnits, withHour) && ListedUnits(hourUnits, withHour)["time_h"] == "h"
      && (forall k :: k in units && k in vars && units[k] != [] && k != "time_h" ==>
            k in ListedUnits(hourUnits, withHour) && ListedUnits(hourUnits, withHour)[k] == units[k])
  {
    var withHour := vars + ["time_h"];
    assert "time_h" in withHour;
    forall k | k in vars ensures k in withHour { }
  }

  /** The name and the unit of the hour column can be carried by the text format. */
  lemma HourNamePlain()
    ensures PlainName("time_h") && PlainUnit("h")
  {
    forall i | 0 <= i < 6 ensures !IsSpace("time_h"[i]) && "time_h"[i] != ',' && "time_h"[i] != ':' { }
    assert !IsSpace('h');
  }

  class DataLoggerViewer {
    /** The shared window state this window extends. */
    const base: DataLoggerBase
    /** `_lists`: the loaded data. */
    var storedLists: Lists
    /** `last_path`: the file opened last. */
    var lastPath: string
    /** The count shown in the "Data points" label, once a file with data was opened. */
    var countLabel: Option<int>

    ghost predicate Valid()
      reads this
    {
      storedLists.Valid()
    }

    /**
     * `__init__`: the inherited initialisation restores the `stored` configuration, then
     * the viewer starts without loaded data and sets `self.units = {}` through the setter,
     * which rewrites the line without units.
     */
    constructor (b: DataLoggerBase, stored: SavedConfig)
      requires b.Valid()
      modifies b
      ensures Valid() && b.Valid()
      ensures base == b && storedLists == Empty() && lastPath == "" && countLabel.None?
      ensures var restored := ParseVariablesText(Configured(old(b.Text()), stored).text).0;
        && b.variables == restored
        && b.lists == ClearedFor(old(b.lists), restored)
      ensures b.headerText == if stored.header.Some? then stored.header.value else old(b.headerText)
      ensures b.units == map[] && b.variablesText == FormatVariables(b.variables, map[])
    {
      b.RestoreConfiguration(stored);
      base := b;
      storedLists := Empty();
      lastPath := "";
      countLabel := None;
      new;
      base.SetUnits(map[]);
    }

    /**
     * The variables part of `start` for a file with "time" but no "time_h": append
     * "time_h" to the variables, then give it the unit "h".
     */
    method AddHourVariable()
      modifies base`variables, base`units, base`variablesText
      ensures base.variablesText == HourVariablesText(old(base.variablesText))
      ensures base.variables == ParseVariablesText(FormatVariables(ParseVariablesText(old(base.variablesText)).0 + ["time_h"], ParseVariablesText(old(base.variablesText)).1)).0
    {
      var vs := base.GetVariables();
      base.SetVariables(vs + ["time_h"]);
      var d := base.GetUnits();
      base.SetUnits(d["time_h" := "h"]);
    }

    /**
     * `start` after the file dialog: `fileName` is the chosen file ("" when cancelled),
     * `header` and `data` are what the loader returned for it and `saved` is the
     * "configuration" entry of its metas (`NoConfig` when there is none).
     */
    method Start(fileName: string, header: string, data: Lists, saved: SavedConfig)
      requires Valid() && data.Valid()
      modifies this`storedLists, this`lastPath, this`countLabel
      modifies base`variables, base`units, base`variablesText, base`currentUnits, base`headerText
      ensures Valid()
      ensures fileName == "" ==>
        && storedLists == old(storedLists) && lastPath == old(lastPath) && countLabel == old(countLabel)
        && base.variablesText == old(base.variablesText) && base.currentUnits == old(base.currentUnits)
        && base.headerText == old(base.headerText)
        && base.variables == old(base.variables) && base.units == old(base.units)
      ensures fileName != "" ==>
        && lastPath == fileName
        && base.headerText == (if saved.header.Some? then saved.header.value else BeforeLast(header, '\n'))
        && (base.variables, base.currentUnits) == ParseVariablesText(base.variablesText)
        && base.units == base.currentUnits
      ensures fileName != "" && !("time" in data.entries && "time_h" !in data.entries) ==>
        && storedLists == Sanitize(data)
        && base.variablesText == Configured(old(base.Text()), saved).text
      ensures fileName != "" && "time" in data.entries && "time_h" !in data.entries ==>
        && storedLists == Sanitize(data).Put("time_h", Hours(data.entries["time"]))
        && base.variablesText == HourVariablesText(Configured(old(base.Text()), saved).text)
      ensures fileName != "" && storedLists.keys != [] ==>
        countLabel == Some(|storedLists.entries[storedLists.keys[|storedLists.keys| - 1]]|)
      ensures fileName != "" && storedLists.keys == [] ==> countLabel == old(countLabel)
    {
      if fileName == "" {
        return;
      }
      lastPath := fileName;
      storedLists := Sanitize(data);
      base.headerText := BeforeLast(header, '\n');
      base.SetConfig(saved);
      AddHourColumn(data);
      var current := base.GetUnits();
      base.currentUnits := current;
      ShowCount();
    }

    /** The hour column of `start`: only for data with "time" and without "time_h". */
    method AddHourColumn(data: Lists)
      requires Valid() && data.Valid()
      modifies this`storedLists, base`variables, base`units, base`variablesText
      ensures Valid()
      ensures "time" in data.entries && "time_h" !in data.entries ==>
        && storedLists == old(storedLists).Put("time_h", Hours(data.entries["time"]))
        && base.variablesText == HourVariablesText(old(base.variablesText))
      ensures !("time" in data.entries && "time_h" !in data.entries) ==>
        storedLists == old(storedLists) && base.variablesText == old(base.variablesText)
    {
      if "time" in data.entries && "time_h" !in data.entries {
        storedLists := storedLists.Put("time_h", Hours(data.entries["time"]));
        AddHourVariable();
      }
    }

    /** The count label of `start`: the length of the last list, unchanged when there is none. */
    method ShowCount()
      requires Valid()
      modifies this`countLabel
      ensures storedLists.keys != [] ==>
        countLabel == Some(|storedLists.entries[storedLists.keys[|storedLists.keys| - 1]]|)
      ensures storedLists.keys == [] ==> countLabel == old(countLabel)
    {
      if storedLists.keys != [] {
        countLabel := Some(|storedLists.entries[storedLists.keys[|storedLists.keys| - 1]]|);
      }
    }
  }

  /** The hour column comes from the whole "time" list, even when sanitizing cut it shorter. */
  lemma HourColumnFromUnsanitized(data: Lists)
    requires data.Valid() && "time" in data.entries && "time_h" !in data.entries
    ensures var r := Sanitize(data).Put("time_h", Hours(data.entries["time"]));
      && r.keys == data.keys + ["time_h"]
      && |r.entries["time_h"]| == |data.entries["time"]|
  {
  }
}
