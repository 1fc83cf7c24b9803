/**
 * The part of the DataLogger window that every member of the family shares: the history
 * lists with their length limit, and the line of text that holds the variable names
 * with their units ("time:s, random").
 */
module LoggerBase {
  import opened Wrappers
  import opened Dicts
  import opened PyStr
  import opened History

  // ---------------------------------------------------------------- history cut

  /** The history after `cut_lists`: every list replaced by `li[-limit:]`, limit 0 disables it. */
  function CutAll(lists: Lists, limit: int): (r: Lists)
  {
    if limit == 0 then lists
    else Dict(lists.keys, map k | k in lists.entries :: SliceFrom(lists.entries[k], -limit))
  }

  /** The condition of `show_list_length`: cutting is enabled and the first list is past 1.1 x limit. */
  predicate ShouldCut(lists: Lists, limitChecked: bool, limit: int)
    requires lists.Valid()
  {
    && |lists.keys| > 0
    && limitChecked
    && (|lists.entries[lists.keys[0]]| as real) > (limit as real) * 1.1
  }

  /** The history after `show_list_length`. */
  function AfterShow(lists: Lists, limitChecked: bool, limit: int): Lists
    requires lists.Valid()
  {
    if ShouldCut(lists, limitChecked, limit) then CutAll(lists, limit) else lists
  }

  // ---------------------------------------------------------------- variables text

  /** The tokens of the variables text: ": " becomes ":", commas become blanks, then split. */
  function Tokens(text: string): seq<string> {
    Split(ReplaceChar(Replace(text, ": ", ":"), ',', ' '))
  }

  /** The variable a token names: the part before its first colon, or the whole token. */
  function TokenVariable(t: string): string {
    if ':' in t then t[..IndexOf(t, ':')] else t
  }

  /** The unit a token "v:u" carries: everything after its first colon. */
  function TokenUnit(t: string): string
    requires ':' in t
  {
    t[IndexOf(t, ':') + 1..]
  }

  /**
   * The variables and units the loop of `_read_variables_and_units` collects from `tokens`.
   * Every token gives one variable, in order; a token with a colon also sets the unit of
   * its variable, and the last such token for a variable wins.
   */
  function ParseTokens(tokens: seq<string>): (r: (seq<string>, map<string, string>))
    ensures |r.0| == |tokens|
    ensures forall i :: 0 <= i < |tokens| ==> r.0[i] == TokenVariable(tokens[i])
  {
    if tokens == [] then ([], map[])
    else
      var n := |tokens| - 1;
      var p := ParseTokens(tokens[..n]);
      var t := tokens[n];
      if ':' in t then (p.0 + [TokenVariable(t)], p.1[TokenVariable(t) := TokenUnit(t)])
      else (p.0 + [t], p.1)
  }

  function ParseVariablesText(text: string): (seq<string>, map<string, string>) {
    ParseTokens(Tokens(text))
  }

  /** One entry of the variables text: "v:u" when `v` has a non-empty unit, else "v". */
  function FormatItem(v: string, units: map<string, string>): string {
    if v in units && units[v] != [] then v + ":" + units[v] else v
  }

  function FormatItems(vars: seq<string>, units: map<string, string>): (r: seq<string>)
    ensures |r| == |vars|
  {
    seq(|vars|, i requires 0 <= i < |vars| => FormatItem(vars[i], units))
  }

  /** The text `_update_variables_and_units` writes: the entries joined by ", ". */
  function FormatVariables(vars: seq<string>, units: map<string, string>): string {
    Join(", ", FormatItems(vars, units))
  }

  /** The units of listed variables that have a non-empty unit. */
  function ListedUnits(units: map<string, string>, vars: seq<string>): map<string, string> {
    map v | v in units && v in vars && units[v] != [] :: units[v]
  }

  /** A name the text format can carry: non-empty, no blank, comma or colon. */
  ghost predicate PlainName(v: string) {
    v != [] && NoSpace(v) && ',' !in v && ':' !in v
  }

  /** A unit the text format can carry: no blank and no comma. */
  ghost predicate PlainUnit(u: string) {
    NoSpace(u) && ',' !in u
  }

  // ---------------------------------------------------------------- legacy units

  /** One element of the legacy units text: "key:unit" with exactly one colon, stripped. */
  function LegacyEntry(element: string): Option<(string, string)> {
    if element == [] then None
    else
      var parts := SplitOn(element, ':');
      if |parts| != 2 then None else Some((Strip(parts[0]), Strip(parts[1])))
  }

  /** The parsed form of every element, in order. */
  function LegacyEntries(elements: seq<string>): (r: seq<Option<(string, string)>>)
    ensures |r| == |elements|
  {
    seq(|elements|, i requires 0 <= i < |elements| => LegacyEntry(elements[i]))
  }

  /** The units collected from parsed entries: every valid entry sets its key, later ones win. */
  function CollectUnits(entries: seq<Option<(string, string)>>): map<string, string> {
    if entries == [] then map[]
    else
      var n := |entries| - 1;
      match entries[n]
      case None => CollectUnits(entries[..n])
      case Some(e) => CollectUnits(entries[..n])[e.0 := e.1]
  }

  /** The units `read_legacy_units` collects from the comma-separated `elements`. */
  function LegacyUnits(elements: seq<string>): map<string, string> {
    CollectUnits(LegacyEntries(elements))
  }

  // ---------------------------------------------------------------- saved configuration

  /**
   * The keys of a configuration dict that `_set_config` applies to the header and the
   * variables line; a missing key is `None`. The trigger, valuing, auto-save and pause keys
   * only set widgets and are not part of this model.
   */
  datatype SavedConfig = SavedConfig(
    header: Option<string>,
    variables: Option<seq<string>>,
    variablesText: Option<string>,
    units: Option<map<string, string>>,
    unitsText: Option<string>)

  /** The empty configuration dict `{}`. */
  const NoConfig: SavedConfig := SavedConfig(None, None, None, None, None)

  /** The variables part of the window: `_variables`, `_units` and the text of the line. */
  datatype TextState = TextState(variables: seq<string>, units: map<string, string>, text: string)

  /**
   * The variables part after `_set_config`, key by key in the source's order: `variables`
   * and `units` go through their setters, which rewrite the text from `_variables` and
   * `_units`; `variablesText` replaces the text; `unitsText` updates the `_units` the
   * getter has just re-read, without writing the text.
   */
  function Configured(s: TextState, c: SavedConfig): TextState {
    var s1 := if c.variables.Some? then TextState(c.variables.value, s.units, FormatVariables(c.variables.value, s.units)) else s;
    var s2 := if c.variablesText.Some? then s1.(text := c.variablesText.value) else s1;
    var s3 := if c.units.Some? then TextState(s2.variables, c.units.value, FormatVariables(s2.variables, c.units.value)) else s2;
    if c.unitsText.Some? then
      var (vars, units) := ParseVariablesText(s3.text);
      TextState(vars, units + LegacyUnits(SplitOn(c.unitsText.value, ',')), s3.text)
    else s3
  }

  /** The loop of `restore_configuration`: every variable, in order, gets an empty list. */
  function ClearedFor(lists: Lists, vars: seq<string>): (r: Lists)
    requires lists.Valid()
    ensures r.Valid()
    decreases |vars|
  {
    if vars == [] then lists
    else
      var n := |vars| - 1;
      ClearedFor(lists, vars[..n]).Put(vars[n], [])
  }

  /** The loop of `cut_lists`: every list, key by key, keeps its last `limit` entries. */
  method CutEach(lists: Lists, limit: int) returns (r: Lists)
    requires lists.Valid() && limit != 0
    ensures r == CutAll(lists, limit)
  {
    var keys := lists.keys;
    r := lists;
    var i := 0;
    while i < |keys|
      invariant 0 <= i <= |keys|
      invariant r.keys == keys && r.entries.Keys == lists.entries.Keys
      invariant forall j :: 0 <= j < i ==> r.entries[keys[j]] == SliceFrom(lists.entries[keys[j]], -limit)
      invariant forall j :: i <= j < |keys| ==> r.entries[keys[j]] == lists.entries[keys[j]]
    {
      var key := keys[i];
      DistinctAt(keys, i);
      r := Dict(keys, r.entries[key := SliceFrom(r.entries[key], -limit)]);
      i := i + 1;
    }
    ghost var cut := map k | k in lists.entries :: SliceFrom(lists.entries[k], -limit);
    forall k | k in r.entries ensures r.entries[k] == cut[k] {
      var j :| 0 <= j < |keys| && keys[j] == k;
    }
    assert r.entries == cut;
  }

  /** The loop of `restore_configuration`: `self.lists[variable] = []` for each variable. */
  method ClearEach(lists: Lists, vars: seq<string>) returns (r: Lists)
    requires lists.Valid()
    ensures r == ClearedFor(lists, vars)
  {
    r := lists;
    var i := 0;
    while i < |vars|
      invariant 0 <= i <= |vars|
      invariant r == ClearedFor(lists, vars[..i])
    {
      assert vars[..i + 1][..i] == vars[..i];
      r := r.Put(vars[i], []);
      i := i + 1;
    }
    assert vars[..i] == vars;
  }

  // ---------------------------------------------------------------- the window state

  class DataLoggerBase {
    /** `self.lists`: the history. */
    var lists: Lists
    /** `data_length_limit`: the length lists are cut to; 0 disables cutting. */
    var dataLengthLimit: int
    /** Whether the "limit data length" action is checked. */
    var limitDataLength: bool
    /** The text of the variables line edit. */
    var variablesText: string
    /** `_variables` and `_units`, as last read from or written to the text. */
    var variables: seq<string>
    var units: map<string, string>
    /** `current_units`: the units of the running measurement. */
    var currentUnits: map<string, string>
    /** The text of the header edit. */
    var headerText: string

    ghost predicate Valid()
      reads this
    {
      lists.Valid()
    }

    constructor (limit: int, limitChecked: bool, text: string)
      ensures Valid()
      ensures lists == Empty() && dataLengthLimit == limit && limitDataLength == limitChecked
      ensures variablesText == text && variables == [] && units == map[] && currentUnits == map[]
      ensures headerText == ""
    {
      headerText := "";
      lists := Empty();
      dataLengthLimit := limit;
      limitDataLength := limitChecked;
      variablesText := text;
      variables := [];
      units := map[];
      currentUnits := map[];
    }

    /** `cut_lists`: reassign every list to its last `data_length_limit` entries. */
    method CutLists()
      requires Valid()
      modifies this`lists
      ensures Valid()
      ensures lists == CutAll(old(lists), dataLengthLimit)
    {
      if dataLengthLimit == 0 {
        return;
      }
      var cut := CutEach(lists, dataLengthLimit);
      lists := cut;
    }

    /** The cut condition of `show_list_length` (the label update is not modelled). */
    method ShowListLength()
      requires Valid()
      modifies this`lists
      ensures Valid()
      ensures lists == AfterShow(old(lists), limitDataLength, dataLengthLimit)
    {
      if |lists.keys| == 0 {
        return;
      }
      var length := |lists.entries[lists.keys[0]]|;
      if limitDataLength && (length as real) > (dataLengthLimit as real) * 1.1 {
        CutLists();
      }
    }

    /** `_read_variables_and_units`: parse the text into `_variables` and `_units`. */
    method ReadVariablesAndUnits()
      modifies this`variables, this`units
      ensures (variables, units) == ParseVariablesText(variablesText)
    {
      var rawVars := Tokens(variablesText);
      var vars: seq<string> := [];
      var us: map<string, string> := map[];
      var i := 0;
      while i < |rawVars|
        invariant 0 <= i <= |rawVars|
        invariant (vars, us) == ParseTokens(rawVars[..i])
      {
        var rawVar := rawVars[i];
        var v;
        if ':' in rawVar {
          var colon := IndexOf(rawVar, ':');
          v := rawVar[..colon];
          us := us[v := rawVar[colon + 1..]];
        } else {
          v := rawVar;
        }
        vars := vars + [v];
        assert rawVars[..i + 1][..i] == rawVars[..i];
        i := i + 1;
      }
      assert rawVars[..i] == rawVars;
      variables := vars;
      units := us;
    }

    /** `_update_variables_and_units`: write `_variables` and `_units` back into the text. */
    method UpdateVariablesAndUnits()
      modifies this`variablesText
      ensures variablesText == FormatVariables(variables, units)
    {
      var items: seq<string> := [];
      var i := 0;
      while i < |variables|
        invariant 0 <= i <= |variables|
        invariant items == FormatItems(variables[..i], units)
      {
        var v := variables[i];
        if v in units && units[v] != [] {
          items := items + [v + ":" + units[v]];
        } else {
          items := items + [v];
        }
        i := i + 1;
      }
      assert variables[..i] == variables;
      variablesText := Join(", ", items);
    }

    /** The `variables` property: read the text, then return `_variables`. */
    method GetVariables() returns (vs: seq<string>)
      modifies this`variables, this`units
      ensures (variables, units) == ParseVariablesText(variablesText)
      ensures vs == variables
    {
      ReadVariablesAndUnits();
      vs := variables;
    }

    /** The `variables` setter: store the names and rewrite the text. */
    method SetVariables(vs: seq<string>)
      modifies this`variables, this`variablesText
      ensures variables == vs
      ensures variablesText == FormatVariables(vs, units)
    {
      variables := vs;
      UpdateVariablesAndUnits();
    }

    /** The `units` property: read the text, then return `_units`. */
    method GetUnits() returns (us: map<string, string>)
      modifies this`variables, this`units
      ensures (variables, units) == ParseVariablesText(variablesText)
      ensures us == units
    {
      ReadVariablesAndUnits();
      us := units;
    }

    /** The `units` setter: store the units and rewrite the text. */
    method SetUnits(us: map<string, string>)
      modifies this`units, this`variablesText
      ensures units == us
      ensures variablesText == FormatVariables(variables, us)
    {
      units := us;
      UpdateVariablesAndUnits();
    }

    /** The variables part of the window. */
    function Text(): TextState
      reads this
    {
      TextState(variables, units, variablesText)
    }

    /** The header and variables part of `_set_config`, key by key in the source's order. */
    method SetConfig(c: SavedConfig)
      modifies this`variables, this`units, this`variablesText, this`headerText
      ensures Text() == Configured(old(Text()), c)
      ensures headerText == if c.header.Some? then c.header.value else old(headerText)
    {
      if c.variables.Some? {
        SetVariables(c.variables.value);
      }
      if c.variablesText.Some? {
        variablesText := c.variablesText.value;
      }
      if c.units.Some? {
        SetUnits(c.units.value);
      }
      if c.header.Some? {
        headerText := c.header.value;
      }
      if c.unitsText.Some? {
        var current := GetUnits();
        var legacy := ReadLegacyUnits(c.unitsText.value);
        units := current + legacy;
      }
    }

    /**
     * `restore_configuration` with the configuration `read_configuration` returned: apply
     * it, then give every variable of the re-read text an empty list.
     */
    method RestoreConfiguration(c: SavedConfig)
      requires Valid()
      modifies this`variables, this`units, this`variablesText, this`headerText, this`lists
      ensures Valid()
      ensures variablesText == Configured(old(Text()), c).text
      ensures (variables, units) == ParseVariablesText(variablesText)
      ensures headerText == if c.header.Some? then c.header.value else old(headerText)
      ensures lists == ClearedFor(old(lists), variables)
    {
      SetConfig(c);
      var vs := GetVariables();
      lists := ClearEach(lists, vs);
    }

    /** `read_legacy_units`: the units of the comma-separated "key:unit" text. */
    method ReadLegacyUnits(text: string) returns (result: map<string, string>)
      ensures result == LegacyUnits(SplitOn(text, ','))
    {
      var elements := SplitOn(text, ',');
      result := map[];
      var i := 0;
      while i < |elements|
        invariant 0 <= i <= |elements|
        invariant result == CollectUnits(LegacyEntries(elements)[..i])
      {
        var element := elements[i];
        if element != [] {
          var parts := SplitOn(element, ':');
          if |parts| == 2 {
            result := result[Strip(parts[0]) := Strip(parts[1])];
          }
        }
        assert LegacyEntries(elements)[..i + 1][..i] == LegacyEntries(elements)[..i];
        i := i + 1;
      }
      assert LegacyEntries(elements)[..i] == LegacyEntries(elements);
    }
  }

  // ---------------------------------------------------------------- lemmas

  /** With limit 0 `cut_lists` changes nothing. */
  lemma CutDisabled(lists: Lists)
    ensures CutAll(lists, 0) == lists
  {
  }

  /** A positive limit keeps the key order and leaves every list its last min(limit, len) entries. */
  lemma CutKeepsLast(lists: Lists, limit: int)
    requires lists.Valid() && limit > 0
    ensures CutAll(lists, limit).Valid() && CutAll(lists, limit).keys == lists.keys
    ensures forall k :: k in lists.entries ==>
      var li := lists.entries[k];
      && |CutAll(lists, limit).entries[k]| == Min(limit, |li|)
      && CutAll(lists, limit).entries[k] == li[|li| - Min(limit, |li|)..]
  {
  }

  /** Without any list nothing is cut. */
  lemma NoListsNoCut(lists: Lists, limitChecked: bool, limit: int)
    requires lists.Valid() && lists.keys == []
    ensures AfterShow(lists, limitChecked, limit) == lists
  {
  }

  /** The hysteresis: with limit 100, 110 entries stay and 111 entries are cut to the last 100. */
  lemma HysteresisAtHundred(li: seq<Value>)
    requires |li| == 110 || |li| == 111
    ensures var lists := Dict(["x"], map["x" := li]);
      && (|li| == 110 ==> AfterShow(lists, true, 100) == lists)
      && (|li| == 111 ==> AfterShow(lists, true, 100).entries["x"] == li[11..])
  {
    var lists := Dict(["x"], map["x" := li]);
    assert lists.Valid();
  }

  /** A name has no blank before... every blank of a ", "-join follows a comma. */
  ghost predicate BlanksFollowCommas(s: string) {
    forall i :: 0 <= i < |s| && s[i] == ' ' ==> 0 < i && s[i - 1] == ','
  }

  lemma {:induction false} JoinBlanksFollowCommas(items: seq<string>)
    requires forall i :: 0 <= i < |items| ==> items[i] != [] && NoSpace(items[i])
    ensures BlanksFollowCommas(Join(", ", items))
    ensures items != [] ==> Join(", ", items) != [] && Join(", ", items)[0] == items[0][0]
    decreases |items|
  {
    if |items| == 1 {
      assert IsSpace(' ');
    } else if |items| > 1 {
      var a := items[0];
      var j := Join(", ", items[1..]);
      JoinBlanksFollowCommas(items[1..]);
      var s := a + ", " + j;
      assert Join(", ", items) == s;
      assert IsSpace(' ');
      forall i | 0 <= i < |s| && s[i] == ' ' ensures 0 < i && s[i - 1] == ',' {
        if i >= |a| + 2 {
          assert s[i] == j[i - |a| - 2];
          assert items[1][0] != ' ';
          if i - |a| - 2 > 0 {
            assert s[i - 1] == j[i - |a| - 3];
          }
        }
      }
    }
  }

  /** The format has no ": ", so the replacement of `_read_variables_and_units` leaves it as is. */
  lemma NoColonBlank(s: string)
    requires BlanksFollowCommas(s)
    ensures Replace(s, ": ", ":") == s
  {
    forall i: nat | i < |s| ensures !OccursAt(s, ": ", i) {
      if i + 2 <= |s| {
        assert s[i..i + 2][0] == s[i] && s[i..i + 2][1] == s[i + 1];
      }
    }
    ReplaceNoMatch(s, ": ", ":");
  }

  lemma FormatItemPlain(v: string, units: map<string, string>)
    requires PlainName(v)
    requires v in units ==> PlainUnit(units[v])
    ensures FormatItem(v, units) != [] && NoSpace(FormatItem(v, units)) && ',' !in FormatItem(v, units)
  {
    if v in units && units[v] != [] {
      var t := v + ":" + units[v];
      assert IsSpace(':') == false;
      forall i | 0 <= i < |t| ensures !IsSpace(t[i]) && t[i] != ',' {
        if i < |v| { assert t[i] == v[i]; }
        else if i > |v| { assert t[i] == units[v][i - |v| - 1]; }
      }
    }
  }

  /** Appending a name to the list adds its unit when the unit is non-empty. */
  lemma ListedUnitsSnoc(units: map<string, string>, vars: seq<string>, v: string)
    ensures ListedUnits(units, vars + [v]) ==
      if v in units && units[v] != [] then ListedUnits(units, vars)[v := units[v]]
      else ListedUnits(units, vars)
  {
  }

  /** The variable and unit of an item "v:u" whose name has no colon. */
  lemma ItemWithUnit(v: string, u: string)
    requires ':' !in v
    ensures ':' in v + ":" + u && TokenVariable(v + ":" + u) == v && TokenUnit(v + ":" + u) == u
  {
    var t := v + ":" + u;
    assert t == v + (":" + u);
    IndexOfAfter(v, ":" + u, ':');
    assert t[..|v|] == v;
    assert t[|v| + 1..] == u;
  }

  /** Parsing the formatted entries gives the names back with the units of listed, non-empty units. */
  lemma {:induction false} ParseFormatItems(vars: seq<string>, units: map<string, string>)
    requires forall i :: 0 <= i < |vars| ==> ':' !in vars[i]
    ensures ParseTokens(FormatItems(vars, units)) == (vars, ListedUnits(units, vars))
    decreases |vars|
  {
    if vars != [] {
      var n := |vars| - 1;
      var v := vars[n];
      var items := FormatItems(vars, units);
      assert items[..n] == FormatItems(vars[..n], units);
      ParseFormatItems(vars[..n], units);
      assert vars == vars[..n] + [v];
      ListedUnitsSnoc(units, vars[..n], v);
      if v in units && units[v] != [] {
        ItemWithUnit(v, units[v]);
      }
    } else {
      assert ListedUnits(units, vars) == map[];
    }
  }

  /**
   * Writing the names and units into the text and reading the text back returns the same
   * names, with the units of the listed names whose unit is non-empty.
   */
  lemma ParseFormatRoundTrip(vars: seq<string>, units: map<string, string>)
    requires forall i :: 0 <= i < |vars| ==> PlainName(vars[i])
    requires forall i :: 0 <= i < |vars| && vars[i] in units ==> PlainUnit(units[vars[i]])
    ensures ParseVariablesText(FormatVariables(vars, units)) == (vars, ListedUnits(units, vars))
  {
    var items := FormatItems(vars, units);
    forall i | 0 <= i < |items| ensures items[i] != [] && NoSpace(items[i]) && ',' !in items[i] {
      FormatItemPlain(vars[i], units);
    }
    var text := Join(", ", items);
    JoinBlanksFollowCommas(items);
    NoColonBlank(text);
    ReplaceCharJoin(", ", items, ',', ' ');
    assert ReplaceChar(", ", ',', ' ') == "  ";
    forall i | 0 <= i < 2 ensures IsSpace("  "[i]) { }
    SplitJoin("  ", items);
    ParseFormatItems(vars, units);
  }

  /** A unit is set exactly for the variables of tokens with a colon. */
  lemma {:induction false} ParsedUnitKeys(tokens: seq<string>)
    ensures forall k :: k in ParseTokens(tokens).1 <==>
      exists i :: 0 <= i < |tokens| && ':' in tokens[i] && TokenVariable(tokens[i]) == k
    decreases |tokens|
  {
    if tokens != [] {
      var n := |tokens| - 1;
      var prefix := tokens[..n];
      ParsedUnitKeys(prefix);
      forall i | 0 <= i < n ensures prefix[i] == tokens[i] { }
    }
  }

  /** The last token with a colon for a variable decides its unit. */
  lemma ParsedUnitValue(tokens: seq<string>, i: int)
    requires 0 <= i < |tokens| && ':' in tokens[i] && LastWithUnit(tokens, i)
    ensures TokenVariable(tokens[i]) in ParseTokens(tokens).1
    ensures ParseTokens(tokens).1[TokenVariable(tokens[i])] == TokenUnit(tokens[i])
  {
    ParsedUnitsCollected(tokens);
    var es := TokenEntries(tokens);
    assert LastEntry(es, i) by {
      forall j | i < j < |es| && es[j].Some? ensures es[j].value.0 != es[i].value.0 { }
    }
    CollectedEntryKept(es, i);
  }

  /** The entry a token gives: its variable and unit when it has a colon. */
  function TokenEntry(t: string): Option<(string, string)> {
    if ':' in t then Some((TokenVariable(t), TokenUnit(t))) else None
  }

  function TokenEntries(tokens: seq<string>): (r: seq<Option<(string, string)>>)
    ensures |r| == |tokens|
  {
    seq(|tokens|, i requires 0 <= i < |tokens| => TokenEntry(tokens[i]))
  }

  /** The units of the tokens are the units collected from their entries. */
  lemma {:induction false} ParsedUnitsCollected(tokens: seq<string>)
    ensures ParseTokens(tokens).1 == CollectUnits(TokenEntries(tokens))
    decreases |tokens|
  {
    if tokens != [] {
      var n := |tokens| - 1;
      ParsedUnitsCollected(tokens[..n]);
      assert TokenEntries(tokens)[..n] == TokenEntries(tokens[..n]);
      ParseTokensLast(tokens);
    }
  }

  /** The units after the last token: those of the earlier tokens, updated by it if it has a colon. */
  lemma ParseTokensLast(tokens: seq<string>)
    requires tokens != []
    ensures var n := |tokens| - 1;
      ParseTokens(tokens).1 == if ':' in tokens[n]
        then ParseTokens(tokens[..n]).1[TokenVariable(tokens[n]) := TokenUnit(tokens[n])]
        else ParseTokens(tokens[..n]).1
  {
  }

  /** Token `i` has a colon and no later token with a colon names the same variable. */
  ghost predicate LastWithUnit(tokens: seq<string>, i: int)
    requires 0 <= i < |tokens|
  {
    forall j :: i < j < |tokens| && ':' in tokens[j] ==> TokenVariable(tokens[j]) != TokenVariable(tokens[i])
  }

  /** Entry `i` is valid and no later valid entry has the same key. */
  ghost predicate LastEntry(entries: seq<Option<(string, string)>>, i: int)
    requires 0 <= i < |entries| && entries[i].Some?
  {
    forall j :: i < j < |entries| && entries[j].Some? ==> entries[j].value.0 != entries[i].value.0
  }

  /** Every collected key comes from a valid entry. */
  lemma {:induction false} CollectedKeysFromEntries(entries: seq<Option<(string, string)>>, k: string)
    requires k in CollectUnits(entries)
    ensures exists i :: 0 <= i < |entries| && entries[i].Some? && entries[i].value.0 == k
    decreases |entries|
  {
    var n := |entries| - 1;
    if !(entries[n].Some? && entries[n].value.0 == k) {
      CollectedKeysFromEntries(entries[..n], k);
      var i :| 0 <= i < n && entries[..n][i].Some? && entries[..n][i].value.0 == k;
      assert entries[..n][i] == entries[i];
    }
  }

  /** Every valid entry puts its key in, and the last entry for a key decides its value. */
  lemma {:induction false} CollectedEntryKept(entries: seq<Option<(string, string)>>, i: int)
    requires 0 <= i < |entries| && entries[i].Some?
    ensures entries[i].value.0 in CollectUnits(entries)
    ensures LastEntry(entries, i) ==> CollectUnits(entries)[entries[i].value.0] == entries[i].value.1
    decreases |entries|
  {
    var n := |entries| - 1;
    var prefix := entries[..n];
    if i < n {
      assert prefix[i] == entries[i];
      CollectedEntryKept(prefix, i);
      if LastEntry(entries, i) {
        assert LastEntry(prefix, i) by {
          forall j | i < j < n && prefix[j].Some? ensures prefix[j].value.0 != prefix[i].value.0 {
            assert prefix[j] == entries[j];
          }
        }
      }
    }
  }

  /**
   * `read_legacy_units` has a key exactly for the stripped keys of the elements with one
   * colon, and each key gets the stripped unit of the last such element.
   */
  lemma LegacyUnitsMeaning(elements: seq<string>)
    ensures forall k :: k in LegacyUnits(elements) <==>
      exists i :: 0 <= i < |elements| && LegacyEntries(elements)[i].Some? && LegacyEntries(elements)[i].value.0 == k
    ensures forall i :: 0 <= i < |elements| && LegacyEntries(elements)[i].Some? && LastEntry(LegacyEntries(elements), i) ==>
      LegacyUnits(elements)[LegacyEntries(elements)[i].value.0] == LegacyEntries(elements)[i].value.1
  {
    var es := LegacyEntries(elements);
    forall k | k in LegacyUnits(elements)
      ensures exists i :: 0 <= i < |elements| && es[i].Some? && es[i].value.0 == k
    {
      CollectedKeysFromEntries(es, k);
    }
    forall i | 0 <= i < |elements| && es[i].Some?
      ensures es[i].value.0 in LegacyUnits(elements)
      ensures LastEntry(es, i) ==> LegacyUnits(elements)[es[i].value.0] == es[i].value.1
    {
      CollectedEntryKept(es, i);
    }
  }

  /** The tokens of any variables text have no blank and no comma. */
  lemma TokensPlain(text: string)
    ensures forall i :: 0 <= i < |Tokens(text)| ==> Tokens(text)[i] != [] && PlainUnit(Tokens(text)[i])
  {
    var spaced := ReplaceChar(Replace(text, ": ", ":"), ',', ' ');
    assert ',' !in spaced by {
      forall i | 0 <= i < |spaced| ensures spaced[i] != ',' { }
    }
    SplitKeepsAbsent(spaced, ',');
  }

  /** The variable and the unit of a plain token are plain; the variable has no colon. */
  lemma TokenPartsPlain(t: string)
    requires PlainUnit(t)
    ensures NoSpace(TokenVariable(t)) && ',' !in TokenVariable(t) && ':' !in TokenVariable(t)
    ensures ':' in t ==> PlainUnit(TokenUnit(t))
  {
    if ':' in t {
      var c := IndexOf(t, ':');
      var v, u := t[..c], t[c + 1..];
      forall i | 0 <= i < |v| ensures !IsSpace(v[i]) && v[i] != ',' { assert v[i] == t[i]; }
      forall i | 0 <= i < |u| ensures !IsSpace(u[i]) && u[i] != ',' { assert u[i] == t[c + 1 + i]; }
    }
  }

  /** Every unit collected from plain tokens is plain. */
  lemma {:induction false} ParsedUnitsPlain(tokens: seq<string>)
    requires forall i :: 0 <= i < |tokens| ==> PlainUnit(tokens[i])
    ensures forall k :: k in ParseTokens(tokens).1 ==> PlainUnit(ParseTokens(tokens).1[k])
    decreases |tokens|
  {
    if tokens != [] {
      var n := |tokens| - 1;
      ParsedUnitsPlain(tokens[..n]);
      TokenPartsPlain(tokens[n]);
    }
  }

  /**
   * What `_read_variables_and_units` reads from any text can be written back: its names
   * have no blank, comma or colon, and its units no blank or comma.
   */
  lemma ParsedPlain(text: string)
    ensures var (vars, units) := ParseVariablesText(text);
      && (forall i :: 0 <= i < |vars| ==> NoSpace(vars[i]) && ',' !in vars[i] && ':' !in vars[i])
      && (forall k :: k in units ==> PlainUnit(units[k]))
  {
    var tokens := Tokens(text);
    TokensPlain(text);
    forall i | 0 <= i < |tokens| ensures PlainUnit(tokens[i]) { }
    ParsedUnitsPlain(tokens);
    forall i | 0 <= i < |tokens|
      ensures NoSpace(TokenVariable(tokens[i])) && ',' !in TokenVariable(tokens[i]) && ':' !in TokenVariable(tokens[i])
    {
      TokenPartsPlain(tokens[i]);
    }
  }

  /** The two texts of the parser's examples are what the formatter writes for their results. */
  lemma FormatExamples()
    ensures FormatVariables(["time", "random"], map["time" := "s"]) == "time:s, random"
    ensures FormatVariables(["abc", ".def"], map[]) == "abc, .def"
  {
    var r := FormatItems(["time", "random"], map["time" := "s"]);
    assert r[0] == FormatItem("time", map["time" := "s"]) == "time:s";
    assert r[1] == FormatItem("random", map["time" := "s"]) == "random";
    assert r == ["time:s", "random"];
    var q := FormatItems(["abc", ".def"], map[]);
    assert q[0] == "abc" && q[1] == ".def";
    assert q == ["abc", ".def"];
  }

  /** "time:s, random" reads as the names "time" and "random", and "time" has the unit "s". */
  lemma ParseExampleWithUnit()
    ensures ParseVariablesText("time:s, random") == (["time", "random"], map["time" := "s"])
  {
    ExampleWithUnitPlain();
    ParseFormatRoundTrip(["time", "random"], map["time" := "s"]);
    FormatExamples();
  }

  /** The names and the unit of the first example can be carried by the text format. */
  lemma ExampleWithUnitPlain()
    ensures var vars, units := ["time", "random"], map["time" := "s"];
      && (forall i :: 0 <= i < |vars| ==> PlainName(vars[i]))
      && (forall i :: 0 <= i < |vars| && vars[i] in units ==> PlainUnit(units[vars[i]]))
      && ListedUnits(units, vars) == units
  {
    var vars, units := ["time", "random"], map["time" := "s"];
    assert PlainName("time") && PlainName("random") && PlainUnit("s");
    forall i | 0 <= i < |vars| ensures PlainName(vars[i]) {
      assert vars[i] == "time" || vars[i] == "random";
    }
    assert ListedUnits(units, vars) == units;
  }

  /** "abc, .def" reads as the names "abc" and ".def", without units. */
  lemma ParseExampleWithoutUnits()
    ensures ParseVariablesText("abc, .def") == (["abc", ".def"], map[])
  {
    FormatExamples();
    assert PlainName("abc") && PlainName(".def");
    ParseFormatRoundTrip(["abc", ".def"], map[]);
    assert ListedUnits(map[], ["abc", ".def"]) == map[];
  }

  // ---------------------------------------------------------------- saved configuration lemmas

  /** An empty configuration dict leaves the variables part as it is. */
  lemma ConfiguredNothing(s: TextState)
    ensures Configured(s, NoConfig) == s
  {
  }

  /** A saved variables text becomes the line when no units follow it. */
  lemma ConfiguredTextWins(s: TextState, c: SavedConfig)
    requires c.variablesText.Some? && c.units.None?
    ensures Configured(s, c).text == c.variablesText.value
  {
  }

  /**
   * The units setter rewrites the line from `_variables`, which a saved variables text
   * does not change: with units given, the line is built from the saved names, or else
   * from the names before, whatever text was saved.
   */
  lemma ConfiguredUnitsWritten(s: TextState, c: SavedConfig)
    requires c.units.Some?
    ensures Configured(s, c).text ==
      FormatVariables(if c.variables.Some? then c.variables.value else s.variables, c.units.value)
  {
  }

  /** The legacy units text updates `_units` only: the line is the same without it. */
  lemma LegacyUnitsNotWritten(s: TextState, c: SavedConfig)
    ensures Configured(s, c).text == Configured(s, c.(unitsText := None)).text
  {
  }

  /**
   * A configuration as `get_configuration` stores it (the header, the variables, the
   * units and an empty legacy text) restores the line that writes those names and units,
   * and reading that line back gives the names with their listed non-empty units.
   */
  lemma StoredConfigurationRestored(s: TextState, header: string, vars: seq<string>, units: map<string, string>)
    requires forall i :: 0 <= i < |vars| ==> PlainName(vars[i])
    requires forall i :: 0 <= i < |vars| && vars[i] in units ==> PlainUnit(units[vars[i]])
    ensures var r := Configured(s, SavedConfig(Some(header), Some(vars), None, Some(units), Some("")));
      && r.text == FormatVariables(vars, units)
      && r.variables == vars
      && r.units == ListedUnits(units, vars)
  {
    ParseFormatRoundTrip(vars, units);
    assert SplitOn("", ',') == [""];
    assert LegacyEntries([""]) == [None];
    assert LegacyEntries([""])[..0] == [];
  }

  // ---------------------------------------------------------------- the first restore

  /**
   * The variables part during the first `restore_configuration` of `__init__`, as written:
   * `setup_lists` only annotates `_variables` and `_units`, so each is `None` until
   * something assigns it.
   */
  datatype FirstState = FirstState(variables: Option<seq<string>>, units: Option<map<string, string>>, text: string)

  /**
   * `_set_config` as written on that state; `None` is the AttributeError. The variables
   * setter reads `_units` once for each name, the units setter iterates `_variables`, and
   * the units getter of `unitsText` assigns both from the text.
   */
  function FirstConfigured(s: FirstState, c: SavedConfig): Option<FirstState> {
    var s1 :=
      if c.variables.None? then Some(s)
      else if c.variables.value != [] && s.units.None? then None
      else Some(FirstState(c.variables, s.units,
        FormatVariables(c.variables.value, if s.units.Some? then s.units.value else map[])));
    match s1
    case None => None
    case Some(s1) =>
      var s2 := if c.variablesText.Some? then s1.(text := c.variablesText.value) else s1;
      if c.units.Some? && s2.variables.None? then None
      else
        var s3 := if c.units.Some? then FirstState(s2.variables, c.units, FormatVariables(s2.variables.value, c.units.value)) else s2;
        if c.unitsText.Some? then
          var (vars, units) := ParseVariablesText(s3.text);
          Some(FirstState(Some(vars), Some(units + LegacyUnits(SplitOn(c.unitsText.value, ','))), s3.text))
        else Some(s3)
  }

  /**
   * The first `restore_configuration` as written, from the line's initial `text`: the
   * names and units the loop's getter reads back, or `None` for the AttributeError.
   */
  function FirstRestore(text: string, c: SavedConfig): Option<(seq<string>, map<string, string>)> {
    match FirstConfigured(FirstState(None, None, text), c)
    case None => None
    case Some(s) => Some(ParseVariablesText(s.text))
  }

  /**
   * The first restore as evidently intended, and as the constructors here model it:
   * `_variables` and `_units` start as `[]` and `{}`.
   */
  function InitialRestore(text: string, c: SavedConfig): (seq<string>, map<string, string>) {
    ParseVariablesText(Configured(TextState([], map[], text), c).text)
  }

  /**
   * As written, the first restore raises exactly when the configuration names variables,
   * or gives units without a `variables` key; otherwise it agrees with the intended one.
   */
  lemma FirstRestoreRaises(text: string, c: SavedConfig)
    ensures FirstRestore(text, c).None? <==>
      (c.variables.Some? && c.variables.value != []) || (c.variables.None? && c.units.Some?)
    ensures FirstRestore(text, c).Some? ==> FirstRestore(text, c).value == InitialRestore(text, c)
  {
    if c.variables == Some([]) {
      assert FormatItems([], map[]) == [];
      assert c.units.Some? ==> FormatItems([], c.units.value) == [];
    }
  }

  /**
   * So every configuration `get_configuration` stores with at least one variable makes
   * the first restore raise.
   */
  lemma StoredConfigurationRaises(text: string, header: string, vars: seq<string>, units: map<string, string>)
    requires vars != []
    ensures FirstRestore(text, SavedConfig(Some(header), Some(vars), None, Some(units), Some(""))).None?
  {
  }

  /** Starting from `[]` and `{}`, the same configuration restores its names and units. */
  lemma InitialRestoreStored(text: string, header: string, vars: seq<string>, units: map<string, string>)
    requires forall i :: 0 <= i < |vars| ==> PlainName(vars[i])
    requires forall i :: 0 <= i < |vars| && vars[i] in units ==> PlainUnit(units[vars[i]])
    ensures InitialRestore(text, SavedConfig(Some(header), Some(vars), None, Some(units), Some(""))) ==
      (vars, ListedUnits(units, vars))
  {
    StoredConfigurationRestored(TextState([], map[], text), header, vars, units);
    ParseFormatRoundTrip(vars, units);
  }

  /** After the loop of `restore_configuration`, every variable has an empty list and other lists are kept. */
  lemma {:induction false} ClearedForLists(lists: Lists, vars: seq<string>)
    requires lists.Valid()
    ensures forall k :: k in ClearedFor(lists, vars).entries <==> k in lists.entries || k in vars
    ensures forall k :: k in ClearedFor(lists, vars).entries ==>
      ClearedFor(lists, vars).entries[k] == if k in vars then [] else lists.entries[k]
    decreases |vars|
  {
    if vars != [] {
      var n := |vars| - 1;
      ClearedForLists(lists, vars[..n]);
      assert vars == vars[..n] + [vars[n]];
    }
  }
}
