# pyleco-extras core, modelled in Dafny

This project models the deterministic core of pyleco-extras, the collection of LECO tools
around pyleco. It covers these parts:

- **The DataLogger family.**
  - The trigger state machine of `DataLoggerCore`: pause and resume, and changing the
    trigger at run time.
  - The configuration that `start_collecting` reports.
  - The `time_h` hour column.
  - The history lists shared by every window: cutting them to a length limit, and the
    "variables:units" text line that names the variables.
  - Following a remote data logger.
  - Viewing a saved file, and reading such a file from disk (`load_datalogger_file`).
- **The Trinamic motor tools.**
  - Conversion between microsteps and user units, and the two's-complement reading of the
    card's registers. `motor_utils.py` and `motors.py` hold the same three functions, so
    module `MotorUtils` models both.
  - The motor actor: names resolved to numbers, configurations kept per motor, and the
    voltage gate on every move.
- **Small listeners.**
  - The republisher, which renames and transforms values.
  - The topic collector.
  - The log logger, which keeps one table of log rows per emitter and reconciles
    subscriptions.

Files and modules, one module per file:

| file | module | models |
|---|---|---|
| wrappers.dfy | Wrappers | `Option` and `Result` |
| dicts.dfy | Dicts | Python's insertion-ordered `dict`, as keys in order plus a map |
| pystr.dfy | PyStr | the `str` methods the core uses (`split`, `replace`, `strip`, `join`, `lower`, ...) |
| history.dfy | History | history values (a number or NaN) and Python slicing |
| base.dfy | LoggerBase | `DataLoggerBase`: list cutting, the variables text, legacy units |
| listener.dfy | Listener | `DataLoggerCore`: triggers, configuration, `time_h` |
| remote.dfy | Remote | `DataLoggerRemote` |
| viewer.dfy | Viewer | `DataLoggerViewer` |
| loadfile.dfy | LoadFile | `load_datalogger_file` |
| motorutils.dfy | MotorUtils | `stepsToUnits`, `unitsToSteps`, `toSignedInt` |
| motoractor.dfy | MotorActor | `TMCMotorActor` |
| republisher.dfy | Republisher | `Republisher` |
| topiccollector.dfy | TopicCollector | `TopicCollector` |
| loglogger.dfy | LogLogger | `LogLogger` |

How the model is built:

- **Objects that update their fields are classes.** `DataLoggerBase`, `DataLoggerCore`,
  `DataLoggerRemote`, `DataLoggerViewer`, `TMCMotorActor`, `RepublisherActor`,
  `TopicCollectorListener` and `LogLoggerWindow` are classes with `modifies` clauses.
- **Each method is specified by a pure function.** Its `ensures` ties the new state to a
  function of the old state, and the lemmas prove what the source promises about that
  function.
- **Loops stay loops.** Loops in the source are `for` or `while` loops with invariants.
  For example, `start_collecting` deletes None entries, the file loader probes extensions
  and reads header lines, and `subscribe` has two loops.
- **Inheritance is composition.** The remote and viewer windows hold the shared
  `DataLoggerBase` in a `base` field.
- **Foreign calls are recorded.** Calls into code that is not shown are kept in fields:
  - timer start and cancel;
  - commands sent to the motor card;
  - subscribe and unsubscribe;
  - published data;
  - configurations reported.
- **Clocks and device readings are parameters.** The clock reading and the card's analog
  input are passed in.

Two behaviours are kept as the code has them:

- `LogLogger.subscribe` decides whether to subscribe by comparing a key's full name with
  the old *raw* keys. A key without a node that stays in the list is therefore subscribed
  again on every call. `LogLogger.SubscribeAgain` shows this.
- `DataLoggerViewer.start` computes `time_h` from the whole `time` column, before the
  column is shortened. `Viewer.HourColumnFromUnsanitized` shows this.

## Model

| member | source | states |
|---|---|---|
| History.OrNaN | pyleco_extras/gui/data_logger/data_logger_remote.py:247-248 | a missing value (None) becomes NaN, and a present value is kept |
| History.SliceIndex | pyleco_extras/gui/data_logger/data_logger_base.py:129 | the index Python uses for a slice bound: a non-negative bound is capped at the length, a negative one counts from the end and is floored at 0 |
| History.LastElements | pyleco_extras/gui/data_logger/data_logger_base.py:129 | `li[-n:]` for a positive n is the last min(n, len(li)) elements |
| History.FirstElements | pyleco_extras/gui/data_logger/data_logger_viewer.py:88 | `li[:n]` for a non-negative n is the first min(n, len(li)) elements |
| LoggerBase.DataLoggerBase.constructor | pyleco_extras/gui/data_logger/data_logger_base.py:116-121 | starts with empty history lists, `_variables` and `_units` as `[]` and `{}` (the intended initial state, see Findings), an empty header, and the given limit settings and text |
| LoggerBase.CutEach | pyleco_extras/gui/data_logger/data_logger_base.py:128-129 | the loop over the keys returns `CutAll`: the same keys in the same order, each list reduced to its last `limit` entries |
| LoggerBase.DataLoggerBase.CutLists | pyleco_extras/gui/data_logger/data_logger_base.py:123-129 | the loop reassigns every list so that the history equals `CutAll` of the old history |
| LoggerBase.CutDisabled | pyleco_extras/gui/data_logger/data_logger_base.py:125-126 | with limit 0, cutting changes nothing |
| LoggerBase.CutKeepsLast | pyleco_extras/gui/data_logger/data_logger_base.py:128-129 | a positive limit keeps the keys and their order, and leaves each list exactly its last min(limit, len) entries |
| LoggerBase.DataLoggerBase.ShowListLength | pyleco_extras/gui/data_logger/data_logger_base.py:582-590 | the history is cut exactly when the limit action is checked and the first list is longer than 1.1 times the limit |
| LoggerBase.NoListsNoCut | pyleco_extras/gui/data_logger/data_logger_base.py:583-586 | without any list, `show_list_length` cuts nothing |
| LoggerBase.HysteresisAtHundred | pyleco_extras/gui/data_logger/data_logger_base.py:587-590 | with limit 100, a list of 110 entries stays whole, and one of 111 entries is cut to its last 100 |
| LoggerBase.ParseTokens | pyleco_extras/gui/data_logger/data_logger_base.py:252-259 | every token gives exactly one variable, in token order: the part before its first colon |
| LoggerBase.ParsedUnitKeys | pyleco_extras/gui/data_logger/data_logger_base.py:252-259 | a variable gets a unit exactly when some token for it has a colon |
| LoggerBase.ParsedUnitValue | pyleco_extras/gui/data_logger/data_logger_base.py:254-256 | the last token with a colon for a variable decides its unit |
| LoggerBase.DataLoggerBase.ReadVariablesAndUnits | pyleco_extras/gui/data_logger/data_logger_base.py:248-261 | stores the names and units that `ParseVariablesText` reads from the text line |
| LoggerBase.DataLoggerBase.UpdateVariablesAndUnits | pyleco_extras/gui/data_logger/data_logger_base.py:263-271 | writes "v:u" for each name with a non-empty unit and "v" otherwise, joined by ", " |
| LoggerBase.FormatItems | pyleco_extras/gui/data_logger/data_logger_base.py:265-270 | one entry per variable, in order |
| LoggerBase.ParseFormatRoundTrip | pyleco_extras/gui/data_logger/data_logger_base.py:248-291 | reading back a written text gives the same names, and the units of listed names whose unit is non-empty, for names without blank, comma or colon and units without blank or comma |
| LoggerBase.ParsedPlain | pyleco_extras/gui/data_logger/data_logger_base.py:248-261 | any name read from any text has no blank, comma or colon, and any unit has no blank or comma, so whatever is read can be written back |
| LoggerBase.FormatExamples | tests/gui/data_logger/test_data_logger_base.py:45-51 | the formatter writes "time:s, random" for time in s plus random, and "abc, .def" for two names without units |
| LoggerBase.ParseExampleWithUnit | tests/gui/data_logger/test_data_logger_base.py:45 | "time:s, random" reads as ["time", "random"] with {"time": "s"} |
| LoggerBase.ParseExampleWithoutUnits | tests/gui/data_logger/test_data_logger_base.py:51 | "abc, .def" reads as ["abc", ".def"] without units |
| LoggerBase.DataLoggerBase.SetConfig | pyleco_extras/gui/data_logger/data_logger_base.py:409-418 | the variables part becomes `Configured` of the old one, key by key in the source's order, and the header is replaced exactly when the configuration has one |
| LoggerBase.ConfiguredNothing | pyleco_extras/gui/data_logger/data_logger_base.py:409-418 | the empty configuration `{}` changes neither names, units nor text |
| LoggerBase.ConfiguredTextWins | pyleco_extras/gui/data_logger/data_logger_base.py:411-412 | a saved variables text becomes the line when no units follow it |
| LoggerBase.ConfiguredUnitsWritten | pyleco_extras/gui/data_logger/data_logger_base.py:409-414 | with units given, the line is rewritten from the saved names, or else from the names before; a saved variables text is then overwritten |
| LoggerBase.LegacyUnitsNotWritten | pyleco_extras/gui/data_logger/data_logger_base.py:417-418 | the legacy units text changes the stored units only, never the line |
| LoggerBase.StoredConfigurationRestored | pyleco_extras/gui/data_logger/data_logger_base.py:409-418 | a configuration as `get_configuration` stores it (header, names, units, empty legacy text) restores the line writing those names and units, with the names and the non-empty units of listed names |
| LoggerBase.ClearEach | pyleco_extras/gui/data_logger/data_logger_base.py:151-152 | the loop over the variables returns `ClearedFor` of the lists |
| LoggerBase.ClearedForLists | pyleco_extras/gui/data_logger/data_logger_base.py:151-152 | afterwards every variable has an empty list, and every other list is kept as it was |
| LoggerBase.FirstRestoreRaises | pyleco_extras/gui/data_logger/data_logger_base.py:263-291 | as written, the first restore raises AttributeError exactly when the configuration names variables, or gives units without a `variables` key; otherwise it restores what the intended one does |
| LoggerBase.StoredConfigurationRaises | pyleco_extras/gui/data_logger/data_logger_base.py:221-233 | as written, every configuration `get_configuration` stores with at least one variable makes the first restore raise |
| LoggerBase.InitialRestoreStored | pyleco_extras/gui/data_logger/data_logger_base.py:148-152 | from `[]` and `{}`, restoring a stored configuration gives back its names and their non-empty units |
| LoggerBase.DataLoggerBase.RestoreConfiguration | pyleco_extras/gui/data_logger/data_logger_base.py:148-152 | the line is that of the applied configuration, names and units are re-read from it, the header follows the configuration, and the lists are `ClearedFor` the re-read names |
| LoggerBase.DataLoggerBase.GetVariables | pyleco_extras/gui/data_logger/data_logger_base.py:273-276 | the `variables` getter re-reads the text first, then returns the names read |
| LoggerBase.DataLoggerBase.SetVariables | pyleco_extras/gui/data_logger/data_logger_base.py:278-281 | the `variables` setter stores the names and rewrites the text with the current units |
| LoggerBase.DataLoggerBase.GetUnits | pyleco_extras/gui/data_logger/data_logger_base.py:283-286 | the `units` getter re-reads the text first, then returns the units read |
| LoggerBase.DataLoggerBase.SetUnits | pyleco_extras/gui/data_logger/data_logger_base.py:288-291 | the `units` setter stores the units and rewrites the text with the current names |
| LoggerBase.LegacyEntries | pyleco_extras/gui/data_logger/data_logger_base.py:365-372 | one parsed entry per comma-separated element, in order |
| LoggerBase.DataLoggerBase.ReadLegacyUnits | pyleco_extras/gui/data_logger/data_logger_base.py:360-373 | the loop over the elements returns `LegacyUnits` of the comma split of the text |
| LoggerBase.LegacyUnitsMeaning | pyleco_extras/gui/data_logger/data_logger_base.py:360-373 | a key is present exactly for elements with exactly one colon, stripped; its unit is the stripped unit of the last such element |
| LoggerBase.CollectedKeysFromEntries | pyleco_extras/gui/data_logger/data_logger_base.py:368-372 | every collected key comes from a valid element |
| LoggerBase.CollectedEntryKept | pyleco_extras/gui/data_logger/data_logger_base.py:368-372 | every valid element puts its key in, and the last element for a key decides its value |
| Listener.DataLoggerCore.constructor | pyleco_extras/gui/data_logger/data/data_logger_listener.py:29-33 | starts with no stored trigger, no timer, empty lists and no reported configuration |
| Listener.DataLoggerCore.Pause | pyleco_extras/gui/data_logger/data/data_logger_listener.py:109-126 | the new trigger state is `Paused` of the old one |
| Listener.PauseStoresTrigger | pyleco_extras/gui/data_logger/data/data_logger_listener.py:111-120 | pausing a running measurement stores its trigger type, sets NONE and disarms an existing timer without touching its interval |
| Listener.PauseIdempotent | pyleco_extras/gui/data_logger/data/data_logger_listener.py:112 | pausing a paused measurement changes nothing, so pausing twice is pausing once |
| Listener.ResumeRestores | pyleco_extras/gui/data_logger/data/data_logger_listener.py:121-126 | resuming restores exactly the stored trigger, starts a timer only for TIMER, and clears the stored trigger; resuming without a stored trigger is a no-op |
| Listener.PauseThenResume | pyleco_extras/gui/data_logger/data/data_logger_listener.py:109-126 | pause then resume gives back the trigger type from before the pause, and a running timer for TIMER |
| Listener.DataLoggerCore.SetTriggerType | pyleco_extras/gui/data_logger/data/data_logger_listener.py:128-135 | the new state is `WithType` of the old one |
| Listener.SetTypeArmsOnlyTimer | pyleco_extras/gui/data_logger/data/data_logger_listener.py:128-135 | sets the type, leaves the stored trigger alone, and a timer runs afterwards exactly when the new type is TIMER; otherwise the old timer is cancelled |
| Listener.DataLoggerCore.SetTriggerInterval | pyleco_extras/gui/data_logger/data/data_logger_listener.py:137-141 | the new state is `WithInterval` of the old one |
| Listener.SetIntervalOnlyTimer | pyleco_extras/gui/data_logger/data/data_logger_listener.py:137-141 | changes only the interval of an existing timer, and nothing at all without a timer |
| Listener.DataLoggerCore.SetTriggerVariable | pyleco_extras/gui/data_logger/data/data_logger_listener.py:143-144 | changes only the trigger variable |
| Listener.DataLoggerCore.CancelTimer | pyleco_extras/gui/data_logger/data/data_logger_listener.py:115-118 | an existing timer is disarmed, and a missing one is ignored |
| Listener.DataLoggerCore.StartTimerTrigger | pyleco_extras/gui/data_logger/data/data_logger_listener.py:124-125 | a running timer with the trigger timeout as its interval is installed |
| Listener.RawConfiguration | pyleco_extras/gui/data_logger/data/data_logger_listener.py:80-88 | the configuration dict has the seven keys in the order it is built |
| Listener.RawEntriesFollowArguments | pyleco_extras/gui/data_logger/data/data_logger_listener.py:80-88 | each entry is None exactly when its argument is |
| Listener.PresentKeys | pyleco_extras/gui/data_logger/data/data_logger_listener.py:89-91 | the kept keys are exactly the keys whose value is not None, without repetitions |
| Listener.FilterConfiguration | pyleco_extras/gui/data_logger/data/data_logger_listener.py:89-91 | the deleting loop keeps exactly the non-None entries, with their values and in their order |
| Listener.NoneLeavesNothing | pyleco_extras/gui/data_logger/data/data_logger_listener.py:89-91 | when every argument is None, the configuration is empty |
| Listener.DataLoggerCore.StartCollecting | pyleco_extras/gui/data_logger/data/data_logger_listener.py:60-97 | reports exactly one configuration holding exactly the arguments that are not None, emits `started` once and stores the start of the day |
| Listener.DataLoggerCore.CalculateData | pyleco_extras/gui/data_logger/data/data_logger_listener.py:35-47 | without `time_h` the datapoint is unchanged; with it, `time_h` is set and the last entry of the `time_h` list is overwritten with the same value; a missing or empty list is the KeyError or IndexError the code raises |
| Listener.HourFromTime | pyleco_extras/gui/data_logger/data/data_logger_listener.py:39-40 | with a `time` entry, `time_h` is time / 3600, whatever the clock says |
| Remote.AppendValue | pyleco_extras/gui/data_logger/data_logger_remote.py:249-252 | appending one value keeps the lists a valid ordered dict |
| Remote.AddAll | pyleco_extras/gui/data_logger/data_logger_remote.py:245-252 | the lists after the loop are a valid ordered dict |
| Remote.Unknown | pyleco_extras/gui/data_logger/data_logger_remote.py:251-252 | the datapoint's keys that had no list |
| Remote.AddAllDomain | pyleco_extras/gui/data_logger/data_logger_remote.py:245-252 | afterwards the lists have exactly the old keys and the datapoint's keys |
| Remote.AddAllListed | pyleco_extras/gui/data_logger/data_logger_remote.py:245-252 | each key of the datapoint gets its value appended to its old list, or to an empty one, with None as NaN |
| Remote.AddAllOthers | pyleco_extras/gui/data_logger/data_logger_remote.py:245-252 | lists whose key is not in the datapoint stay as they were |
| Remote.AddAllKeys | pyleco_extras/gui/data_logger/data_logger_remote.py:251-252 | new keys come after the old ones, in datapoint order |
| Remote.AddAllLengths | pyleco_extras/gui/data_logger/data_logger_remote.py:245-252 | each list of the datapoint grows by exactly one entry and the others keep their length, so lengths can diverge |
| Remote.AppendDatapoint | pyleco_extras/gui/data_logger/data_logger_remote.py:245-252 | the loop over the datapoint's keys returns `AddAll` of the given lists: each value, None as NaN, appended to its list or to a new one |
| Remote.DataLoggerRemote.AddDatapointToLists | pyleco_extras/gui/data_logger/data_logger_remote.py:245-252 | the loop leaves the history equal to `AddAll` of the old history |
| Remote.DataLoggerRemote.HandleNewDataPoint | pyleco_extras/gui/data_logger/data_logger_remote.py:254-257 | stores the datapoint, applies the length limit of `show_list_length`, and shows the given count |
| Remote.DataLoggerRemote.AddDataPoint | pyleco_extras/gui/data_logger/data_logger_remote.py:289-294 | a sender ending in the remote name stores the datapoint and raises `remote_length` by exactly 1; any other sender changes neither the lists nor the count |
| Remote.DataLoggerRemote.DataReceived | pyleco_extras/gui/data_logger/data_logger_remote.py:273-280 | an empty dict does nothing; otherwise exactly the last (sender, datapoint) pair is popped and added |
| Remote.DataLoggerRemote.HandleDataMessage | pyleco_extras/gui/data_logger/data_logger_remote.py:282-287 | a dict payload is added with the topic as sender, and any other payload is ignored |
| Remote.DataLoggerRemote.MakeDataPoint | pyleco_extras/gui/data_logger/data_logger_remote.py:259-270 | a failed request or a non-dict reply changes nothing; a dict is stored and the remote length shown, without touching `remote_length` |
| Remote.SubscriptionName | pyleco_extras/gui/data_logger/data_logger_remote.py:145-152 | a dotted name is used as it is; otherwise it is namespace + "." + name when there is a namespace, else the bare name; so it always ends with the remote name and messages published under it pass the sender check of `add_data_point` |
| Remote.DataLoggerRemote.constructor | pyleco_extras/gui/data_logger/data_logger_remote.py:49-73 | after the inherited `setSettings` and `restore_configuration`: the subscriptions and the timer follow the settings, `remote_length` is the replied length (0 without a reply), the line and header follow the replied configuration, the lists are cleared for the restored names, and the current units are the restored units, the restore starting from the intended `[]` and `{}` (see Findings) |
| Remote.DataLoggerRemote.ReadConfiguration | pyleco_extras/gui/data_logger/data_logger_remote.py:98-110 | a failed request returns `{}` and keeps `remote_length`; a reply returns its configuration and sets `remote_length` to its length |
| Remote.DataLoggerRemote.RestoreConfiguration | pyleco_extras/gui/data_logger/data_logger_base.py:148-152 | the base's restoring with the remote's reply, and `remote_length` as `ReadConfiguration` leaves it |
| Remote.DataLoggerRemote.Reset | pyleco_extras/gui/data_logger/data_logger_remote.py:112-116 | restores the remote's configuration, clearing the lists for its names, and takes the restored units as the current units |
| Remote.DataLoggerRemote.ApplyRemoteSettings | pyleco_extras/gui/data_logger/data_logger_remote.py:136-154 | drops all subscriptions, then when following subscribes only the qualified name and stops polling, else runs the polling timer |
| Viewer.Sanitize | pyleco_extras/gui/data_logger/data_logger_viewer.py:82-88 | an empty dict is returned as it is; otherwise the keys stay in order, the first list is unchanged and every list becomes its prefix of length min(len, L), where L is the first list's length |
| Viewer.SanitizeBounded | pyleco_extras/gui/data_logger/data_logger_viewer.py:87-88 | after sanitizing, no list is longer than the first |
| Viewer.SanitizeEqualizes | pyleco_extras/gui/data_logger/data_logger_viewer.py:87-88 | when no list is shorter than the first, all lists end up the same length |
| Viewer.SanitizeIdempotent | pyleco_extras/gui/data_logger/data_logger_viewer.py:82-88 | sanitizing twice is sanitizing once |
| Viewer.Hours | pyleco_extras/gui/data_logger/data_logger_viewer.py:120 | one hour value per time value |
| Viewer.AddHourColumnText | pyleco_extras/gui/data_logger/data_logger_viewer.py:121-124 | after the hour column is added, the text reads back as the old names followed by "time_h", with the old non-empty units kept and "time_h" in "h" |
| Viewer.HourColumnFromUnsanitized | pyleco_extras/gui/data_logger/data_logger_viewer.py:116-120 | the stored data gets `time_h` as its last key, with as many entries as the unshortened `time` column |
| Viewer.DataLoggerViewer.constructor | pyleco_extras/gui/data_logger/data_logger_viewer.py:46-54 | restores the stored configuration as the inherited initialisation does, from the intended `[]` and `{}` (see Findings), then starts with no loaded lists and no last path, and `self.units = {}` rewrites the line without units |
| Viewer.DataLoggerViewer.AddHourVariable | pyleco_extras/gui/data_logger/data_logger_viewer.py:121-124 | appends "time_h" to the variables, then gives it the unit "h", through the text line |
| Viewer.DataLoggerViewer.Start | pyleco_extras/gui/data_logger/data_logger_viewer.py:90-135 | a cancelled dialog changes nothing; otherwise the sanitized data is stored, the header is the saved configuration's header or else the loaded header without its last line, the line is `Configured` by the saved configuration and gets the hour column exactly for data with `time` and without `time_h`, the names, `_units` and the current units are those read back from the final line, and the count shows the last list's length when there is one |
| LoadFile.Candidates | pyleco_extras/gui/data_logger/data/load_file.py:22-26 | four paths are tried: the path itself, then the path with ".txt", ".pkl", ".json" appended |
| LoadFile.FirstExisting | pyleco_extras/gui/data_logger/data/load_file.py:24-28 | the first path that is a file, or none exactly when no path is a file |
| LoadFile.FindFile | pyleco_extras/gui/data_logger/data/load_file.py:20-28 | the probing loop finds the first existing candidate, and fails with FileNotFoundError when there is none |
| LoadFile.PathName | pyleco_extras/gui/data_logger/data/load_file.py:29 | the name is the part of the path after its last "/" |
| LoadFile.NameSuffix | pyleco_extras/gui/data_logger/data/load_file.py:29 | a suffix, when there is one, starts with "." and ends the name |
| LoadFile.Suffix | pyleco_extras/gui/data_logger/data/load_file.py:29 | the suffix of a path, when there is one, starts with "." and ends its name |
| LoadFile.NameAppend | pyleco_extras/gui/data_logger/data/load_file.py:26 | appending an extension without "/" appends it to the name |
| LoadFile.NameSuffixAppend | pyleco_extras/gui/data_logger/data/load_file.py:26-29 | a non-empty name plus an extension with one leading dot has that extension as its suffix |
| LoadFile.ProbedSuffix | pyleco_extras/gui/data_logger/data/load_file.py:26-29 | the same for a path whose name is not empty |
| LoadFile.ExtensionsAreSuffixes | pyleco_extras/gui/data_logger/data/load_file.py:23-29 | each of the three probed extensions is the suffix of the probed path |
| LoadFile.ExtensionSuffix | pyleco_extras/gui/data_logger/data/load_file.py:23-29 | the same, for one extension at a time |
| LoadFile.Dispatch | pyleco_extras/gui/data_logger/data/load_file.py:29-51 | each of ".json", ".pkl" and ".txt", in any case, chooses its decoder; every other suffix is refused with the ValueError naming it |
| LoadFile.DispatchIgnoresCase | pyleco_extras/gui/data_logger/data/load_file.py:30-34 | a suffix and its lower-case form choose the same decoder |
| LoadFile.DispatchExamples | pyleco_extras/gui/data_logger/data/load_file.py:29-51 | ".json", ".pkl", ".txt" and their other-case forms are accepted; ".csv" and the empty suffix are refused |
| LoadFile.HeaderLines | pyleco_extras/gui/data_logger/data/load_file.py:36-42 | the header is the longest run of leading lines starting with "# ", each without that prefix |
| LoadFile.HeaderLinesUnique | pyleco_extras/gui/data_logger/data/load_file.py:36-42 | those three properties determine the header |
| LoadFile.ReadHeaderLines | pyleco_extras/gui/data_logger/data/load_file.py:36-42 | the `readline` loop collects exactly `HeaderLines`, stopping at end of file too |
| LoadFile.HeaderVariables | pyleco_extras/gui/data_logger/data/load_file.py:44 | no variables without header lines; each variable is a non-empty word without blanks |
| LoadFile.ColumnsOf | pyleco_extras/gui/data_logger/data/load_file.py:46-48 | the data forms a valid ordered dict |
| LoadFile.ColumnsKeySet | pyleco_extras/gui/data_logger/data/load_file.py:46-48 | the keys are exactly the header names |
| LoadFile.ColumnsKeyOrder | pyleco_extras/gui/data_logger/data/load_file.py:46-48 | names that are all different are the keys in their own order |
| LoadFile.ColumnOfName | pyleco_extras/gui/data_logger/data/load_file.py:46-48 | a name that does not occur again later holds the table column at its own index |
| LoadFile.ReadColumns | pyleco_extras/gui/data_logger/data/load_file.py:45-48 | the column loop gives `ColumnsOf`, or the IndexError of a table with too few columns |
| LoadFile.ReadAs | pyleco_extras/gui/data_logger/data/load_file.py:29-52 | reading with the chosen decoder is `Decode` of the content |
| LoadFile.LoadDataloggerFile | pyleco_extras/gui/data_logger/data/load_file.py:9-55 | the whole loader returns `Load` of the path and file system |
| LoadFile.FoundIsNotMissing | pyleco_extras/gui/data_logger/data/load_file.py:29-52 | decoding a found file never reports a missing file |
| LoadFile.NotFoundIffNoCandidate | pyleco_extras/gui/data_logger/data/load_file.py:22-28 | loading fails with FileNotFoundError exactly when none of the four paths is a file |
| LoadFile.ExistingPathFirst | pyleco_extras/gui/data_logger/data/load_file.py:24 | an existing path is read itself, before any extension is tried |
| LoadFile.TextProbedSecond | pyleco_extras/gui/data_logger/data/load_file.py:23-34 | when the path is not a file and path.txt is, path.txt is read by the text decoder |
| LoadFile.UnknownSuffixRefused | pyleco_extras/gui/data_logger/data/load_file.py:50-51 | a found ".csv" file is refused with its suffix |
| LoadFile.MetasChoice | pyleco_extras/gui/data_logger/data/load_file.py:49-52 | text files never carry parameters; json and pickle files carry the first extra element, else {} |
| LoadFile.TextRead | pyleco_extras/gui/data_logger/data/load_file.py:34-48 | a text file reads as its header lines joined with "\n" and its table columns |
| LoadFile.TextColumns | pyleco_extras/gui/data_logger/data/load_file.py:44-48 | for a text file, each header name that does not repeat later holds the column at its index |
| LoadFile.TextKeys | pyleco_extras/gui/data_logger/data/load_file.py:44-48 | the text data has exactly the header names as keys, and more names than columns fail |
| LoadFile.NoHeaderNoData | pyleco_extras/gui/data_logger/data/load_file.py:36-48 | a file whose first line is not a header line has no header and no data |
| MotorUtils.StepsToUnits | pyleco_extras/actors/tmc/motor_utils.py:291-297 | microsteps / (2^resolution x stepCount) x unitSize + unitOffset; a zero step count is ZeroDivisionError |
| MotorUtils.RoundHalfEven | pyleco_extras/actors/tmc/motor_utils.py:315 | Python's `round`: at most half a unit away, and an exact tie goes to the even integer |
| MotorUtils.UnitsToSteps | pyleco_extras/actors/tmc/motor_utils.py:305-315 | the rounded value of (units - offset) / unitSize x stepCount x 2^resolution; a zero unit size is ZeroDivisionError |
| MotorUtils.StepsUnitsRoundTrip | pyleco_extras/actors/tmc/motors.py:248-273 | converting microsteps to units and back gives the microsteps, for every non-zero step count and unit size |
| MotorUtils.OffsetIsZero | tests/actors/tmc/test_motors.py:38-59 | microstep 0 is the offset, and the offset is microstep 0 |
| MotorUtils.ConversionTable | tests/actors/tmc/test_motor_utils.py:27-59 | the test tables, both directions: at resolution 3, 200 steps and unit size 1, 100 is 0.0625, -21415 is -13.384375 and 124123234 is 77577.02125, plus the offset-5 case |
| MotorUtils.ToSignedInt | pyleco_extras/actors/tmc/motor_utils.py:318-334 | the identity below 2^(size-1), minus 2^size at or above it; a size below 1 is the negative shift count error |
| MotorUtils.SignedRange | pyleco_extras/actors/tmc/motors.py:276-292 | an unsigned value of `size` bits becomes a value in [-2^(size-1), 2^(size-1)) that is congruent to it mod 2^size |
| MotorUtils.SignedRoundTrip | pyleco_extras/actors/tmc/motor_utils.py:318-334 | the two's-complement encoding of any signed value in range reads back as that value |
| MotorUtils.SignedTable | tests/actors/tmc/test_motors.py:66-84 | the 8-bit table (127, 128 to -128, 255 to -1, ...) and 2^32 - 12345 to -12345 at the default size |
| MotorActor.MotorNumber | pyleco_extras/actors/tmc_motor_actor.py:69-78 | a number is used as it is, a known name gives its number, and an unknown name is the ValueError |
| MotorActor.Configuration | pyleco_extras/actors/tmc_motor_actor.py:96-98 | the stored configuration of the resolved motor, else {'motorNumber': motor}; a failed resolution is passed on |
| MotorActor.ConversionOf | pyleco_extras/actors/tmc/motor_utils.py:311-314 | there is a conversion exactly when all four conversion keys are present |
| MotorActor.TMCMotorActor.constructor | pyleco_extras/actors/tmc_motor_actor.py:27-35 | no configurations, and the given name table or an empty one |
| MotorActor.TMCMotorActor.ConfigureMotor | pyleco_extras/actors/tmc_motor_actor.py:85-94 | when the card call raises anything but KeyError, that error propagates and nothing is stored; otherwise the configuration is stored under its motor number and nothing else changes, and one without a motor number is not stored |
| MotorActor.TMCMotorActor.GetConfiguration | pyleco_extras/actors/tmc_motor_actor.py:96-98 | returns `Configuration` |
| MotorActor.TMCMotorActor.MoveTo | pyleco_extras/actors/tmc_motor_actor.py:136-140 | below 10 V the move is refused before the motor is resolved and nothing is sent; otherwise an unknown motor is refused, and a known one gets exactly one move-to command |
| MotorActor.TMCMotorActor.MoveBy | pyleco_extras/actors/tmc_motor_actor.py:142-145 | the same gate and order, with a move-by command |
| MotorActor.TMCMotorActor.Rotate | pyleco_extras/actors/tmc_motor_actor.py:170-173 | the same gate and order, with a rotate command |
| MotorActor.TMCMotorActor.MoveToUnits | pyleco_extras/actors/tmc_motor_actor.py:147-157 | the motor is resolved and the units converted first; a missing configuration is refused; then `move_to` runs with the converted microsteps, voltage check included |
| MotorActor.TMCMotorActor.MoveByUnits | pyleco_extras/actors/tmc_motor_actor.py:159-168 | the same, for a relative move |
| MotorActor.TMCMotorActor.GetActualUnits | pyleco_extras/actors/tmc_motor_actor.py:125-128 | returns `ActualUnits`: the resolved motor's position reading converted with its stored configuration |
| MotorActor.TMCMotorActor.Stop | pyleco_extras/actors/tmc_motor_actor.py:112-114 | an unknown motor is refused; a known one gets exactly one stop command |
| MotorActor.TMCMotorActor.SetActualPosition | pyleco_extras/actors/tmc_motor_actor.py:130-134 | an unknown motor is refused; a known one is stopped, then its position is written, with no voltage check |
| MotorActor.TMCMotorActor.GetMotorDict | pyleco_extras/actors/tmc_motor_actor.py:179-180 | returns the name table |
| MotorActor.TMCMotorActor.SetMotorDict | pyleco_extras/actors/tmc_motor_actor.py:182-183 | replaces the name table as a whole |
| MotorActor.NameIsNumber | pyleco_extras/actors/tmc_motor_actor.py:69-78 | a known name addresses the same motor and configuration as its number |
| MotorActor.StoredConfigurationReturned | pyleco_extras/actors/tmc_motor_actor.py:85-98 | after a configuration is stored, `get_configuration` returns it for that motor |
| MotorActor.UnconfiguredMotorRefused | pyleco_extras/actors/tmc_motor_actor.py:147-157 | a motor without a stored configuration cannot move in units, even though `get_configuration` answers for it |
| MotorActor.IncompleteConfigurationRefused | pyleco_extras/actors/tmc_motor_actor.py:147-168 | a configuration missing any conversion key is refused |
| MotorActor.UnitsTargetConverts | pyleco_extras/actors/tmc_motor_actor.py:147-168 | with a complete configuration, the target is `unitsToSteps` of the units |
| MotorActor.UnitsTargetRoundTrip | pyleco_extras/actors/tmc_motor_actor.py:147-157 | moving to a position read back in units targets exactly its microsteps |
| MotorActor.ActualUnitsDefined | pyleco_extras/actors/tmc_motor_actor.py:125-128 | the position reads in units exactly when the motor has a complete stored configuration with a non-zero step count; an unconfigured motor is the KeyError |
| MotorActor.ActualUnitsMovedTo | pyleco_extras/actors/tmc_motor_actor.py:125-157 | moving to the units read back targets the position read |
| MotorActor.VoltageThreshold | pyleco_extras/actors/tmc_motor_actor.py:201-206 | moves are refused exactly when analog input 8 reads below 100, that is below 10 V |
| Republisher.Remap | pyleco_extras/utils/republisher.py:96-106 | the new data forms a valid ordered dict |
| Republisher.RepublisherActor.constructor | pyleco_extras/utils/republisher.py:68-76 | the given handlings, else none, and nothing published |
| Republisher.RepublisherActor.CalculateNewData | pyleco_extras/utils/republisher.py:96-106 | the loop over the data's items computes `Remap` of them |
| Republisher.RemapKeys | pyleco_extras/utils/republisher.py:100-105 | a name is in the new data exactly when some item has a handling with that new name whose function succeeds |
| Republisher.RemapValue | pyleco_extras/utils/republisher.py:100-103 | a name's value is the function's value on the last item that produces it |
| Republisher.RemapSkipsUnhandled | pyleco_extras/utils/republisher.py:101-105 | items without a handling, or whose function raises, change nothing, and the rest are still processed |
| Republisher.NoHandlingsNothing | pyleco_extras/utils/republisher.py:96-106 | with no handlings, the new data is always empty |
| Republisher.DoubleExample | tests/utils/test_republisher.py:37-40 | {'old': 7} with the handling (x 2, "new") gives {'new': 14} |
| Republisher.RepublisherActor.HandleSubscriptionData | pyleco_extras/utils/republisher.py:90-94 | the new data is published exactly when it is not empty |
| TopicCollector.AddOne | pyleco_extras/tools/topic_collector.py:26-28 | the topic is in the list afterwards, and the old list is a prefix of it; an existing topic changes nothing; no topic is ever listed twice |
| TopicCollector.TopicCollectorListener.constructor | pyleco_extras/tools/topic_collector.py:10-12 | starts with no topics |
| TopicCollector.TopicCollectorListener.AddTopic | pyleco_extras/tools/topic_collector.py:26-28 | the list becomes `AddOne` of the old one, keeping it free of repetitions |
| TopicCollector.TopicCollectorListener.HandleSubscriptionData | pyleco_extras/tools/topic_collector.py:19-21 | adds every key of the data, in the dict's order |
| TopicCollector.TopicCollectorListener.HandleSubscriptionMessage | pyleco_extras/tools/topic_collector.py:23-24 | adds the message's topic |
| TopicCollector.AddAllMembers | pyleco_extras/tools/topic_collector.py:19-28 | afterwards the topics are exactly the old ones plus the keys |
| TopicCollector.AddAllPrefix | pyleco_extras/tools/topic_collector.py:26-28 | adding only appends, so first-seen order is kept |
| TopicCollector.AddAllDistinct | pyleco_extras/tools/topic_collector.py:26-28 | the list never holds a topic twice |
| TopicCollector.AddAllFresh | pyleco_extras/tools/topic_collector.py:19-28 | new distinct keys are appended exactly in the order they arrive |
| TopicCollector.AddAllKnown | pyleco_extras/tools/topic_collector.py:27 | known topics leave the list unchanged |
| TopicCollector.AddAllIdempotent | pyleco_extras/tools/topic_collector.py:19-28 | receiving the same keys again changes nothing |
| LogLogger.FullName | pyleco_extras/gui/log_logger/log_logger.py:141-150 | a name with a "." is returned unchanged; otherwise it is namespace + "." + name, or lastNode + "." + name without a namespace |
| LogLogger.FullNameIdempotent | pyleco_extras/gui/log_logger/log_logger.py:143-144 | a full name is its own full name |
| LogLogger.FindText | pyleco_extras/gui/log_logger/log_logger.py:166 | the first index of the text in the combo box, or -1 exactly when it is absent |
| LogLogger.RemoveFoundText | pyleco_extras/gui/log_logger/log_logger.py:166-167 | removing the found text from a combo box without repetitions drops exactly that text |
| LogLogger.RemoveAt | pyleco_extras/gui/log_logger/log_logger.py:167 | dropping one index of a list without repetitions drops exactly that item |
| LogLogger.AddEntry | pyleco_extras/gui/log_logger/log_logger.py:189-198 | the emitter's table gets the row appended, and is created first, together with its combo box item, when missing; no other table changes |
| LogLogger.AddEntryOneRow | pyleco_extras/gui/log_logger/log_logger.py:193-197 | exactly one row is appended, after the old rows |
| LogLogger.AddEntriesAppends | pyleco_extras/gui/log_logger/log_logger.py:184-187 | every table gets the rows of the entries for its emitter appended, in the order of the entries |
| LogLogger.AddEntriesRows | pyleco_extras/gui/log_logger/log_logger.py:184-187 | entries of distinct emitters each append exactly their row, and other tables stay as they were |
| LogLogger.NoRowsFor | pyleco_extras/gui/log_logger/log_logger.py:184-187 | without an entry for an emitter, no rows are added for it |
| LogLogger.OneRowFor | pyleco_extras/gui/log_logger/log_logger.py:184-187 | the only entry for its emitter contributes exactly its row |
| LogLogger.ResetCurrent | pyleco_extras/gui/log_logger/log_logger.py:234-237 | the shown table loses its rows and no other table changes |
| LogLogger.DropConsistent | pyleco_extras/gui/log_logger/log_logger.py:159-169 | one step of the first loop keeps the combo box equal to the tables |
| LogLogger.DropAllConsistent | pyleco_extras/gui/log_logger/log_logger.py:159-169 | the first loop keeps the combo box equal to the tables, without repetitions |
| LogLogger.TakeAllConsistent | pyleco_extras/gui/log_logger/log_logger.py:170-176 | the second loop keeps it too |
| LogLogger.ResubscribeConsistent | pyleco_extras/gui/log_logger/log_logger.py:152-177 | so does the whole `subscribe` |
| LogLogger.DropAllEffects | pyleco_extras/gui/log_logger/log_logger.py:159-162 | every old key missing from the new keys is unsubscribed by its full name, and the first loop makes no other call |
| LogLogger.DropAllKeepsRows | pyleco_extras/gui/log_logger/log_logger.py:163-169 | the first loop deletes no table with rows and changes no rows |
| LogLogger.DropAllDeletesEmpty | pyleco_extras/gui/log_logger/log_logger.py:163-167 | a dropped key whose table has no rows loses its table and its combo box item |
| LogLogger.TakeAllTables | pyleco_extras/gui/log_logger/log_logger.py:170-176 | every new key's full name has a table; existing tables keep their rows and new ones are empty |
| LogLogger.TakeAllEffects | pyleco_extras/gui/log_logger/log_logger.py:171-173 | a new key's full name is subscribed exactly when it is not among the old raw keys, and no other call is made |
| LogLogger.ResubscribeTables | pyleco_extras/gui/log_logger/log_logger.py:152-177 | after `subscribe`, every new key's full name has a table, and a table with rows keeps its rows |
| LogLogger.SubscribeAgain | pyleco_extras/gui/log_logger/log_logger.py:171-173 | old subscription ["x"], new ["x"], namespace N: "N.x" is subscribed again, because the comparison is with the raw keys |
| LogLogger.LogLoggerWindow.constructor | pyleco_extras/gui/log_logger/log_logger.py:66-105 | starts with the "self" table shown, then subscribes to the names in the sender field |
| LogLogger.LogLoggerWindow.Subscribe | pyleco_extras/gui/log_logger/log_logger.py:152-177 | the two loops give `Resubscribe` of the old window, and the subscription becomes the new keys |
| LogLogger.LogLoggerWindow.Unsubscribe | pyleco_extras/gui/log_logger/log_logger.py:159-169 | the first loop leaves the window equal to `DropAll` of the old window |
| LogLogger.LogLoggerWindow.SubscribeNew | pyleco_extras/gui/log_logger/log_logger.py:170-176 | the second loop leaves the window equal to `TakeAll` of the window it started from |
| LogLogger.LogLoggerWindow.AddLogEntry | pyleco_extras/gui/log_logger/log_logger.py:189-202 | the window becomes `AddEntry` of the old one |
| LogLogger.LogLoggerWindow.AddEntryOldStyle | pyleco_extras/gui/log_logger/log_logger.py:184-187 | one entry per item of the data, in the dict's order |
| LogLogger.LogLoggerWindow.SetModel | pyleco_extras/gui/log_logger/log_logger.py:205-212 | the chosen name is always noted; a known name shows its table, and an unknown one is the KeyError, leaving the shown table as it was |
| LogLogger.LogLoggerWindow.Reset | pyleco_extras/gui/log_logger/log_logger.py:234-237 | the window becomes `ResetCurrent` of the old one |

## Left out

- Floating point: unit conversions, `time_h` and history values use exact `real` arithmetic. Rounding errors of IEEE doubles and `nan` comparisons are not modelled, apart from NaN as a distinct value.
- History.Value: no infinities, and `nan / 3600` is NaN.
- MotorUtils.UnitsToSteps: only the numeric path. The pint `Quantity` and `str` branches and their DimensionalityError belong to a foreign unit library.
- MotorUtils.StepsUnitsRoundTrip: holds in exact arithmetic. With floats, the round trip holds only up to rounding.
- The microstep resolution is a `nat`. A negative resolution, which Python would turn into a float power of two, is not modelled.
- `configureMotor` (the writes to the card with their 2.55 scaling), `getPort` and every other device call are left out. Whether `configureMotor` raises an error other than KeyError (IndexError for a motor the card lacks, TypeError for a current that is not a number) is a parameter of `ConfigureMotor`. The commands the actor sends are recorded as a list. The reading of analog input 8 is a parameter.
- The actor's remaining methods (`get_actual_velocity`, `get_actual_position`, `get_position_reached`, the parameter, I/O and `disconnect` methods) are left out. After resolving the motor they return the card's reading or forward to the card. The card's position reading is a parameter of `GetActualUnits`.
- MotorActor configurations are keyed by integer motor numbers. Python's dict also accepts a string `motorNumber`; that case is not modelled.
- The pyleco engine that `DataLoggerCore` inherits is not part of this model. This covers the datapoint buffers, valuing modes, value repeating, `make_datapoint` and `super().calculate_data`. `calculate_data` receives the datapoint the engine computed. `start_timer_trigger` is a stand-in that installs a running timer. The initial trigger type NONE and the empty trigger variable of `DataLoggerCore`'s constructor come from the engine and are assumed here.
- The clock: the elapsed seconds since `_today_zero` and the start of the day are parameters.
- Signals are left out. In `DataLoggerCore`, `started` is only counted, and the configuration passed to `set_configuration` is recorded.
- Qt user interface: every label (the "Data points" label of `show_list_length` included; the viewer's and the remote window's counts are kept as numbers), plots, docks, dialogs, settings storage, scrolling the log view, `showItemDetails`, `save`, `rescale_log`, the logging-level actions and the clipboard.
- LogLogger.SetModel: the Qt signal that calls `setModel` when combo box items are added or removed is not modelled. The shown table changes only through explicit `SetModel` calls.
- LogLogger tables are values. Of the aliasing between `current` and `models`, only the name of the shown table is tracked. A deleted shown table becomes detached (`None`).
- `add_entry_from_message` and `handle_subscription_message` decode the topic bytes. Here the topic is given as text.
- LoadFile: the file system is a map from path to content. A content has three views: its lines, its numeric table, and its decoded json or pickle value. numpy `loadtxt`, json and pickle decoding are not modelled. The optional printing is left out. The numeric table view is always two-dimensional, so the IndexError `data_table[:, i]` raises when `loadtxt` returns a one-dimensional array (a single data row or a single column) is not modelled.
- LoadFile.PathName: paths are plain strings split at "/". Path normalisation (repeated or trailing slashes, ".") is not modelled. Lemmas that need a suffix require a non-empty name.
- PyStr.Lower: folds only ASCII letters; other Unicode case mappings are not modelled. PyStr.IsSpace follows Python's whitespace set for `str.split()`.
- Republisher: data that is not a dict (the logged error, then the AttributeError) is not modelled; `data` is always an ordered dict here. Handling functions are total functions that return `None` where Python's would raise.
- Republisher: `_listen_setup` (subscribing to the handled keys) and sending through the publisher are left out. Published data is recorded as a list.
- DataLoggerRemote: the RPC request for the list length and the last datapoint is a parameter of `MakeDataPoint` (`None` when it failed). `set_properties`, the trigger slots and saving are left out. They forward RPC calls. The reply to the `get_configuration` and `get_list_length` requests of `read_configuration` is a parameter (`None` when either failed). The `started` signal of `reset` is left out.
- DataLoggerViewer.start: the file dialog and the loader's result, with the "configuration" entry of its metas, are parameters. The plot updates and the saved-name label are left out.
- LoggerBase.DataLoggerBase.SetConfig: only the header, `variables`, `variablesText`, `units` and `unitsText` keys of `_set_config` are modelled. The trigger and valuing keys only set widgets, and `meta`, `autoSaveInterval`, `autoSave`, `autoCut` and `pause` set user data, timers, settings storage and actions; a configuration with `start` set would call `start` again. None of these is modelled.
- The configuration `restore_configuration` reads from the settings storage is a parameter of the viewer's constructor, and the remote's reply one of the remote's. `restore_plot_configuration` and the window set-up of `__init__` are left out.
- LoggerBase.DataLoggerBase.constructor, Remote.DataLoggerRemote.constructor and Viewer.DataLoggerViewer.constructor start the restore from `_variables == []` and `_units == {}`, the intended state. As written, the attributes are unset and the restore can raise AttributeError; see Findings.
- DataLoggerBase: `start_collecting` forwarding, storing the configuration and `copy_last_data_point` are left out. They are UI and RPC code.

## Findings

| source | as written | input that shows it | evidently intended | confidence | as-written member | corrected member |
|---|---|---|---|---|---|---|
| pyleco_extras/gui/data_logger/data_logger_base.py:116-121 | `setup_lists` only annotates `_variables` and `_units`. The first `restore_configuration` of `__init__` (:82) then runs the `variables` setter (:409-410), whose update reads `self._units` (:266-267) before it is assigned; with units but no variables, the units setter iterates the unset `_variables` | a stored configuration with `variables == ["a"]`, as `get_configuration` writes it (:228-229): AttributeError in `__init__` (`StoredConfigurationRaises`); exactly the cases of `FirstRestoreRaises` | `_variables` and `_units` start as `[]` and `{}`, and restoring a stored configuration gives back its names and units | not executed | LoggerBase.FirstRestore | LoggerBase.InitialRestore |
