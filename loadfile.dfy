/**
 * `load_datalogger_file`: find the saved file (the path itself, or the path with one of the
 * extensions ".txt", ".pkl", ".json" appended, tried in that order), choose the decoder by
 * the file's suffix, ignoring case, and return the header, the data lists and the
 * parameters.
 *
 * The file system is a map from path to the file's content. A content has three views: the
 * lines `readline` returns (each with its line end), the columns the numeric table decoder
 * yields, and the value the json or pickle decoder yields.
 */
module LoadFile {
  import opened Wrappers
  import opened Dicts
  import opened PyStr
  import opened History

  /** The parameters stored next to the data ("metas"), key to value. */
  type Metas = map<string, string>

  /**
   * What the json or pickle decoder yields: the first two elements and the rest of the
   * stored list, or a list too short to be unpacked into header and data.
   */
  datatype Decoded = Saved(header: string, data: Lists, more: seq<Metas>) | TooFewElements

  datatype FileContent = FileContent(lines: seq<string>, columns: seq<seq<Value>>, decoded: Decoded)

  type FileSystem = map<string, FileContent>

  datatype LoadError = FileNotFound | InvalidSuffix(suffix: string) | UnpackError | IndexError

  datatype Format = Json | Pickle | Text

  /** The result: header text, data lists and parameters. */
  datatype Loaded = Loaded(header: string, data: Lists, metas: Metas)

  // ---------------------------------------------------------------- finding the file

  /** The paths tried, in order: `extensions.pop()` takes ".txt" first, then ".pkl", ".json". */
  function Candidates(path: string): (r: seq<string>)
    ensures |r| == 4 && r[0] == path
  {
    [path, path + ".txt", path + ".pkl", path + ".json"]
  }

  /** The first of `paths` that is a file. */
  function FirstExisting(paths: seq<string>, files: set<string>): (r: Option<string>)
    ensures r.None? <==> forall j :: 0 <= j < |paths| ==> paths[j] !in files
    ensures r.Some? ==> r.value in files
    ensures r.Some? ==> exists i :: 0 <= i < |paths| && paths[i] == r.value && forall j :: 0 <= j < i ==> paths[j] !in files
  {
    if paths == [] then None
    else if paths[0] in files then Some(paths[0])
    else
      var r := FirstExisting(paths[1..], files);
      FirstExistingShift(paths, files, r);
      r
  }

  /** The first existing path after a missing first path is the first existing path overall. */
  lemma FirstExistingShift(paths: seq<string>, files: set<string>, r: Option<string>)
    requires paths != [] && paths[0] !in files
    requires r.None? <==> forall j :: 0 <= j < |paths| - 1 ==> paths[1..][j] !in files
    requires r.Some? ==> exists i :: 0 <= i < |paths| - 1 && paths[1..][i] == r.value && forall j :: 0 <= j < i ==> paths[1..][j] !in files
    ensures r.None? <==> forall j :: 0 <= j < |paths| ==> paths[j] !in files
    ensures r.Some? ==> exists i :: 0 <= i < |paths| && paths[i] == r.value && forall j :: 0 <= j < i ==> paths[j] !in files
  {
    if r.Some? {
      var i :| 0 <= i < |paths| - 1 && paths[1..][i] == r.value && forall j :: 0 <= j < i ==> paths[1..][j] !in files;
      assert paths[i + 1] == r.value;
      forall j | 0 <= j < i + 1 ensures paths[j] !in files {
        if j > 0 { assert paths[j] == paths[1..][j - 1]; }
      }
    } else {
      forall j | 0 <= j < |paths| ensures paths[j] !in files {
        if j > 0 { assert paths[j] == paths[1..][j - 1]; }
      }
    }
    if forall j :: 0 <= j < |paths| ==> paths[j] !in files {
      forall j | 0 <= j < |paths| - 1 ensures paths[1..][j] !in files {
        assert paths[1..][j] == paths[j + 1];
      }
    }
  }

  /**
   * The probing loop: while the current path is not a file, the next extension is popped
   * and appended to the original path; running out of extensions is `FileNotFoundError`.
   */
  method FindFile(path: string, files: set<string>) returns (r: Result<string, LoadError>)
    ensures FirstExisting(Candidates(path), files).None? ==> r == Err(FileNotFound)
    ensures FirstExisting(Candidates(path), files).Some? ==> r == Ok(FirstExisting(Candidates(path), files).value)
  {
    var extensions := [".json", ".pkl", ".txt"];
    var fullPath := path;
    ghost var cands := Candidates(path);
    while fullPath !in files
      invariant |extensions| <= 3
      invariant extensions == [".json", ".pkl", ".txt"][..|extensions|]
      invariant fullPath == cands[3 - |extensions|]
      invariant FirstExisting(cands[3 - |extensions|..], files) == FirstExisting(cands, files)
      decreases |extensions|
    {
      if extensions == [] {
        assert cands[3..] == [cands[3]];
        return Err(FileNotFound);
      }
      ghost var k := 3 - |extensions|;
      assert cands[k..][1..] == cands[k + 1..];
      fullPath := path + extensions[|extensions| - 1];
      extensions := extensions[..|extensions| - 1];
    }
    return Ok(fullPath);
  }

  // ---------------------------------------------------------------- the suffix

  /** `Path.name`: the part after the last "/". */
  function PathName(path: string): (r: string)
    ensures '/' !in r && EndsWith(path, r)
  {
    AfterLast(path, '/')
  }

  /**
   * `Path.suffix` of a name: from its last "." on, when that dot is neither the first nor
   * the last character; otherwise empty.
   */
  function NameSuffix(name: string): (r: string)
    ensures r != [] ==> r[0] == '.' && EndsWith(name, r)
  {
    if '.' !in name then []
    else
      var i := |BeforeLast(name, '.')|;
      if 0 < i < |name| - 1 then name[i..] else []
  }

  /** `Path.suffix`. */
  function Suffix(path: string): (r: string)
    ensures r != [] ==> r[0] == '.' && EndsWith(PathName(path), r)
  {
    NameSuffix(PathName(path))
  }

  /** Appending a text without "/" to a path appends it to the name. */
  lemma NameAppend(path: string, ext: string)
    requires '/' !in ext
    ensures PathName(path + ext) == PathName(path) + ext
  {
    var p := path + ext;
    if '/' in path {
      var k := |BeforeLast(path, '/')|;
      assert p[k] == '/';
      assert p[k + 1..] == path[k + 1..] + ext;
      assert path[k + 1..] == PathName(path);
      BeforeLastAt(p, '/', k);
    } else {
      assert '/' !in p;
    }
  }

  /** The decoder chosen for a suffix, compared in lower case. */
  function Dispatch(suffix: string): (r: Result<Format, LoadError>)
    ensures r == Ok(Json) <==> Lower(suffix) == ".json"
    ensures r == Ok(Pickle) <==> Lower(suffix) == ".pkl"
    ensures r == Ok(Text) <==> Lower(suffix) == ".txt"
    ensures r.Err? <==> Lower(suffix) !in [".json", ".pkl", ".txt"]
    ensures r.Err? ==> r.error == InvalidSuffix(suffix)
  {
    var s := Lower(suffix);
    if s == ".json" then Ok(Json)
    else if s == ".pkl" then Ok(Pickle)
    else if s == ".txt" then Ok(Text)
    else Err(InvalidSuffix(suffix))
  }

  /** The choice of decoder ignores case: a suffix and its lower-case form choose alike. */
  lemma DispatchIgnoresCase(suffix: string)
    ensures Dispatch(suffix).Ok? <==> Dispatch(Lower(suffix)).Ok?
    ensures Dispatch(suffix).Ok? ==> Dispatch(suffix) == Dispatch(Lower(suffix))
  {
    LowerLower(suffix);
  }

  /** The three extensions and their upper-case forms are accepted; ".csv" is refused. */
  lemma DispatchExamples()
    ensures Dispatch(".json") == Ok(Json) && Dispatch(".pkl") == Ok(Pickle) && Dispatch(".txt") == Ok(Text)
    ensures Dispatch(".TXT") == Ok(Text) && Dispatch(".Json") == Ok(Json)
    ensures Dispatch(".csv") == Err(InvalidSuffix(".csv")) && Dispatch("") == Err(InvalidSuffix(""))
  {
    assert Lower(".json") == ".json";
    assert Lower(".pkl") == ".pkl";
    assert Lower(".txt") == ".txt";
    assert Lower(".TXT") == ".txt";
    assert Lower(".Json") == ".json";
    assert Lower(".csv") == ".csv";
  }

  /**
   * A non-empty name followed by an extension of one dot and at least one more character,
   * without a further dot, has that extension as its suffix.
   */
  lemma NameSuffixAppend(name: string, ext: string)
    requires |ext| >= 2 && ext[0] == '.' && '.' !in ext[1..]
    requires name != []
    ensures NameSuffix(name + ext) == ext
  {
    var s := name + ext;
    var n := |name|;
    assert s[n] == '.';
    assert s[n + 1..] == ext[1..];
    BeforeLastAt(s, '.', n);
    assert s[n..] == ext;
  }

  /** The same for a path: the extension has no "/", so it extends the name. */
  lemma ProbedSuffix(path: string, ext: string)
    requires |ext| >= 2 && ext[0] == '.' && '.' !in ext[1..] && '/' !in ext
    requires PathName(path) != []
    ensures Suffix(path + ext) == ext
  {
    NameAppend(path, ext);
    NameSuffixAppend(PathName(path), ext);
  }

  /** The three extensions are of that form. */
  lemma ExtensionsAreSuffixes(path: string)
    requires PathName(path) != []
    ensures Suffix(path + ".txt") == ".txt" && Suffix(path + ".pkl") == ".pkl" && Suffix(path + ".json") == ".json"
  {
    ExtensionSuffix(path, ".txt");
    ExtensionSuffix(path, ".pkl");
    ExtensionSuffix(path, ".json");
  }

  lemma ExtensionSuffix(path: string, ext: string)
    requires PathName(path) != []
    requires ext == ".txt" || ext == ".pkl" || ext == ".json"
    ensures Suffix(path + ext) == ext
  {
    assert |ext| >= 2 && ext[0] == '.' && '.' !in ext[1..] && '/' !in ext by {
      forall i | 0 <= i < |ext| ensures ext[i] != '/' && (i > 0 ==> ext[i] != '.') { }
    }
    ProbedSuffix(path, ext);
  }

  // ---------------------------------------------------------------- the text format

  /** The header: the leading lines that start with "# ", each without that prefix. */
  function HeaderLines(file: seq<string>): (r: seq<string>)
    ensures |r| <= |file|
    ensures forall i :: 0 <= i < |r| ==> StartsWith(file[i], "# ") && r[i] == file[i][2..]
    ensures |r| < |file| ==> !StartsWith(file[|r|], "# ")
  {
    if file == [] || !StartsWith(file[0], "# ") then []
    else
      var rest := HeaderLines(file[1..]);
      assert forall i :: 1 <= i < |file| ==> file[i] == file[1..][i - 1];
      [file[0][2..]] + rest
  }

  /** The three properties of `HeaderLines` determine it. */
  lemma {:induction false} HeaderLinesUnique(file: seq<string>, r: seq<string>)
    requires |r| <= |file|
    requires forall i :: 0 <= i < |r| ==> StartsWith(file[i], "# ") && r[i] == file[i][2..]
    requires |r| < |file| ==> !StartsWith(file[|r|], "# ")
    ensures r == HeaderLines(file)
    decreases |r|
  {
    if r != [] {
      assert StartsWith(file[0], "# ");
      HeaderLinesUnique(file[1..], r[1..]);
      assert r == [r[0]] + r[1..];
    }
  }

  /**
   * The header reader: `readline` until a line does not start with "# "; at the end of the
   * file `readline` returns "", which ends the loop too.
   */
  method ReadHeaderLines(file: seq<string>) returns (lines: seq<string>)
    ensures lines == HeaderLines(file)
  {
    lines := [];
    var i := 0;
    while true
      invariant i <= |file| && |lines| == i
      invariant forall j :: 0 <= j < i ==> StartsWith(file[j], "# ") && lines[j] == file[j][2..]
      decreases |file| - i
    {
      var line := if i < |file| then file[i] else "";
      if StartsWith(line, "# ") {
        lines := lines + [line[2..]];
        i := i + 1;
      } else {
        break;
      }
    }
    HeaderLinesUnique(file, lines);
  }

  /** The variable names: the whitespace split of the last header line, or none. */
  function HeaderVariables(lines: seq<string>): (r: seq<string>)
    ensures lines == [] ==> r == []
    ensures forall i :: 0 <= i < |r| ==> r[i] != [] && NoSpace(r[i])
  {
    if lines != [] then Split(lines[|lines| - 1]) else []
  }

  /** `dict[var] = column` for the names in order; a repeated name keeps its first place. */
  function ColumnsOf(variables: seq<string>, columns: seq<seq<Value>>): (r: Lists)
    requires |variables| <= |columns|
    ensures r.Valid()
    decreases |variables|
  {
    if variables == [] then Empty()
    else
      var n := |variables| - 1;
      ColumnsOf(variables[..n], columns).Put(variables[n], columns[n])
  }

  /** The keys of the data are exactly the names. */
  lemma {:induction false} ColumnsKeySet(variables: seq<string>, columns: seq<seq<Value>>)
    requires |variables| <= |columns|
    ensures forall v :: v in ColumnsOf(variables, columns).entries <==> v in variables
    decreases |variables|
  {
    if variables != [] {
      var n := |variables| - 1;
      ColumnsKeySet(variables[..n], columns);
      assert variables == variables[..n] + [variables[n]];
    }
  }

  /** Names that are all different are the keys in their own order. */
  lemma {:induction false} ColumnsKeyOrder(variables: seq<string>, columns: seq<seq<Value>>)
    requires |variables| <= |columns| && Distinct(variables)
    ensures ColumnsOf(variables, columns).keys == variables
    decreases |variables|
  {
    if variables != [] {
      var n := |variables| - 1;
      var front := ColumnsOf(variables[..n], columns);
      DistinctPrefix(variables, n);
      ColumnsKeyOrder(variables[..n], columns);
      ColumnsKeySet(variables[..n], columns);
      DistinctAt(variables, n);
      assert variables[n] !in front.entries;
      assert front.keys + [variables[n]] == variables;
    }
  }

  /** The last name sets its column over the data of the names before it. */
  lemma ColumnsOfLast(variables: seq<string>, columns: seq<seq<Value>>)
    requires 0 < |variables| <= |columns|
    ensures var n := |variables| - 1;
      ColumnsOf(variables, columns).entries == ColumnsOf(variables[..n], columns).entries[variables[n] := columns[n]]
  {
  }

  /** A name that does not occur again later holds the column at its own index. */
  lemma {:induction false} ColumnOfName(variables: seq<string>, columns: seq<seq<Value>>, i: nat)
    requires |variables| <= |columns| && i < |variables|
    requires forall j :: i < j < |variables| ==> variables[j] != variables[i]
    ensures variables[i] in ColumnsOf(variables, columns).entries
    ensures ColumnsOf(variables, columns).entries[variables[i]] == columns[i]
    decreases |variables|
  {
    var n := |variables| - 1;
    var front := variables[..n];
    ColumnsOfLast(variables, columns);
    if i < n {
      assert front[i] == variables[i];
      forall j | i < j < n ensures front[j] != front[i] {
        assert front[j] == variables[j];
      }
      ColumnOfName(front, columns, i);
    }
  }

  /** The column loop: `data_table[:, i]` fails with `IndexError` past the last column. */
  method ReadColumns(variables: seq<string>, columns: seq<seq<Value>>) returns (r: Result<Lists, LoadError>)
    ensures |variables| > |columns| ==> r == Err(IndexError)
    ensures |variables| <= |columns| ==> r == Ok(ColumnsOf(variables, columns))
  {
    var data: Lists := Empty();
    for i := 0 to |variables|
      invariant i <= |columns| ==> data == ColumnsOf(variables[..i], columns)
      invariant i > |columns| ==> false
    {
      if i >= |columns| {
        return Err(IndexError);
      }
      assert variables[..i + 1][..i] == variables[..i];
      data := data.Put(variables[i], columns[i]);
    }
    assert variables[..|variables|] == variables;
    return Ok(data);
  }

  // ---------------------------------------------------------------- the loader

  /** The table columns keyed by the header's names, or the index error of a short table. */
  function TextData(content: FileContent): (r: Result<Lists, LoadError>)
  {
    var variables := HeaderVariables(HeaderLines(content.lines));
    if |variables| <= |content.columns| then Ok(ColumnsOf(variables, content.columns)) else Err(IndexError)
  }

  /** What reading a file's content with the chosen decoder returns. */
  function Decode(format: Result<Format, LoadError>, content: FileContent): (r: Result<Loaded, LoadError>)
  {
    match format
    case Err(e) => Err(e)
    case Ok(Text) =>
      (match TextData(content)
       case Err(e) => Err(e)
       case Ok(data) => Ok(Loaded(Join("\n", HeaderLines(content.lines)), data, map[])))
    case Ok(_) =>
      match content.decoded
      case TooFewElements => Err(UnpackError)
      case Saved(header, data, more) => Ok(Loaded(header, data, if more != [] then more[0] else map[]))
  }

  /** What reading the found file `full` returns, decoded by its suffix. */
  function LoadFound(full: string, content: FileContent): (r: Result<Loaded, LoadError>)
  {
    Decode(Dispatch(Suffix(full)), content)
  }

  /** What loading `path` returns. */
  function Load(path: string, fs: FileSystem): (r: Result<Loaded, LoadError>)
  {
    match FirstExisting(Candidates(path), fs.Keys)
    case None => Err(FileNotFound)
    case Some(full) => LoadFound(full, fs[full])
  }

  /** Reading the content with the decoder chosen. */
  method ReadAs(format: Result<Format, LoadError>, content: FileContent) returns (r: Result<Loaded, LoadError>)
    ensures r == Decode(format, content)
  {
    if format.Err? {
      return Err(format.error);
    }
    if format.value == Text {
      var lines := ReadHeaderLines(content.lines);
      var header := Join("\n", lines);
      var variables := HeaderVariables(lines);
      var data := ReadColumns(variables, content.columns);
      if data.Err? {
        return Err(data.error);
      }
      return Ok(Loaded(header, data.value, map[]));
    }
    match content.decoded
    case TooFewElements =>
      return Err(UnpackError);
    case Saved(header, data, more) =>
      var metas := if more != [] then more[0] else map[];
      return Ok(Loaded(header, data, metas));
  }

  /** `load_datalogger_file(path)`; the optional print of the file name is not modelled. */
  method LoadDataloggerFile(path: string, fs: FileSystem) returns (r: Result<Loaded, LoadError>)
    ensures r == Load(path, fs)
  {
    var found := FindFile(path, fs.Keys);
    if found.Err? {
      return Err(found.error);
    }
    var suffix := Suffix(found.value);
    r := ReadAs(Dispatch(suffix), fs[found.value]);
  }

  // ---------------------------------------------------------------- properties

  /** Reading a found file never reports a missing file. */
  lemma FoundIsNotMissing(format: Result<Format, LoadError>, content: FileContent)
    requires format != Err(FileNotFound)
    ensures Decode(format, content) != Err(FileNotFound)
  {
  }

  /** Loading fails with `FileNotFoundError` exactly when none of the four paths is a file. */
  lemma NotFoundIffNoCandidate(path: string, fs: FileSystem)
    ensures Load(path, fs) == Err(FileNotFound) <==> forall j :: 0 <= j < 4 ==> Candidates(path)[j] !in fs
  {
    var f := FirstExisting(Candidates(path), fs.Keys);
    if f.Some? {
      var format := Dispatch(Suffix(f.value));
      FoundIsNotMissing(format, fs[f.value]);
    }
  }

  /** An existing path is read itself, before any extension is tried. */
  lemma ExistingPathFirst(path: string, fs: FileSystem)
    requires path in fs
    ensures Load(path, fs) == LoadFound(path, fs[path])
  {
  }

  /** Only when `path` is not a file, and `path.txt` is, the text file is read as text. */
  lemma TextProbedSecond(path: string, fs: FileSystem)
    requires path !in fs && path + ".txt" in fs && PathName(path) != []
    ensures Load(path, fs) == LoadFound(path + ".txt", fs[path + ".txt"])
    ensures Dispatch(Suffix(path + ".txt")) == Ok(Text)
  {
    var c := Candidates(path);
    assert c[0] !in fs.Keys && c[1] in fs.Keys;
    assert FirstExisting(c[1..], fs.Keys) == Some(c[1]);
    ExtensionsAreSuffixes(path);
    DispatchExamples();
  }

  /** A file whose suffix is not one of the three, in any case, is refused with that suffix. */
  lemma UnknownSuffixRefused(full: string, content: FileContent)
    requires Suffix(full) == ".csv"
    ensures LoadFound(full, content) == Err(InvalidSuffix(".csv"))
  {
    DispatchExamples();
  }

  /** Text files never carry parameters; json and pickle files carry the first extra element. */
  lemma MetasChoice(format: Format, content: FileContent)
    requires Decode(Ok(format), content).Ok?
    ensures format == Text ==> Decode(Ok(format), content).value.metas == map[]
    ensures format != Text ==>
      && content.decoded.Saved?
      && Decode(Ok(format), content).value.header == content.decoded.header
      && Decode(Ok(format), content).value.data == content.decoded.data
      && Decode(Ok(format), content).value.metas == (if content.decoded.more != [] then content.decoded.more[0] else map[])
  {
  }

  /** A text file is read as its header lines joined with line ends and its table columns. */
  lemma TextRead(content: FileContent)
    ensures Decode(Ok(Text), content).Ok? <==> TextData(content).Ok?
    ensures Decode(Ok(Text), content).Ok? ==>
      Decode(Ok(Text), content).value == Loaded(Join("\n", HeaderLines(content.lines)), TextData(content).value, map[])
  {
  }

  /**
   * For a text file, the data holds one list per header name: the table's column at the
   * name's index (its last index when a name repeats), and nothing else.
   */
  lemma TextColumns(content: FileContent, i: nat)
    requires TextData(content).Ok?
    requires var vs := HeaderVariables(HeaderLines(content.lines));
      i < |vs| && forall j :: i < j < |vs| ==> vs[j] != vs[i]
    ensures var vs := HeaderVariables(HeaderLines(content.lines));
      && vs[i] in TextData(content).value.entries
      && TextData(content).value.entries[vs[i]] == content.columns[i]
  {
    var vs := HeaderVariables(HeaderLines(content.lines));
    ColumnOfName(vs, content.columns, i);
  }

  /** The text data has exactly the header names as keys; more names than columns fail. */
  lemma TextKeys(content: FileContent)
    ensures var vs := HeaderVariables(HeaderLines(content.lines));
      && (TextData(content).Err? <==> |vs| > |content.columns|)
      && (TextData(content).Ok? ==> forall v :: v in TextData(content).value.entries <==> v in vs)
  {
    var vs := HeaderVariables(HeaderLines(content.lines));
    if |vs| <= |content.columns| {
      ColumnsKeySet(vs, content.columns);
    }
  }

  /** A file whose first line is not a header line has no header and no columns to read. */
  lemma NoHeaderNoData(content: FileContent)
    requires content.lines == [] || !StartsWith(content.lines[0], "# ")
    ensures HeaderLines(content.lines) == [] && TextData(content) == Ok(Empty())
  {
  }
}
