/**
 * `ConfigManager`: finds a project's configuration files, writes the deployment settings
 * into each of them by file type, keeps a `.bilman.env` runtime file beside them, and reads
 * the settings back.
 *
 * The file system is a value: a map from path to contents plus the paths that cannot be
 * opened for writing. JSON and YAML files are held as their parsed mappings and INI files
 * as their parsed sections; every other file as text. `os.walk` output is an input.
 * Configuration values are strings, as every caller passes them.
 */
module ConfigManager {
  import opened Wrappers
  import opened PyText
  import opened OrderedDicts
  import opened DirTree

  // ---------------------------------------------------------------------------
  // The file system
  // ---------------------------------------------------------------------------

  /** A file's contents: text, a JSON/YAML mapping, or the sections of an INI file */
  datatype Content =
    | Text(text: string)
    | Mapping(entries: Dict<string, string>)
    | IniFile(sections: Dict<string, Dict<string, string>>)

  datatype FileSystem = FileSystem(files: map<string, Content>, readOnly: set<string>)

  /** What a handler returns, and the file system after it ran */
  datatype Outcome = Outcome(ok: bool, fs: FileSystem)

  /** `fs'` differs from `fs` at most at `path` */
  ghost predicate OnlyChanges(fs: FileSystem, fs': FileSystem, path: string) {
    && fs'.readOnly == fs.readOnly
    && forall q :: q != path ==> (q in fs'.files <==> q in fs.files) && (q in fs.files ==> fs'.files[q] == fs.files[q])
  }

  /** A handler's effect: nothing but `path` changes, and a failure changes nothing */
  ghost predicate Confined(fs: FileSystem, o: Outcome, path: string) {
    OnlyChanges(fs, o.fs, path) && (!o.ok ==> o.fs == fs)
  }

  /** `fs` and `fs'` agree at `path` */
  ghost predicate SameAt(fs: FileSystem, fs': FileSystem, path: string) {
    (path in fs'.files <==> path in fs.files) && (path in fs.files ==> fs'.files[path] == fs.files[path])
  }

  /** `open(path, 'w')` and a write of `c`; opening a read-only path raises, which the caller catches */
  function Write(fs: FileSystem, path: string, c: Content): (o: Outcome)
    ensures OnlyChanges(fs, o.fs, path)
    ensures o.ok <==> path !in fs.readOnly
    ensures o.ok ==> path in o.fs.files && o.fs.files[path] == c
    ensures !o.ok ==> o.fs == fs
  {
    if path in fs.readOnly then Outcome(false, fs)
    else Outcome(true, fs.(files := fs.files[path := c]))
  }

  /** The text at `path` as read in text mode; "" where the code skips a missing file; None if it is not text */
  function ReadTextOrEmpty(fs: FileSystem, path: string): Option<string> {
    if path !in fs.files then Some("")
    else match fs.files[path]
      case Text(t) => Some(TranslateNewlines(t))
      case _ => None
  }

  // ---------------------------------------------------------------------------
  // Finding configuration files (config_manager.py lines 18-26, 54-64)
  // ---------------------------------------------------------------------------

  const SupportedConfigFiles: seq<string> :=
    ["config.json", "config.yaml", "config.yml", "config.ini", ".env", "settings.py", "app.config"]

  /** A file the search picks up: a supported name, or one ending in ".config" or ".conf" */
  predicate IsConfigFileName(name: string) {
    name in SupportedConfigFiles || EndsWith(name, ".config") || EndsWith(name, ".conf")
  }

  /** The `root` that `os.walk(dir)` reports for the directory at `path` below `dir` */
  function RootPath(dir: string, path: seq<string>): string
    decreases |path|
  {
    if path == [] then dir else JoinPath(RootPath(dir, path[..|path| - 1]), path[|path| - 1])
  }

  /** The configuration files among `files`, joined onto `root`, in order */
  function ConfigFilesIn(root: string, files: seq<FileInfo>): seq<string>
    decreases |files|
  {
    if files == [] then []
    else
      var last := files[|files| - 1];
      ConfigFilesIn(root, files[..|files| - 1]) + (if IsConfigFileName(last.name) then [JoinPath(root, last.name)] else [])
  }

  /** `_find_config_files` over the steps of the walk */
  function ConfigFilesOf(dir: string, steps: seq<Step>): seq<string>
    decreases |steps|
  {
    if steps == [] then []
    else
      var last := steps[|steps| - 1];
      ConfigFilesOf(dir, steps[..|steps| - 1]) + ConfigFilesIn(RootPath(dir, last.path), last.files)
  }

  method FindConfigFiles(dir: string, steps: seq<Step>) returns (found: seq<string>)
    ensures found == ConfigFilesOf(dir, steps)
  {
    found := [];
    var s := 0;
    while s < |steps|
      invariant 0 <= s <= |steps|
      invariant found == ConfigFilesOf(dir, steps[..s])
    {
      var root := RootPath(dir, steps[s].path);
      var files := steps[s].files;
      var inStep: seq<string> := [];
      var i := 0;
      while i < |files|
        invariant 0 <= i <= |files|
        invariant inStep == ConfigFilesIn(root, files[..i])
      {
        if IsConfigFileName(files[i].name) {
          inStep := inStep + [JoinPath(root, files[i].name)];
        }
        assert files[..i + 1][..i] == files[..i];
        i := i + 1;
      }
      assert files[..i] == files;
      assert steps[..s + 1][..s] == steps[..s];
      found := found + inStep;
      s := s + 1;
    }
    assert steps[..s] == steps;
  }

  /** File names never hold "/" */
  ghost predicate PlainNames(steps: seq<Step>) {
    forall s, i :: 0 <= s < |steps| && 0 <= i < |steps[s].files| ==> '/' !in steps[s].files[i].name
  }

  /** Every path found names a configuration file: a supported name, or a ".config"/".conf" one. */
  lemma {:induction false} FoundInAreConfigFiles(root: string, files: seq<FileInfo>)
    requires forall i :: 0 <= i < |files| ==> '/' !in files[i].name
    ensures forall p :: p in ConfigFilesIn(root, files) ==> IsConfigFileName(Basename(p))
    decreases |files|
  {
    if files != [] {
      FoundInAreConfigFiles(root, files[..|files| - 1]);
      BasenameOfJoin(root, files[|files| - 1].name);
    }
  }

  lemma {:induction false} FoundAreConfigFiles(dir: string, steps: seq<Step>)
    requires PlainNames(steps)
    ensures forall p :: p in ConfigFilesOf(dir, steps) ==> IsConfigFileName(Basename(p))
    decreases |steps|
  {
    if steps != [] {
      var last := steps[|steps| - 1];
      assert forall s :: 0 <= s < |steps| - 1 ==> steps[..|steps| - 1][s] == steps[s];
      FoundAreConfigFiles(dir, steps[..|steps| - 1]);
      FoundInAreConfigFiles(RootPath(dir, last.path), last.files);
    }
  }

  /** Conversely, every configuration file the walk lists is found. */
  lemma {:induction false} ConfigFileInFound(root: string, files: seq<FileInfo>, i: nat)
    requires i < |files| && IsConfigFileName(files[i].name)
    ensures JoinPath(root, files[i].name) in ConfigFilesIn(root, files)
    decreases |files|
  {
    if i < |files| - 1 {
      ConfigFileInFound(root, files[..|files| - 1], i);
    }
  }

  lemma {:induction false} ConfigFileFound(dir: string, steps: seq<Step>, s: nat, i: nat)
    requires s < |steps| && i < |steps[s].files| && IsConfigFileName(steps[s].files[i].name)
    ensures JoinPath(RootPath(dir, steps[s].path), steps[s].files[i].name) in ConfigFilesOf(dir, steps)
    decreases |steps|
  {
    if s < |steps| - 1 {
      ConfigFileFound(dir, steps[..|steps| - 1], s, i);
    } else {
      ConfigFileInFound(RootPath(dir, steps[s].path), steps[s].files, i);
    }
  }

  // ---------------------------------------------------------------------------
  // Choosing a handler (config_manager.py lines 66-90)
  // ---------------------------------------------------------------------------

  datatype Handler = JsonHandler | YamlHandler | IniHandler | EnvHandler | PythonHandler | GenericHandler

  /** `_update_config_file`'s tests, in order, on the base name and its lower-cased suffix */
  function HandlerOf(name: string, ext: string): Handler {
    if EndsWith(name, ".json") || ext == ".json" then JsonHandler
    else if EndsWith(name, ".yaml") || EndsWith(name, ".yml") || ext == ".yaml" || ext == ".yml" then YamlHandler
    else if EndsWith(name, ".ini") || ext == ".ini" then IniHandler
    else if name == ".env" || EndsWith(name, ".env") then EnvHandler
    else if EndsWith(name, ".py") then PythonHandler
    else GenericHandler
  }

  /** The handler `_update_config_file` picks for `path` */
  function HandlerFor(path: string): Handler {
    var name := Basename(path);
    HandlerOf(name, Lower(Suffix(name)))
  }

  /** The handler a selected file's name calls for */
  function ExpectedHandler(name: string): Handler {
    if name == "config.json" then JsonHandler
    else if name == "config.yaml" || name == "config.yml" then YamlHandler
    else if name == "config.ini" then IniHandler
    else if name == ".env" then EnvHandler
    else if name == "settings.py" then PythonHandler
    else GenericHandler
  }

  lemma LastCharOfSuffix(s: string, t: string)
    requires EndsWith(s, t) && t != []
    ensures s[|s| - 1] == t[|t| - 1]
  {
    assert s[|s| - |t|..][|t| - 1] == s[|s| - 1];
  }

  /** The lower-cased suffix of a name ends in the name's last character, when that is a lower-case letter. */
  lemma LastOfLowerSuffix(name: string)
    requires name != [] && 'a' <= name[|name| - 1] <= 'z'
    ensures var x := Lower(Suffix(name)); x == [] || x[|x| - 1] == name[|name| - 1]
  {
    var x := Suffix(name);
    if x != [] { LastCharOfSuffix(name, x); }
  }

  /** None of the specific handlers' tests holds for a name ending in "f" or "g". */
  lemma NoSpecificTest(name: string, ext: string)
    requires name != [] && (name[|name| - 1] == 'f' || name[|name| - 1] == 'g')
    requires ext == [] || ext[|ext| - 1] == name[|name| - 1]
    ensures HandlerOf(name, ext) == GenericHandler
  {
    NotEndsWithByLast(name, ".json");
    NotEndsWithByLast(name, ".yaml");
    NotEndsWithByLast(name, ".yml");
    NotEndsWithByLast(name, ".ini");
    NotEndsWithByLast(name, ".env");
    NotEndsWithByLast(name, ".py");
    if ext != [] {
      assert ext != ".json" && ext != ".yaml" && ext != ".yml" && ext != ".ini";
    }
  }

  /** A file named "….conf" or "….config" goes to the generic handler: its last letter rules out every other test. */
  lemma ConfExtensionIsGeneric(name: string)
    requires EndsWith(name, ".config") || EndsWith(name, ".conf")
    ensures HandlerOf(name, Lower(Suffix(name))) == GenericHandler
  {
    if EndsWith(name, ".config") { LastCharOfSuffix(name, ".config"); } else { LastCharOfSuffix(name, ".conf"); }
    LastOfLowerSuffix(name);
    NoSpecificTest(name, Lower(Suffix(name)));
  }

  lemma HandlerConfigJson()
    ensures HandlerOf("config.json", Lower(Suffix("config.json"))) == JsonHandler
  {
    var name := "config.json";
    LastIndexOfAt(name, '.', 6);
    assert Suffix(name) == ".json";
    assert Lower(".json") == ".json";
  }

  lemma HandlerConfigYaml()
    ensures HandlerOf("config.yaml", Lower(Suffix("config.yaml"))) == YamlHandler
  {
    var name := "config.yaml";
    NotEndsWithByLast(name, ".json");
    LastIndexOfAt(name, '.', 6);
    assert Suffix(name) == ".yaml";
    assert Lower(".yaml") == ".yaml";
  }

  lemma HandlerConfigYml()
    ensures HandlerOf("config.yml", Lower(Suffix("config.yml"))) == YamlHandler
  {
    var name := "config.yml";
    NotEndsWithByLast(name, ".json");
    LastIndexOfAt(name, '.', 6);
    assert Suffix(name) == ".yml";
    assert Lower(".yml") == ".yml";
  }

  lemma HandlerConfigIni()
    ensures HandlerOf("config.ini", Lower(Suffix("config.ini"))) == IniHandler
  {
    var name := "config.ini";
    NotEndsWithByLast(name, ".json");
    NotEndsWithByLast(name, ".yaml");
    NotEndsWithByLast(name, ".yml");
    LastIndexOfAt(name, '.', 6);
    assert Suffix(name) == ".ini";
    assert Lower(".ini") == ".ini";
  }

  lemma HandlerEnv()
    ensures HandlerOf(".env", Lower(Suffix(".env"))) == EnvHandler
  {
    var name := ".env";
    NotEndsWithByLast(name, ".json");
    NotEndsWithByLast(name, ".yaml");
    NotEndsWithByLast(name, ".yml");
    NotEndsWithByLast(name, ".ini");
    LastIndexOfAt(name, '.', 0);
    assert Suffix(name) == "";
    assert Lower("") == "";
  }

  lemma HandlerSettingsPy()
    ensures HandlerOf("settings.py", Lower(Suffix("settings.py"))) == PythonHandler
  {
    var name := "settings.py";
    NotEndsWithByLast(name, ".json");
    NotEndsWithByLast(name, ".yaml");
    NotEndsWithByLast(name, ".ini");
    NotEndsWithByLast(name, ".env");
    assert !EndsWith(name, ".yml") by { assert name[|name| - 2] == 'p'; }
    LastIndexOfAt(name, '.', 8);
    assert Suffix(name) == ".py";
    assert Lower(".py") == ".py";
  }

  /** Every file the search selects is handed to the handler its name calls for. */
  lemma SelectedFileHandler(root: string, name: string)
    requires '/' !in name && IsConfigFileName(name)
    ensures HandlerFor(JoinPath(root, name)) == ExpectedHandler(name)
  {
    BasenameOfJoin(root, name);
    ConfigNameHandler(name);
  }

  /** A name the search selects gets, from its own tests, the handler it calls for. */
  lemma ConfigNameHandler(name: string)
    requires IsConfigFileName(name)
    ensures HandlerOf(name, Lower(Suffix(name))) == ExpectedHandler(name)
  {
    if ExpectedHandler(name) != GenericHandler {
      SupportedNameHandler(name);
    } else {
      assert EndsWith(name, ".config") || EndsWith(name, ".conf") by {
        if name == "app.config" { assert name[|name| - 7..] == ".config"; }
      }
      ConfExtensionIsGeneric(name);
    }
  }

  /** The names the search looks for by name get the handler each calls for. */
  lemma SupportedNameHandler(name: string)
    requires ExpectedHandler(name) != GenericHandler
    ensures HandlerOf(name, Lower(Suffix(name))) == ExpectedHandler(name)
  {
    if name == "config.json" {
      HandlerConfigJson();
    } else if name == "config.yaml" {
      HandlerConfigYaml();
    } else if name == "config.yml" {
      HandlerConfigYml();
    } else if name == "config.ini" {
      HandlerConfigIni();
    } else if name == ".env" {
      HandlerEnv();
    } else {
      HandlerSettingsPy();
    }
  }

  // ---------------------------------------------------------------------------
  // Environment files (config_manager.py lines 162-189, 263-278)
  // ---------------------------------------------------------------------------

  /**
   * One line of an env file as `_update_env_config` and `load_config` read it: stripped,
   * then split at its first "=", unless it is blank, a comment or holds no "=".
   */
  function EnvEntry(line: string): (r: Option<(string, string)>)
    ensures r.None? <==> (Strip(line) == [] || StartsWith(Strip(line), "#") || !Contains(Strip(line), "="))
    ensures r.Some? ==> Strip(line) == r.value.0 + "=" + r.value.1 && '=' !in r.value.0
  {
    var l := Strip(line);
    if l != [] && !StartsWith(l, "#") && Contains(l, "=") then
      var i := Find(l, "=").value;
      FindCharSplit(l, '=', i);
      assert l == l[..i] + "=" + l[i + 1..];
      Some((l[..i], l[i + 1..]))
    else None
  }

  /** The entries present among `parsed`, in order */
  function Present(parsed: seq<Option<(string, string)>>): Dict<string, string>
    decreases |parsed|
  {
    if parsed == [] then []
    else
      var last := parsed[|parsed| - 1];
      Present(parsed[..|parsed| - 1]) + (if last.Some? then [last.value] else [])
  }

  lemma {:induction false} PresentAppend(a: seq<Option<(string, string)>>, b: seq<Option<(string, string)>>)
    ensures Present(a + b) == Present(a) + Present(b)
    decreases |b|
  {
    if b == [] {
      assert a + b == a;
    } else {
      var n := |b| - 1;
      var ab := a + b;
      assert ab[..|ab| - 1] == a + b[..n];
      assert ab[|ab| - 1] == b[n];
      PresentAppend(a, b[..n]);
    }
  }

  /** Each line's entry, or None */
  function ParsedLines(lines: seq<string>): (r: seq<Option<(string, string)>>)
    ensures |r| == |lines| && forall i :: 0 <= i < |r| ==> r[i] == EnvEntry(lines[i])
  {
    seq(|lines|, i requires 0 <= i < |lines| => EnvEntry(lines[i]))
  }

  /** The entries read from the lines of an env file, in file order */
  function EnvEntries(lines: seq<string>): Dict<string, string> {
    Present(ParsedLines(lines))
  }

  /** The `existing_vars` dict: each entry assigned in turn, a later duplicate key overriding */
  function EnvVarsOf(lines: seq<string>): Dict<string, string> {
    PutAll([], EnvEntries(lines))
  }

  /** `f"BILMAN_{key.upper()}"` */
  function EnvKey(k: string): string {
    "BILMAN_" + Upper(k)
  }

  /** The configuration with every key renamed to its environment variable */
  function EnvRenamed(config: Dict<string, string>): (r: Dict<string, string>)
    ensures |r| == |config| && forall i :: 0 <= i < |r| ==> r[i] == (EnvKey(config[i].0), config[i].1)
  {
    seq(|config|, i requires 0 <= i < |config| => (EnvKey(config[i].0), config[i].1))
  }

  /** `f"{key}={value}\n"` */
  function EnvLine(k: string, v: string): string {
    k + "=" + v + "\n"
  }

  function EnvLines(d: Dict<string, string>): (r: seq<string>)
    ensures |r| == |d| && forall i :: 0 <= i < |r| ==> r[i] == EnvLine(d[i].0, d[i].1)
  {
    seq(|d|, i requires 0 <= i < |d| => EnvLine(d[i].0, d[i].1))
  }

  const EnvHeader: string := "# Bilman Configuration\n"
  const RuntimeHeader: string := "# Bilman Runtime Configuration\n"

  /** The text `_update_env_config` writes for the variables `vars` */
  function EnvFileText(vars: Dict<string, string>): string {
    EnvHeader + Concat(EnvLines(vars))
  }

  /** `_update_env_config`: the variables already in the file, then the configuration under its `BILMAN_` names */
  function UpdateEnvSpec(fs: FileSystem, path: string, config: Dict<string, string>): (o: Outcome)
    ensures Confined(fs, o, path)
  {
    match ReadTextOrEmpty(fs, path)
    case None => Outcome(false, fs)
    case Some(t) => Write(fs, path, Text(EnvFileText(PutAll(EnvVarsOf(ReadLines(t)), EnvRenamed(config)))))
  }

  /** Concatenating one more part at the end */
  lemma ConcatSnoc(parts: seq<string>, i: nat)
    requires i < |parts|
    ensures Concat(parts[..i + 1]) == Concat(parts[..i]) + parts[i]
  {
    assert parts[..i + 1] == parts[..i] + [parts[i]];
    ConcatAppend(parts[..i], [parts[i]]);
    assert Concat([parts[i]]) == parts[i] + Concat([]);
  }

  /** One more assignment at the end of a run of assignments */
  lemma PutAllSnoc(d: Dict<string, string>, e: Dict<string, string>, i: nat)
    requires i < |e|
    ensures PutAll(d, e[..i + 1]) == Put(PutAll(d, e[..i]), e[i].0, e[i].1)
  {
    assert e[..i + 1][..i] == e[..i];
  }

  /** Writing `vars` as `KEY=VALUE` lines after the header */
  method WriteEnvLines(header: string, vars: Dict<string, string>) returns (text: string)
    ensures text == header + Concat(EnvLines(vars))
  {
    text := header;
    var k := 0;
    while k < |vars|
      invariant 0 <= k <= |vars|
      invariant text == header + Concat(EnvLines(vars)[..k])
    {
      ConcatSnoc(EnvLines(vars), k);
      text := text + EnvLine(vars[k].0, vars[k].1);
      k := k + 1;
    }
    assert EnvLines(vars)[..k] == EnvLines(vars);
  }

  /** Reading the `KEY=VALUE` lines of an env file into a dict */
  method ParseEnvLines(lines: seq<string>) returns (vars: Dict<string, string>)
    ensures vars == EnvVarsOf(lines)
  {
    ghost var parsed := ParsedLines(lines);
    vars := [];
    var i := 0;
    while i < |lines|
      invariant 0 <= i <= |lines|
      invariant vars == PutAll([], Present(parsed[..i]))
    {
      PutPresentSnoc(parsed, i);
      var entry := EnvEntry(lines[i]);
      if entry.Some? {
        vars := Put(vars, entry.value.0, entry.value.1);
      }
      i := i + 1;
    }
    assert parsed[..i] == parsed;
  }

  /** Assigning the entries present in one more parsed line */
  lemma PutPresentSnoc(parsed: seq<Option<(string, string)>>, i: nat)
    requires i < |parsed|
    ensures var d := PutAll([], Present(parsed[..i]));
      PutAll([], Present(parsed[..i + 1])) == if parsed[i].Some? then Put(d, parsed[i].value.0, parsed[i].value.1) else d
  {
    assert parsed[..i + 1][..i] == parsed[..i];
    var before := Present(parsed[..i]);
    if parsed[i].Some? {
      var after := before + [parsed[i].value];
      assert Present(parsed[..i + 1]) == after;
      PutAllSnoc([], after, |before|);
      assert after[..|before| + 1] == after && after[..|before|] == before;
    } else {
      assert Present(parsed[..i + 1]) == before + [];
      assert before + [] == before;
    }
  }

  method UpdateEnvConfig(fs: FileSystem, path: string, config: Dict<string, string>) returns (o: Outcome)
    ensures o == UpdateEnvSpec(fs, path, config)
  {
    var read := ReadTextOrEmpty(fs, path);
    if read.None? {
      return Outcome(false, fs);
    }
    var vars := ParseEnvLines(ReadLines(read.value));
    ghost var existing := vars;
    var renamed := EnvRenamed(config);
    var j := 0;
    while j < |config|
      invariant 0 <= j <= |config|
      invariant vars == PutAll(existing, renamed[..j])
    {
      PutAllSnoc(existing, renamed, j);
      vars := Put(vars, EnvKey(config[j].0), config[j].1);
      j := j + 1;
    }
    assert renamed[..j] == renamed;
    var text := WriteEnvLines(EnvHeader, vars);
    o := Write(fs, path, Text(text));
  }

  /**
   * After the update each configuration key's variable holds the configuration's value, and
   * every variable no configuration key maps to keeps the value it had.
   */
  lemma EnvUpdateGet(vars: Dict<string, string>, config: Dict<string, string>, key: string)
    requires DistinctKeys(EnvRenamed(config))
    ensures forall i :: 0 <= i < |config| && key == EnvKey(config[i].0) ==>
      Get(PutAll(vars, EnvRenamed(config)), key) == Some(config[i].1)
    ensures (forall i :: 0 <= i < |config| ==> key != EnvKey(config[i].0)) ==>
      Get(PutAll(vars, EnvRenamed(config)), key) == Get(vars, key)
  {
    var e := EnvRenamed(config);
    PutAllGet(vars, e, key);
    forall i | 0 <= i < |config| && key == EnvKey(config[i].0)
      ensures Get(e, key) == Some(config[i].1)
    {
      assert Keys(e)[i] == key;
      assert forall j :: 0 <= j < |e| && j != i ==> e[j].0 != e[i].0;
      assert IndexOf(e, key) == Some(i);
    }
    if forall i :: 0 <= i < |config| ==> key != EnvKey(config[i].0) {
      assert key !in Keys(e) by {
        forall i | 0 <= i < |e| ensures Keys(e)[i] != key { assert Keys(e)[i] == EnvKey(config[i].0); }
      }
    }
  }

  /**
   * An entry that the env-file format carries through a write and a text-mode read
   * unchanged
   */
  predicate EnvSafe(k: string, v: string) {
    && k != [] && !IsSpace(k[0]) && k[0] != '#'
    && '=' !in k && '\n' !in k && '\n' !in v && '\r' !in k && '\r' !in v
    && (v == [] || !IsSpace(v[|v| - 1]))
  }

  /** A written `KEY=VALUE` line reads back as that entry. */
  lemma EnvEntryOfLine(k: string, v: string)
    requires EnvSafe(k, v)
    ensures EnvEntry(EnvLine(k, v)) == Some((k, v))
  {
    var body := k + "=" + v;
    assert body[0] == k[0];
    assert body[|body| - 1] == if v == [] then '=' else v[|v| - 1];
    StripLine(body);
    assert EnvLine(k, v) == body + "\n";
    assert !StartsWith(body, "#") by { assert body[..1] == [k[0]]; }
    FindCharAt(k, '=', v);
    assert body == k + ['='] + v;
    assert OccursAt(body, "=", |k|);
    assert body[..|k|] == k && body[|k| + 1..] == v;
  }

  lemma EnvEntriesAppend(a: seq<string>, b: seq<string>)
    ensures EnvEntries(a + b) == EnvEntries(a) + EnvEntries(b)
  {
    assert ParsedLines(a + b) == ParsedLines(a) + ParsedLines(b);
    PresentAppend(ParsedLines(a), ParsedLines(b));
  }

  lemma {:induction false} PresentSomes(p: seq<Option<(string, string)>>, d: Dict<string, string>)
    requires |p| == |d| && forall i :: 0 <= i < |p| ==> p[i] == Some(d[i])
    ensures Present(p) == d
    decreases |p|
  {
    if p != [] {
      var n := |p| - 1;
      PresentSomes(p[..n], d[..n]);
      assert d == d[..n] + [d[n]];
    }
  }

  /** The lines written for safe entries read back as exactly those entries. */
  lemma EnvEntriesOfLines(d: Dict<string, string>)
    requires forall i :: 0 <= i < |d| ==> EnvSafe(d[i].0, d[i].1)
    ensures EnvEntries(EnvLines(d)) == d
  {
    var p := ParsedLines(EnvLines(d));
    forall i | 0 <= i < |p| ensures p[i] == Some(d[i]) {
      EnvEntryOfLine(d[i].0, d[i].1);
    }
    PresentSomes(p, d);
  }

  /** A header line of the form "# …\n" */
  predicate CommentLine(h: string) {
    && 2 <= |h| && h[0] == '#' && h[|h| - 1] == '\n'
    && !IsSpace(h[|h| - 2])
    && forall j :: 0 <= j < |h| - 1 ==> h[j] != '\n'
  }

  lemma CommentLineIgnored(h: string)
    requires CommentLine(h)
    ensures EnvEntry(h) == None
  {
    var body := h[..|h| - 1];
    assert h == body + "\n";
    StripLine(body);
    assert StartsWith(body, "#");
  }

  /**
   * An env file made of a comment header and the lines for safe entries reads back as those
   * entries: the header is ignored, and each line gives back its key and value.
   */
  lemma EnvTextReadsBack(header: string, d: Dict<string, string>)
    requires CommentLine(header)
    requires forall i :: 0 <= i < |d| ==> EnvSafe(d[i].0, d[i].1)
    ensures EnvEntries(ReadLines(header + Concat(EnvLines(d)))) == d
  {
    var ls := [header] + EnvLines(d);
    assert ls[1..] == EnvLines(d);
    assert Concat(ls) == header + Concat(EnvLines(d));
    forall i | 0 <= i < |ls| ensures EndsWith(ls[i], "\n") && forall j :: 0 <= j < |ls[i]| - 1 ==> ls[i][j] != '\n' {
      if i > 0 {
        var k := d[i - 1].0;
        var v := d[i - 1].1;
        assert ls[i] == k + "=" + v + "\n";
        forall j | 0 <= j < |ls[i]| - 1 ensures ls[i][j] != '\n' {
          if j < |k| { assert ls[i][j] == k[j]; }
          else if j > |k| { assert ls[i][j] == v[j - |k| - 1]; }
        }
      }
    }
    ReadLinesOfConcat(ls);
    EnvEntriesAppend([header], EnvLines(d));
    CommentLineIgnored(header);
    assert EnvEntries([header]) == [] by {
      var p := ParsedLines([header]);
      assert p[0] == None;
      assert p[..0] == [];
      assert Present(p) == Present(p[..0]) + [];
    }
    EnvEntriesOfLines(d);
  }

  lemma EnvHeaderIsComment()
    ensures CommentLine(EnvHeader) && CommentLine(RuntimeHeader)
  {
  }

  /**
   * The env file `_update_env_config` writes, read back in text mode, holds exactly the
   * merged variables, one `KEY=VALUE` line each after the header, when each of them
   * survives the format.
   */
  lemma EnvFileReadsBack(vars: Dict<string, string>)
    requires DistinctKeys(vars)
    requires forall i :: 0 <= i < |vars| ==> EnvSafe(vars[i].0, vars[i].1)
    ensures EnvVarsOf(TextLines(EnvFileText(vars))) == vars
  {
    var t := EnvFileText(vars);
    var lines := EnvLines(vars);
    assert '\r' !in t by {
      forall i | 0 <= i < |lines| ensures '\r' !in lines[i] {
        assert lines[i] == vars[i].0 + "=" + vars[i].1 + "\n";
      }
      ConcatExcludes(lines, '\r');
    }
    TranslateNewlinesUnchanged(t);
    EnvHeaderIsComment();
    EnvTextReadsBack(EnvHeader, vars);
    PutAllFresh(vars);
  }


  // ---------------------------------------------------------------------------
  // The runtime env file and reading the settings back (config_manager.py lines 263-306)
  // ---------------------------------------------------------------------------

  /** The text `_create_env_file` writes */
  function RuntimeEnvText(config: Dict<string, string>): string {
    RuntimeHeader + Concat(EnvLines(EnvRenamed(config)))
  }

  /** `_create_env_file`: `.bilman.env` in the project directory, rewritten from scratch */
  function CreateEnvFileSpec(fs: FileSystem, dir: string, config: Dict<string, string>): Outcome {
    Write(fs, JoinPath(dir, ".bilman.env"), Text(RuntimeEnvText(config)))
  }

  method CreateEnvFile(fs: FileSystem, dir: string, config: Dict<string, string>) returns (o: Outcome)
    ensures o == CreateEnvFileSpec(fs, dir, config)
  {
    var text := RuntimeHeader;
    var renamed := EnvRenamed(config);
    var lines := EnvLines(renamed);
    var i := 0;
    while i < |config|
      invariant 0 <= i <= |config|
      invariant text == RuntimeHeader + Concat(lines[..i])
    {
      var line := EnvKey(config[i].0) + "=" + config[i].1 + "\n";
      ConcatSnoc(lines, i);
      text := text + line;
      i := i + 1;
    }
    assert lines[..i] == lines;
    o := Write(fs, JoinPath(dir, ".bilman.env"), Text(text));
  }

  /** The `BILMAN_` entries with the prefix removed and the rest lower-cased, in order */
  function Unprefixed(d: Dict<string, string>): Dict<string, string>
    decreases |d|
  {
    if d == [] then []
    else
      var e := d[|d| - 1];
      Unprefixed(d[..|d| - 1]) + (if StartsWith(e.0, "BILMAN_") then [(Lower(e.0[7..]), e.1)] else [])
  }

  /** Every key `load_config` reports is lower-case. */
  lemma {:induction false} UnprefixedLower(d: Dict<string, string>)
    ensures forall i :: 0 <= i < |Unprefixed(d)| ==> Lower(Unprefixed(d)[i].0) == Unprefixed(d)[i].0
    decreases |d|
  {
    if d != [] {
      var e := d[|d| - 1];
      UnprefixedLower(d[..|d| - 1]);
      if StartsWith(e.0, "BILMAN_") { LowerLower(e.0[7..]); }
    }
  }

  /** The settings `load_config` reads from the lines of `.bilman.env` */
  function BilmanVarsOf(lines: seq<string>): Dict<string, string> {
    PutAll([], Unprefixed(EnvEntries(lines)))
  }

  /**
   * `load_config`: `bilman_config.json` when it exists, else the `BILMAN_` variables of
   * `.bilman.env` when that exists, else nothing; a file it cannot read gives nothing too.
   */
  function LoadConfigOf(fs: FileSystem, dir: string): Option<Dict<string, string>> {
    var jsonPath := JoinPath(dir, "bilman_config.json");
    var envPath := JoinPath(dir, ".bilman.env");
    if jsonPath in fs.files then
      (match fs.files[jsonPath] case Mapping(m) => Some(m) case _ => None)
    else if envPath in fs.files then
      (match fs.files[envPath] case Text(t) => Some(BilmanVarsOf(TextLines(t))) case _ => None)
    else None
  }

  lemma PresentSnoc(parsed: seq<Option<(string, string)>>, i: nat)
    requires i < |parsed|
    ensures Present(parsed[..i + 1]) == Present(parsed[..i]) + (if parsed[i].Some? then [parsed[i].value] else [])
  {
    assert parsed[..i + 1][..i] == parsed[..i];
  }

  lemma UnprefixedSnoc(d: Dict<string, string>, e: (string, string))
    ensures Unprefixed(d + [e]) == Unprefixed(d) + (if StartsWith(e.0, "BILMAN_") then [(Lower(e.0[7..]), e.1)] else [])
  {
    assert (d + [e])[..|d|] == d;
  }

  /** Assigning zero or one more entries */
  lemma PutAllOptional(d: Dict<string, string>, u: Dict<string, string>, extra: Dict<string, string>)
    requires |extra| <= 1
    ensures PutAll(d, u + extra) == if extra == [] then PutAll(d, u) else Put(PutAll(d, u), extra[0].0, extra[0].1)
  {
    if extra == [] {
      assert u + extra == u;
    } else {
      assert (u + extra)[..|u|] == u;
    }
  }

  /** Assigning the `BILMAN_` setting of one more parsed line */
  lemma PutUnprefixedSnoc(parsed: seq<Option<(string, string)>>, i: nat)
    requires i < |parsed|
    ensures var d := PutAll([], Unprefixed(Present(parsed[..i])));
      PutAll([], Unprefixed(Present(parsed[..i + 1]))) ==
        if parsed[i].Some? && StartsWith(parsed[i].value.0, "BILMAN_")
        then Put(d, Lower(parsed[i].value.0[7..]), parsed[i].value.1)
        else d
  {
    var before := Present(parsed[..i]);
    PresentSnoc(parsed, i);
    if parsed[i].Some? {
      var e := parsed[i].value;
      UnprefixedSnoc(before, e);
      PutAllOptional([], Unprefixed(before), if StartsWith(e.0, "BILMAN_") then [(Lower(e.0[7..]), e.1)] else []);
    } else {
      assert before + [] == before;
    }
  }

  method LoadConfig(fs: FileSystem, dir: string) returns (r: Option<Dict<string, string>>)
    ensures r == LoadConfigOf(fs, dir)
  {
    var jsonPath := JoinPath(dir, "bilman_config.json");
    if jsonPath in fs.files {
      return match fs.files[jsonPath] case Mapping(m) => Some(m) case _ => None;
    }
    var envPath := JoinPath(dir, ".bilman.env");
    if envPath !in fs.files || !fs.files[envPath].Text? {
      return None;
    }
    var lines := TextLines(fs.files[envPath].text);
    ghost var parsed := ParsedLines(lines);
    var config: Dict<string, string> := [];
    var i := 0;
    while i < |lines|
      invariant 0 <= i <= |lines|
      invariant config == PutAll([], Unprefixed(Present(parsed[..i])))
    {
      PutUnprefixedSnoc(parsed, i);
      var entry := EnvEntry(lines[i]);
      if entry.Some? && StartsWith(entry.value.0, "BILMAN_") {
        config := Put(config, Lower(entry.value.0[7..]), entry.value.1);
      }
      i := i + 1;
    }
    assert parsed[..i] == parsed;
    r := Some(config);
  }

  /** A setting that survives `_create_env_file` then `load_config` */
  predicate RoundTrips(k: string, v: string) {
    && Lower(k) == k && '=' !in k && '\n' !in k && '\r' !in k
    && '\n' !in v && '\r' !in v && (v == [] || !IsSpace(v[|v| - 1]))
  }

  /** The settings' variables are safe for the env-file format. */
  lemma RenamedSafe(config: Dict<string, string>)
    requires forall i :: 0 <= i < |config| ==> RoundTrips(config[i].0, config[i].1)
    ensures forall i :: 0 <= i < |config| ==> EnvSafe(EnvKey(config[i].0), config[i].1)
    ensures forall i :: 0 <= i < |config| ==> '\r' !in EnvLine(EnvKey(config[i].0), config[i].1)
  {
    forall i | 0 <= i < |config|
      ensures EnvSafe(EnvKey(config[i].0), config[i].1)
      ensures '\r' !in EnvLine(EnvKey(config[i].0), config[i].1)
    {
      var k := config[i].0;
      UpperKeeps(k, '=');
      UpperKeeps(k, '\n');
      UpperKeeps(k, '\r');
      assert EnvKey(k)[0] == 'B';
    }
  }

  /** Removing the prefix from the renamed settings gives the settings back. */
  lemma {:induction false} UnprefixedRenamed(config: Dict<string, string>)
    requires forall i :: 0 <= i < |config| ==> Lower(config[i].0) == config[i].0
    ensures Unprefixed(EnvRenamed(config)) == config
    decreases |config|
  {
    if config != [] {
      var n := |config| - 1;
      var r := EnvRenamed(config);
      assert r[..n] == EnvRenamed(config[..n]);
      UnprefixedRenamed(config[..n]);
      var k := config[n].0;
      assert StartsWith(EnvKey(k), "BILMAN_");
      assert EnvKey(k)[7..] == Upper(k);
      LowerOfUpper(k);
      assert config == config[..n] + [config[n]];
    }
  }

  /** The runtime env text reads back as the settings written, when each of them round-trips. */
  lemma RuntimeTextReadsBack(config: Dict<string, string>)
    requires DistinctKeys(config)
    requires forall i :: 0 <= i < |config| ==> RoundTrips(config[i].0, config[i].1)
    ensures BilmanVarsOf(TextLines(RuntimeEnvText(config))) == config
  {
    var t := RuntimeEnvText(config);
    var renamed := EnvRenamed(config);
    RenamedSafe(config);
    assert '\r' !in t by {
      ConcatExcludes(EnvLines(renamed), '\r');
    }
    TranslateNewlinesUnchanged(t);
    assert TextLines(t) == ReadLines(t);
    EnvHeaderIsComment();
    EnvTextReadsBack(RuntimeHeader, renamed);
    UnprefixedRenamed(config);
    PutAllFresh(config);
  }

  /** `bilman_config.json` and `.bilman.env` are different files. */
  lemma JsonAndEnvPathsDiffer(dir: string)
    ensures JoinPath(dir, "bilman_config.json") != JoinPath(dir, ".bilman.env")
  {
    var json, env := "bilman_config.json", ".bilman.env";
    assert |json| != |env|;
    JoinPathInjective(dir, json, env);
  }

  /**
   * `_create_env_file` followed by `load_config`, with no `bilman_config.json` in the way,
   * gives back the settings written: lower-case keys without "=", and keys and values
   * without line breaks or trailing whitespace on the value.
   */
  lemma EnvRoundTrip(fs: FileSystem, dir: string, config: Dict<string, string>)
    requires JoinPath(dir, "bilman_config.json") !in fs.files
    requires JoinPath(dir, ".bilman.env") !in fs.readOnly
    requires DistinctKeys(config)
    requires forall i :: 0 <= i < |config| ==> RoundTrips(config[i].0, config[i].1)
    ensures LoadConfigOf(CreateEnvFileSpec(fs, dir, config).fs, dir) == Some(config)
  {
    JsonAndEnvPathsDiffer(dir);
    var fs' := CreateEnvFileSpec(fs, dir, config).fs;
    assert JoinPath(dir, "bilman_config.json") !in fs'.files;
    assert fs'.files[JoinPath(dir, ".bilman.env")] == Text(RuntimeEnvText(config));
    RuntimeTextReadsBack(config);
  }

  // ---------------------------------------------------------------------------
  // Python and generic files: a marked block appended once (config_manager.py lines 191-247)
  // ---------------------------------------------------------------------------

  const Marker: string := "# Bilman Configuration"
  const BlockHeader: string := "\n# Bilman Configuration\n"

  /** `f'{var_name} = "{value}"\n'` for a string value */
  function PythonLine(k: string, v: string): string {
    EnvKey(k) + " = \"" + v + "\"\n"
  }

  function PythonLines(config: Dict<string, string>): (r: seq<string>)
    ensures |r| == |config| && forall i :: 0 <= i < |r| ==> r[i] == PythonLine(config[i].0, config[i].1)
  {
    seq(|config|, i requires 0 <= i < |config| => PythonLine(config[i].0, config[i].1))
  }

  /** `f"bilman.{key}={value}\n"` */
  function GenericLine(k: string, v: string): string {
    "bilman." + k + "=" + v + "\n"
  }

  function GenericLines(config: Dict<string, string>): (r: seq<string>)
    ensures |r| == |config| && forall i :: 0 <= i < |r| ==> r[i] == GenericLine(config[i].0, config[i].1)
  {
    seq(|config|, i requires 0 <= i < |config| => GenericLine(config[i].0, config[i].1))
  }

  /** The content after the update: the block is appended unless the marker is already there. */
  function AppendOnce(content: string, block: string): (r: string)
    ensures StartsWith(r, content)
    ensures Contains(content, Marker) ==> r == content
    ensures !Contains(content, Marker) ==> r[|content|..] == block
    ensures Contains(block, Marker) ==> Contains(r, Marker)
  {
    if Contains(content, Marker) then content
    else
      ContainsRight(content, block, Marker);
      content + block
  }

  /** Read the file (or "" when it is missing), append the block once, write it back */
  function UpdateAppendSpec(fs: FileSystem, path: string, block: string): (o: Outcome)
    ensures Confined(fs, o, path)
  {
    match ReadTextOrEmpty(fs, path)
    case None => Outcome(false, fs)
    case Some(t) => Write(fs, path, Text(AppendOnce(t, block)))
  }

  function UpdatePythonSpec(fs: FileSystem, path: string, config: Dict<string, string>): (o: Outcome)
    ensures Confined(fs, o, path)
  {
    UpdateAppendSpec(fs, path, BlockHeader + Concat(PythonLines(config)))
  }

  function UpdateGenericSpec(fs: FileSystem, path: string, config: Dict<string, string>): (o: Outcome)
    ensures Confined(fs, o, path)
  {
    UpdateAppendSpec(fs, path, BlockHeader + Concat(GenericLines(config)))
  }

  /** The block `_update_python_config` builds, line by line */
  method BuildPythonBlock(config: Dict<string, string>) returns (block: string)
    ensures block == BlockHeader + Concat(PythonLines(config))
  {
    block := BlockHeader;
    var lines := PythonLines(config);
    var i := 0;
    while i < |config|
      invariant 0 <= i <= |config|
      invariant block == BlockHeader + Concat(lines[..i])
    {
      var line := EnvKey(config[i].0) + " = \"" + config[i].1 + "\"\n";
      ConcatSnoc(lines, i);
      block := block + line;
      i := i + 1;
    }
    assert lines[..i] == lines;
  }

  method UpdatePythonConfig(fs: FileSystem, path: string, config: Dict<string, string>) returns (o: Outcome)
    ensures o == UpdatePythonSpec(fs, path, config)
  {
    var read := ReadTextOrEmpty(fs, path);
    if read.None? {
      return Outcome(false, fs);
    }
    var content := read.value;
    var block := BuildPythonBlock(config);
    if !Contains(content, Marker) {
      content := content + block;
    }
    o := Write(fs, path, Text(content));
  }

  /** The block `_update_generic_config` builds, line by line */
  method BuildGenericBlock(config: Dict<string, string>) returns (block: string)
    ensures block == BlockHeader + Concat(GenericLines(config))
  {
    block := BlockHeader;
    var lines := GenericLines(config);
    var i := 0;
    while i < |config|
      invariant 0 <= i <= |config|
      invariant block == BlockHeader + Concat(lines[..i])
    {
      var line := "bilman." + config[i].0 + "=" + config[i].1 + "\n";
      ConcatSnoc(lines, i);
      block := block + line;
      i := i + 1;
    }
    assert lines[..i] == lines;
  }

  method UpdateGenericConfig(fs: FileSystem, path: string, config: Dict<string, string>) returns (o: Outcome)
    ensures o == UpdateGenericSpec(fs, path, config)
  {
    var read := ReadTextOrEmpty(fs, path);
    if read.None? {
      return Outcome(false, fs);
    }
    var content := read.value;
    var block := BuildGenericBlock(config);
    if !Contains(content, Marker) {
      content := content + block;
    }
    o := Write(fs, path, Text(content));
  }

  /** Every block starts with the marker line. */
  lemma BlockHasMarker(rest: string)
    ensures Contains(BlockHeader + rest, Marker)
  {
    assert BlockHeader == "\n" + Marker + "\n";
    assert BlockHeader[1..1 + |Marker|] == Marker;
    assert OccursAt(BlockHeader, Marker, 1);
    OccursInLeft(BlockHeader, rest, Marker, 1);
  }

  /**
   * Appending a marked block is idempotent: a second update leaves the file and the file
   * system as the first left them, provided the block holds no carriage return (which
   * reading in text mode would turn into a newline).
   */
  lemma AppendUpdateIdempotent(fs: FileSystem, path: string, block: string)
    requires Contains(block, Marker) && '\r' !in block
    ensures var o := UpdateAppendSpec(fs, path, block); o.ok ==> UpdateAppendSpec(o.fs, path, block) == o
  {
    var o := UpdateAppendSpec(fs, path, block);
    if o.ok {
      var t := ReadTextOrEmpty(fs, path).value;
      var c := AppendOnce(t, block);
      assert '\r' !in c;
      TranslateNewlinesUnchanged(c);
      assert ReadTextOrEmpty(o.fs, path) == Some(c);
      assert AppendOnce(c, block) == c;
      assert o.fs.files[path := Text(c)] == o.fs.files;
    }
  }

  lemma PythonUpdateIdempotent(fs: FileSystem, path: string, config: Dict<string, string>)
    requires forall i :: 0 <= i < |config| ==> '\r' !in config[i].0 && '\r' !in config[i].1
    ensures var o := UpdatePythonSpec(fs, path, config); o.ok ==> UpdatePythonSpec(o.fs, path, config) == o
  {
    var lines := PythonLines(config);
    BlockHasMarker(Concat(lines));
    forall i | 0 <= i < |lines| ensures '\r' !in lines[i] {
      UpperKeeps(config[i].0, '\r');
    }
    ConcatExcludes(lines, '\r');
    AppendUpdateIdempotent(fs, path, BlockHeader + Concat(lines));
  }

  lemma GenericUpdateIdempotent(fs: FileSystem, path: string, config: Dict<string, string>)
    requires forall i :: 0 <= i < |config| ==> '\r' !in config[i].0 && '\r' !in config[i].1
    ensures var o := UpdateGenericSpec(fs, path, config); o.ok ==> UpdateGenericSpec(o.fs, path, config) == o
  {
    var lines := GenericLines(config);
    BlockHasMarker(Concat(lines));
    ConcatExcludes(lines, '\r');
    AppendUpdateIdempotent(fs, path, BlockHeader + Concat(lines));
  }

  // ---------------------------------------------------------------------------
  // JSON and YAML files: merged mappings (config_manager.py lines 92-135)
  // ---------------------------------------------------------------------------

  /** What `json.load` gives for the file: nothing read for a missing file, a mapping, or an error */
  function JsonExisting(fs: FileSystem, path: string): Option<Dict<string, string>> {
    if path !in fs.files then Some([])
    else match fs.files[path]
      case Mapping(m) => Some(m)
      case _ => None
  }

  /**
   * Every line of the text is blank or, past its leading whitespace, starts a comment:
   * with "#", or also with ";" when `semicolon` holds.
   */
  predicate OnlyComments(t: string, semicolon: bool) {
    var lines := TextLines(t);
    forall i :: 0 <= i < |lines| ==>
      var l := Strip(lines[i]);
      l == [] || l[0] == '#' || (semicolon && l[0] == ';')
  }

  /** Parts that join to whitespace are each blank. */
  lemma {:induction false} BlankParts(ls: seq<string>)
    requires forall j :: 0 <= j < |Concat(ls)| ==> IsSpace(Concat(ls)[j])
    ensures forall i :: 0 <= i < |ls| ==> Strip(ls[i]) == []
  {
    if ls != [] {
      var c := Concat(ls);
      var rest := Concat(ls[1..]);
      assert c == ls[0] + rest;
      forall j | 0 <= j < |ls[0]| ensures IsSpace(ls[0][j]) { assert ls[0][j] == c[j]; }
      StripEmpty(ls[0]);
      forall j | 0 <= j < |rest| ensures IsSpace(rest[j]) { assert rest[j] == c[|ls[0]| + j]; }
      BlankParts(ls[1..]);
      forall i | 0 < i < |ls| ensures Strip(ls[i]) == [] { assert ls[i] == ls[1..][i - 1]; }
    }
  }

  /** A text that strips to nothing holds only blank lines. */
  lemma BlankIsOnlyComments(t: string, semicolon: bool)
    requires Strip(TranslateNewlines(t)) == []
    ensures OnlyComments(t, semicolon)
  {
    StripEmpty(TranslateNewlines(t));
    BlankParts(TextLines(t));
  }

  /** `yaml.safe_load(f) or {}`: a file of blank and comment lines loads as nothing, hence `{}` */
  function YamlExisting(fs: FileSystem, path: string): Option<Dict<string, string>> {
    if path !in fs.files then Some([])
    else match fs.files[path]
      case Mapping(m) => Some(m)
      case Text(t) => if OnlyComments(t, false) then Some([]) else None
      case IniFile(_) => None
  }

  /** `{**existing, **config_data}` written back, or a failure when the file could not be loaded */
  function MergeInto(fs: FileSystem, path: string, existing: Option<Dict<string, string>>, config: Dict<string, string>): (o: Outcome)
    ensures Confined(fs, o, path)
  {
    match existing
    case None => Outcome(false, fs)
    case Some(m) => Write(fs, path, Mapping(PutAll(m, config)))
  }

  function UpdateJsonSpec(fs: FileSystem, path: string, config: Dict<string, string>): (o: Outcome)
    ensures Confined(fs, o, path)
  {
    MergeInto(fs, path, JsonExisting(fs, path), config)
  }

  function UpdateYamlSpec(fs: FileSystem, path: string, config: Dict<string, string>): (o: Outcome)
    ensures Confined(fs, o, path)
  {
    MergeInto(fs, path, YamlExisting(fs, path), config)
  }

  /** A YAML file holding one comment line is updated as if it were empty. */
  lemma CommentedYamlStartsEmpty(fs: FileSystem, path: string, config: Dict<string, string>, remark: string)
    requires '\n' !in remark && '\r' !in remark
    requires path in fs.files && fs.files[path] == Text("#" + remark + "\n")
    ensures UpdateYamlSpec(fs, path, config) == Write(fs, path, Mapping(PutAll([], config)))
  {
    var t := "#" + remark + "\n";
    forall i | 0 <= i < |t| ensures t[i] != '\r' {
      if 0 < i < |t| - 1 { assert t[i] == remark[i - 1]; }
    }
    TranslateNewlinesUnchanged(t);
    forall j | 0 <= j < |t| - 1 ensures t[j] != '\n' {
      if 0 < j { assert t[j] == remark[j - 1]; }
    }
    assert EndsWith(t, "\n") by { assert t[|t| - 1..] == "\n"; }
    ReadLinesOfConcatLine(t, []);
    assert t + [] == t;
    assert TextLines(t) == [t];
    assert SpanSpaces(t) == 0;
    assert Strip(t)[0] == '#';
  }

  /**
   * A merge succeeds exactly when the existing file loaded and can be written; then every
   * key of the configuration has its value, and every other key keeps the one it had.
   */
  lemma MergeUpdate(fs: FileSystem, path: string, existing: Option<Dict<string, string>>, config: Dict<string, string>, k: string)
    requires DistinctKeys(config)
    ensures var o := MergeInto(fs, path, existing, config);
      && (o.ok <==> existing.Some? && path !in fs.readOnly)
      && (!o.ok ==> o.fs == fs)
      && (o.ok ==> o.fs.files[path].Mapping?)
      && (o.ok ==> Get(o.fs.files[path].entries, k) == if k in Keys(config) then Get(config, k) else Get(existing.value, k))
  {
    if existing.Some? {
      PutAllGet(existing.value, config, k);
    }
  }

  // ---------------------------------------------------------------------------
  // INI files: the `bilman` section (config_manager.py lines 137-160)
  // ---------------------------------------------------------------------------

  /** What `config.read` leaves: no sections for a missing file or one of blank and comment lines, the sections of an INI file, or an error */
  function IniExisting(fs: FileSystem, path: string): Option<Dict<string, Dict<string, string>>> {
    if path !in fs.files then Some([])
    else match fs.files[path]
      case IniFile(secs) => Some(secs)
      case Text(t) => if OnlyComments(t, true) then Some([]) else None
      case Mapping(_) => None
  }

  /**
   * A `%(name)s` reference of `n` characters starts `v`, as the key pattern of
   * `configparser`'s basic interpolation matches it: "%(", a non-empty name without ")",
   * then ")s".
   */
  predicate KeyReferenceOf(v: string, n: nat) {
    5 <= n <= |v| && v[0] == '%' && v[1] == '(' && v[n - 2] == ')' && v[n - 1] == 's'
    && forall j :: 2 <= j < n - 2 ==> v[j] != ')'
  }

  /** The length of the key reference that starts `v`, if one does */
  function KeyReferenceAt(v: string): (r: Option<nat>)
    ensures r.Some? ==> KeyReferenceOf(v, r.value)
    ensures r.None? ==> forall n :: !KeyReferenceOf(v, n)
  {
    if |v| < 2 || v[0] != '%' || v[1] != '(' then None
    else match IndexOfChar(v[2..], ')')
      case None =>
        assert forall n :: KeyReferenceOf(v, n) ==> v[2..][n - 4] == ')';
        None
      case Some(k) =>
        if k == 0 then
          assert v[2] == ')';
          None
        else if 2 + k + 1 < |v| && v[2 + k + 1] == 's' then
          assert forall j :: 2 <= j < 2 + k ==> v[j] == v[2..][j - 2];
          Some(2 + k + 2)
        else
          assert forall n: nat :: KeyReferenceOf(v, n) ==> n - 2 == 2 + k by {
            forall n: nat | KeyReferenceOf(v, n) ensures n - 2 == 2 + k {
              assert v[2..][n - 4] == ')';
            }
          }
          None
  }

  /** `_KEYCRE.sub('', v)`: every key reference, found left to right, removed */
  function RemoveKeyReferences(v: string): (r: string)
    ensures |r| <= |v|
    decreases |v|
  {
    if v == [] then []
    else match KeyReferenceAt(v)
      case Some(n) => RemoveKeyReferences(v[n..])
      case None => [v[0]] + RemoveKeyReferences(v[1..])
  }


  /**
   * `config.set` accepts a value once its "%%" escapes and then its `%(name)s` references
   * are removed and no "%" is left.
   */
  predicate InterpolationOk(v: string) {
    '%' !in RemoveKeyReferences(ReplaceAll(v, "%%", ""))
  }

  /** A text without "%" has no "%%" escape to remove. */
  lemma NoEscapesWithoutPercent(v: string)
    requires '%' !in v
    ensures ReplaceAll(v, "%%", "") == v
  {
    assert !Contains(v, "%%") by {
      forall k | 0 <= k <= |v| - 2 ensures !OccursAt(v, "%%", k) {
        assert v[k..k + 2][0] == v[k];
      }
    }
  }

  /** A text without "%" has no key reference to remove. */
  lemma NoReferencesWithoutPercent(v: string)
    requires '%' !in v
    ensures RemoveKeyReferences(v) == v
  {
    PercentFreePrefixKept(v, []);
    assert v + [] == v;
  }

  /** Text without "%" in front of a value is kept as it is. */
  lemma {:induction false} PercentFreePrefixKept(a: string, rest: string)
    requires forall i :: 0 <= i < |a| ==> a[i] != '%'
    ensures RemoveKeyReferences(a + rest) == a + RemoveKeyReferences(rest)
    decreases |a|
  {
    if a == [] {
      assert a + rest == rest;
    } else {
      var c, tail := a[0], a[1..];
      assert RemoveKeyReferences(tail + rest) == tail + RemoveKeyReferences(rest) by {
        forall i | 0 <= i < |tail| ensures tail[i] != '%' { assert tail[i] == a[i + 1]; }
        PercentFreePrefixKept(tail, rest);
      }
      assert RemoveKeyReferences([c] + (tail + rest)) == [c] + RemoveKeyReferences(tail + rest) by {
        KeepsFirstCharacter(c, tail + rest);
      }
      assert a + rest == [c] + (tail + rest) && a == [c] + tail;
    }
  }

  /** A character other than "%" in front of a text is kept. */
  lemma KeepsFirstCharacter(c: char, rest: string)
    requires c != '%'
    ensures RemoveKeyReferences([c] + rest) == [c] + RemoveKeyReferences(rest)
  {
    assert ([c] + rest)[1..] == rest;
  }

  /** A value without "%" is accepted. */
  lemma PercentFreeInterpolates(v: string)
    requires '%' !in v
    ensures InterpolationOk(v)
  {
    NoEscapesWithoutPercent(v);
    NoReferencesWithoutPercent(v);
  }

  /** A single "%" in a value is no "%%" escape. */
  lemma SinglePercentKept(before: string, rest: string)
    requires '%' !in before && '%' !in rest
    ensures ReplaceAll(before + "%" + rest, "%%", "") == before + "%" + rest
  {
    var v := before + "%" + rest;
    assert !Contains(v, "%%") by {
      forall k | 0 <= k <= |v| - 2 ensures !OccursAt(v, "%%", k) {
        assert v[k..k + 2][0] == v[k] && v[k..k + 2][1] == v[k + 1];
        if k < |before| {
          assert v[k] == before[k];
        } else {
          assert v[k + 1] == rest[k - |before|];
        }
      }
    }
  }

  /** At most one key reference starts a value. */
  lemma KeyReferenceUnique(v: string, n: nat, m: nat)
    requires KeyReferenceOf(v, n) && KeyReferenceOf(v, m)
    ensures n == m
  {
  }

  /** A leading `%(name)s` reference is removed whole. */
  lemma LeadingReferenceRemoved(name: string, after: string)
    requires name != [] && ')' !in name && '%' !in after
    ensures RemoveKeyReferences("%(" + name + ")s" + after) == after
  {
    var w := "%(" + name + ")s" + after;
    var n := |name| + 4;
    assert KeyReferenceOf(w, n) by {
      assert w[n - 2] == ')' && w[n - 1] == 's';
      forall j | 2 <= j < n - 2 ensures w[j] != ')' { assert w[j] == name[j - 2]; }
    }
    var k := KeyReferenceAt(w);
    assert k.Some?;
    KeyReferenceUnique(w, k.value, n);
    assert w[n..] == after;
    NoReferencesWithoutPercent(after);
  }

  /** A `%(name)s` reference between texts without "%" is accepted. */
  lemma KeyReferenceInterpolates(before: string, name: string, after: string)
    requires name != [] && ')' !in name && '%' !in name
    requires '%' !in before && '%' !in after
    ensures InterpolationOk(before + "%(" + name + ")s" + after)
  {
    var rest := "(" + name + ")s" + after;
    var w := "%" + rest;
    var v := before + w;
    assert before + "%(" + name + ")s" + after == v && before + "%" + rest == v;
    assert '%' !in rest;
    SinglePercentKept(before, rest);
    assert w == "%(" + name + ")s" + after;
    LeadingReferenceRemoved(name, after);
    PercentFreePrefixKept(before, w);
    assert '%' !in before + after;
  }

  /** A leading "%" that starts no reference is kept. */
  lemma LeadingPercentKept(after: string)
    requires '%' !in after && (after == [] || after[0] != '(')
    ensures RemoveKeyReferences("%" + after) == "%" + after
  {
    var w := "%" + after;
    assert KeyReferenceAt(w) == None;
    assert w[1..] == after;
    NoReferencesWithoutPercent(after);
  }

  /** A "%" that neither escapes a "%" nor starts a reference is refused. */
  lemma LonePercentRefused(before: string, after: string)
    requires '%' !in before && '%' !in after && (after == [] || after[0] != '(')
    ensures !InterpolationOk(before + "%" + after)
  {
    var w := "%" + after;
    var v := before + w;
    assert before + "%" + after == v;
    SinglePercentKept(before, after);
    LeadingPercentKept(after);
    PercentFreePrefixKept(before, w);
    assert (before + w)[|before|] == '%';
  }

  /** The first "%%" of a value whose text in front has no "%" */
  lemma FirstEscapeAt(before: string, after: string)
    requires '%' !in before
    ensures Find(before + "%%" + after, "%%") == Some(|before|)
  {
    var v := before + "%%" + after;
    assert OccursAt(v, "%%", |before|) by {
      assert v[|before|..|before| + 2] == "%%";
    }
    forall k | 0 <= k < |before| ensures !OccursAt(v, "%%", k) {
      assert v[k..k + 2][0] == v[k] == before[k];
    }
    match Find(v, "%%")
    case None =>
    case Some(i) =>
      assert !(i < |before|) && !(|before| < i);
  }

  /** The "%%" escape of a percent sign, between texts without "%", is accepted. */
  lemma EscapedPercentAccepted(before: string, after: string)
    requires '%' !in before && '%' !in after
    ensures InterpolationOk(before + "%%" + after)
  {
    var v := before + "%%" + after;
    assert ReplaceAll(v, "%%", "") == before + after by {
      FirstEscapeAt(before, after);
      ReplaceAllAt(v, "%%", "", |before|);
      assert v[..|before|] == before && v[|before| + 2..] == after;
      NoEscapesWithoutPercent(after);
    }
    assert '%' !in before + after;
    PercentFreeInterpolates(before + after);
  }




  /** The first `n` values of the settings pass interpolation. */
  predicate InterpolateUpTo(config: Dict<string, string>, n: nat)
    requires n <= |config|
  {
    forall j :: 0 <= j < n ==> InterpolationOk(config[j].1)
  }

  /** The settings with `configparser`'s lower-cased option names */
  function LowerKeys(config: Dict<string, string>): (r: Dict<string, string>)
    ensures |r| == |config| && forall i :: 0 <= i < |r| ==> r[i] == (Lower(config[i].0), config[i].1)
  {
    seq(|config|, i requires 0 <= i < |config| => (Lower(config[i].0), config[i].1))
  }

  /** The `bilman` section of `secs`, added empty when missing */
  function BilmanSection(secs: Dict<string, Dict<string, string>>): Dict<string, string> {
    Get(secs, "bilman").GetOr([])
  }

  function UpdateIniSpec(fs: FileSystem, path: string, config: Dict<string, string>): (o: Outcome)
    ensures Confined(fs, o, path)
  {
    match IniExisting(fs, path)
    case None => Outcome(false, fs)
    case Some(secs) =>
      if !InterpolateUpTo(config, |config|) then Outcome(false, fs)
      else Write(fs, path, IniFile(Put(secs, "bilman", PutAll(BilmanSection(secs), LowerKeys(config)))))
  }

  method UpdateIniConfig(fs: FileSystem, path: string, config: Dict<string, string>) returns (o: Outcome)
    ensures o == UpdateIniSpec(fs, path, config)
  {
    var existing := IniExisting(fs, path);
    if existing.None? {
      return Outcome(false, fs);
    }
    var secs := existing.value;
    var section := BilmanSection(secs);
    ghost var before := section;
    var lowered := LowerKeys(config);
    var i := 0;
    while i < |config|
      invariant 0 <= i <= |config|
      invariant InterpolateUpTo(config, i)
      invariant section == PutAll(before, lowered[..i])
    {
      if !InterpolationOk(config[i].1) {
        return Outcome(false, fs);
      }
      PutAllSnoc(before, lowered, i);
      section := Put(section, Lower(config[i].0), config[i].1);
      i := i + 1;
    }
    assert lowered[..i] == lowered;
    o := Write(fs, path, IniFile(Put(secs, "bilman", section)));
  }

  /**
   * An INI update succeeds exactly when the file loaded, every value passes interpolation
   * and the file can be written; then the `bilman` section holds each setting under its
   * lower-cased name, keeps its other options, and every other section is unchanged.
   */
  lemma IniUpdate(fs: FileSystem, path: string, config: Dict<string, string>, section: string, k: string)
    requires DistinctKeys(LowerKeys(config))
    ensures var o := UpdateIniSpec(fs, path, config);
      && (o.ok <==> IniExisting(fs, path).Some? && path !in fs.readOnly &&
                    forall i :: 0 <= i < |config| ==> InterpolationOk(config[i].1))
      && (!o.ok ==> o.fs == fs)
      && (o.ok ==>
            var secs := IniExisting(fs, path).value;
            var secs' := o.fs.files[path].sections;
            && (section != "bilman" ==> Get(secs', section) == Get(secs, section))
            && Get(secs', "bilman") == Some(PutAll(BilmanSection(secs), LowerKeys(config)))
            && Get(PutAll(BilmanSection(secs), LowerKeys(config)), k) ==
                 if k in Keys(LowerKeys(config)) then Get(LowerKeys(config), k) else Get(BilmanSection(secs), k))
  {
    var o := UpdateIniSpec(fs, path, config);
    if o.ok {
      var secs := IniExisting(fs, path).value;
      var merged := PutAll(BilmanSection(secs), LowerKeys(config));
      PutGet(secs, "bilman", merged, section);
      PutGet(secs, "bilman", merged, "bilman");
      PutAllGet(BilmanSection(secs), LowerKeys(config), k);
    }
  }

  // ---------------------------------------------------------------------------
  // Updating one file, and the whole setup (config_manager.py lines 28-52, 66-90, 249-261)
  // ---------------------------------------------------------------------------

  /**
   * `_update_config_file`: the handler its name calls for. Whatever happens, no other file
   * changes, and a failed update changes nothing at all.
   */
  function UpdateConfigFileSpec(fs: FileSystem, path: string, config: Dict<string, string>): (o: Outcome)
    ensures Confined(fs, o, path)
  {
    match HandlerFor(path)
    case JsonHandler => UpdateJsonSpec(fs, path, config)
    case YamlHandler => UpdateYamlSpec(fs, path, config)
    case IniHandler => UpdateIniSpec(fs, path, config)
    case EnvHandler => UpdateEnvSpec(fs, path, config)
    case PythonHandler => UpdatePythonSpec(fs, path, config)
    case GenericHandler => UpdateGenericSpec(fs, path, config)
  }

  method UpdateConfigFile(fs: FileSystem, path: string, config: Dict<string, string>) returns (o: Outcome)
    ensures o == UpdateConfigFileSpec(fs, path, config)
  {
    var name := Basename(path);
    var handler := HandlerOf(name, Lower(Suffix(name)));
    match handler {
      case JsonHandler => o := UpdateJsonSpec(fs, path, config);
      case YamlHandler => o := UpdateYamlSpec(fs, path, config);
      case IniHandler => o := UpdateIniConfig(fs, path, config);
      case EnvHandler => o := UpdateEnvConfig(fs, path, config);
      case PythonHandler => o := UpdatePythonConfig(fs, path, config);
      case GenericHandler => o := UpdateGenericConfig(fs, path, config);
    }
  }

  /** `_create_config_file`: `bilman_config.json` holding the settings */
  function CreateConfigFileSpec(fs: FileSystem, dir: string, config: Dict<string, string>): Outcome {
    Write(fs, JoinPath(dir, "bilman_config.json"), Mapping(config))
  }

  /** The found files updated one after another; files not among them are left as they were. */
  function UpdateAll(fs: FileSystem, paths: seq<string>, config: Dict<string, string>): (r: FileSystem)
    ensures r.readOnly == fs.readOnly
    ensures forall q :: q !in paths ==> SameAt(fs, r, q)
    decreases |paths|
  {
    if paths == [] then fs
    else
      var n := |paths| - 1;
      var prev := UpdateAll(fs, paths[..n], config);
      var o := UpdateConfigFileSpec(prev, paths[n], config);
      assert forall q :: q in paths[..n] ==> q in paths;
      o.fs
  }

  /** `setup_config` on the files found: update them or create `bilman_config.json`, then write `.bilman.env` */
  function SetupSpec(fs: FileSystem, dir: string, found: seq<string>, config: Dict<string, string>): FileSystem {
    var updated := if found != [] then UpdateAll(fs, found, config) else CreateConfigFileSpec(fs, dir, config).fs;
    CreateEnvFileSpec(updated, dir, config).fs
  }

  /** The loop of `setup_config` over the files found, each updated in turn */
  method UpdateFound(fs: FileSystem, found: seq<string>, config: Dict<string, string>) returns (fs': FileSystem)
    ensures fs' == UpdateAll(fs, found, config)
  {
    fs' := fs;
    var i := 0;
    while i < |found|
      invariant 0 <= i <= |found|
      invariant fs' == UpdateAll(fs, found[..i], config)
    {
      assert found[..i + 1][..i] == found[..i];
      var o := UpdateConfigFile(fs', found[i], config);
      fs' := o.fs;
      i := i + 1;
    }
    assert found[..i] == found;
  }

  /**
   * `setup_config`. The handlers report their failures by their results, which are not
   * looked at, so the setup reports success whatever happened to the files.
   */
  method SetupConfig(fs: FileSystem, dir: string, steps: seq<Step>, config: Dict<string, string>)
    returns (ok: bool, fs': FileSystem)
    ensures ok
    ensures fs' == SetupSpec(fs, dir, ConfigFilesOf(dir, steps), config)
  {
    var found := FindConfigFiles(dir, steps);
    if found != [] {
      fs' := UpdateFound(fs, found, config);
    } else {
      var o := CreateConfigFileSpec(fs, dir, config);
      fs' := o.fs;
    }
    var o := CreateEnvFile(fs', dir, config);
    fs' := o.fs;
    ok := true;
  }

  /** `bilman_config.json` is not a name the search picks up. */
  lemma JsonConfigNotSelected(dir: string)
    ensures !IsConfigFileName(Basename(JoinPath(dir, "bilman_config.json")))
  {
    BasenameOfJoin(dir, "bilman_config.json");
    JsonNameNotConfig();
  }

  lemma JsonNameNotConfig()
    ensures !IsConfigFileName("bilman_config.json")
  {
    var name := "bilman_config.json";
    NotEndsWithByLast(name, ".config");
    NotEndsWithByLast(name, ".conf");
    assert name !in SupportedConfigFiles by {
      forall i | 0 <= i < |SupportedConfigFiles| ensures SupportedConfigFiles[i] != name {
        assert |SupportedConfigFiles[i]| < |name|;
      }
    }
  }


  /**
   * `setup_config` writes `bilman_config.json` only when the search found nothing: with
   * files found it is left as it was; with none found it holds the settings, unless it
   * cannot be written.
   */
  lemma SetupCreatesJsonOnlyWhenNothingFound(fs: FileSystem, dir: string, steps: seq<Step>, config: Dict<string, string>)
    requires PlainNames(steps)
    ensures var found := ConfigFilesOf(dir, steps);
      var jsonPath := JoinPath(dir, "bilman_config.json");
      var fs' := SetupSpec(fs, dir, found, config);
      && (found != [] ==> SameAt(fs, fs', jsonPath))
      && (found == [] && jsonPath !in fs.readOnly ==> jsonPath in fs'.files && fs'.files[jsonPath] == Mapping(config))
  {
    var found := ConfigFilesOf(dir, steps);
    var jsonPath := JoinPath(dir, "bilman_config.json");
    JsonAndEnvPathsDiffer(dir);
    FoundAreConfigFiles(dir, steps);
    JsonConfigNotSelected(dir);
    assert jsonPath !in found;
  }

  /** `setup_config` always leaves `.bilman.env` holding the runtime settings, unless it cannot be written. */
  lemma SetupWritesEnvFile(fs: FileSystem, dir: string, found: seq<string>, config: Dict<string, string>)
    requires JoinPath(dir, ".bilman.env") !in fs.readOnly
    ensures var fs' := SetupSpec(fs, dir, found, config);
      JoinPath(dir, ".bilman.env") in fs'.files && fs'.files[JoinPath(dir, ".bilman.env")] == Text(RuntimeEnvText(config))
  {
  }

  /**
   * After `setup_config`, `load_config` gives back the settings: from the new
   * `bilman_config.json` when nothing was found, and otherwise from `.bilman.env`
   * provided no `bilman_config.json` existed and the settings round-trip.
   */
  lemma SetupThenLoad(fs: FileSystem, dir: string, steps: seq<Step>, config: Dict<string, string>)
    requires PlainNames(steps)
    requires JoinPath(dir, "bilman_config.json") !in fs.readOnly && JoinPath(dir, ".bilman.env") !in fs.readOnly
    requires ConfigFilesOf(dir, steps) != [] ==>
      && JoinPath(dir, "bilman_config.json") !in fs.files
      && DistinctKeys(config)
      && forall i :: 0 <= i < |config| ==> RoundTrips(config[i].0, config[i].1)
    ensures LoadConfigOf(SetupSpec(fs, dir, ConfigFilesOf(dir, steps), config), dir) == Some(config)
  {
    var found := ConfigFilesOf(dir, steps);
    SetupCreatesJsonOnlyWhenNothingFound(fs, dir, steps, config);
    if found != [] {
      var updated := UpdateAll(fs, found, config);
      EnvRoundTrip(updated, dir, config);
    }
  }
}
