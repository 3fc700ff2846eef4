/**
 * `ProjectAnalyzer`: classifies a project directory before deployment. It detects the
 * project type and frameworks, counts the directory structure, reads the dependencies,
 * finds environment, Docker, database and port settings, lists potential deployment
 * issues and derives recommendations from all of these.
 *
 * The directory is a `DirTree` tree. The parse of `package.json` and the numbers the port
 * regexes find are inputs beside it, since neither the JSON library nor the regular-expression
 * engine is modelled.
 */
module ProjectAnalyzer {
  import opened Wrappers
  import opened PyText
  import opened OrderedDicts
  import opened DirTree

  // ---------------------------------------------------------------------------
  // The project as input
  // ---------------------------------------------------------------------------

  /** The parts of a parsed `package.json` the analyzer reads; a missing key reads as `{}` */
  datatype PackageInfo = PackageInfo(
    dependencies: Dict<string, string>,
    devDependencies: Dict<string, string>,
    scripts: Dict<string, string>)

  /**
   * A project directory: its entries; the parse of its top-level `package.json` (None when
   * that file does not parse to an object); and the numbers the port patterns match in its
   * main application files, in the order they are found.
   */
  datatype Project = Project(tree: seq<Node>, packageJson: Option<PackageInfo>, portMatches: seq<nat>)

  function NodeName(n: Node): string {
    if n.File? then n.info.name else n.name
  }

  /** The names of the top-level entries, files and directories alike */
  function TopNames(tree: seq<Node>): (r: seq<string>)
    ensures |r| == |tree| && forall i :: 0 <= i < |tree| ==> r[i] == NodeName(tree[i])
  {
    seq(|tree|, i requires 0 <= i < |tree| => NodeName(tree[i]))
  }

  /** `os.path.exists(os.path.join(project_dir, name))`: true for a file or a directory */
  predicate Exists(tree: seq<Node>, name: string) {
    name in TopNames(tree)
  }

  /** The first of `files` called `name` */
  function Named(files: seq<FileInfo>, name: string): (r: Option<FileInfo>)
    ensures r.Some? ==> r.value in files && r.value.name == name
    ensures r.None? ==> forall f :: f in files ==> f.name != name
  {
    if files == [] then None
    else if files[0].name == name then Some(files[0])
    else Named(files[1..], name)
  }

  /** The top-level regular file `name`, which `open` can read; a directory of that name cannot be */
  function TopFile(tree: seq<Node>, name: string): Option<FileInfo> {
    Named(FilesOf(tree), name)
  }

  /** A top-level regular file is an existing entry. */
  lemma {:induction false} TopFileExists(tree: seq<Node>, name: string)
    requires TopFile(tree, name).Some?
    ensures Exists(tree, name)
  {
    FilesOfExist(tree, TopFile(tree, name).value);
  }

  lemma {:induction false} FilesOfExist(tree: seq<Node>, f: FileInfo)
    requires f in FilesOf(tree)
    ensures Exists(tree, f.name)
    decreases |tree|
  {
    if tree[0].File? && tree[0].info == f {
      assert TopNames(tree)[0] == f.name;
    } else {
      FilesOfExist(tree[1..], f);
      var i :| 0 <= i < |tree[1..]| && TopNames(tree[1..])[i] == f.name;
      assert TopNames(tree)[i + 1] == f.name;
    }
  }

  /** `any(f.endswith(ext) for f in os.listdir(project_dir) if os.path.isfile(...))` */
  predicate AnyTopFileEndsWith(tree: seq<Node>, ext: string) {
    exists f :: f in FilesOf(tree) && EndsWith(f.name, ext)
  }

  /** A file's text as Python reads it in text mode */
  function ReadText(f: FileInfo): string {
    TranslateNewlines(f.content)
  }

  // ---------------------------------------------------------------------------
  // Project type
  // ---------------------------------------------------------------------------

  /** The project kinds, in the order the detector tries them */
  datatype Kind = NodeJs | Python | Php | Go | Ruby | Static

  const AllKinds: seq<Kind> := [NodeJs, Python, Php, Go, Ruby, Static]

  /** The name a kind gives the primary type */
  function KindName(k: Kind): (r: string)
    ensures r != "unknown"
  {
    match k
    case NodeJs => "nodejs"
    case Python => "python"
    case Php => "php"
    case Go => "go"
    case Ruby => "ruby"
    case Static => "static"
  }

  /** Different kinds are given different names. */
  lemma KindNameNames(k: Kind, k': Kind)
    ensures KindName(k) == KindName(k') <==> k == k'
  {
    if k != k' {
      assert KindName(k)[0] != KindName(k')[0] || KindName(k)[1] != KindName(k')[1];
    }
  }

  /** The technology a detected kind adds */
  function TechName(k: Kind): string {
    match k
    case NodeJs => "javascript"
    case Python => "python"
    case Php => "php"
    case Go => "go"
    case Ruby => "ruby"
    case Static => "html"
  }

  /** The evidence each kind looks for at the top of the project */
  predicate Detects(p: Project, k: Kind) {
    match k
    case NodeJs => Exists(p.tree, "package.json")
    case Python =>
      Exists(p.tree, "requirements.txt") || Exists(p.tree, "setup.py") || Exists(p.tree, "pyproject.toml")
    case Php => Exists(p.tree, "composer.json") || AnyTopFileEndsWith(p.tree, ".php")
    case Go => Exists(p.tree, "go.mod") || Exists(p.tree, "go.sum")
    case Ruby => Exists(p.tree, "Gemfile")
    case Static => AnyTopFileEndsWith(p.tree, ".html")
  }

  /** The `names` that are keys of `deps`, in order */
  function Keyed(deps: Dict<string, string>, names: seq<string>): (r: seq<string>)
    ensures forall x :: x in r <==> x in names && HasKey(deps, x)
  {
    if names == [] then []
    else (if HasKey(deps, names[0]) then [names[0]] else []) + Keyed(deps, names[1..])
  }

  /** The `names` that occur in `text`, in order */
  function Mentioned(text: string, names: seq<string>): (r: seq<string>)
    ensures forall x :: x in r <==> x in names && Contains(text, x)
  {
    if names == [] then []
    else (if Contains(text, names[0]) then [names[0]] else []) + Mentioned(text, names[1..])
  }

  /** No element occurs twice */
  predicate NoDup<T(==)>(s: seq<T>) {
    forall i, j :: 0 <= i < j < |s| ==> s[i] != s[j]
  }

  /** Filtering a list without repetitions leaves it without repetitions. */
  lemma {:induction false} KeyedNoDup(deps: Dict<string, string>, names: seq<string>)
    requires NoDup(names)
    ensures NoDup(Keyed(deps, names))
  {
    if names != [] {
      assert NoDup(names[1..]) by {
        assert forall i :: 0 <= i < |names| - 1 ==> names[1..][i] == names[i + 1];
      }
      KeyedNoDup(deps, names[1..]);
      assert names[0] !in names[1..];
    }
  }

  lemma {:induction false} MentionedNoDup(text: string, names: seq<string>)
    requires NoDup(names)
    ensures NoDup(Mentioned(text, names))
  {
    if names != [] {
      assert NoDup(names[1..]) by {
        assert forall i :: 0 <= i < |names| - 1 ==> names[1..][i] == names[i + 1];
      }
      MentionedNoDup(text, names[1..]);
      assert names[0] !in names[1..];
    }
  }

  /** The frameworks read off the keys of the merged dependencies of `package.json` */
  function NodeFrameworks(deps: Dict<string, string>): seq<string> {
    Keyed(deps, ["express", "react", "vue", "angular"])
      + (if HasKey(deps, "next") || HasKey(deps, "nextjs") then ["nextjs"] else [])
  }

  /** The frameworks named anywhere in the lower-cased text of `requirements.txt` */
  function PythonFrameworks(requirements: string): seq<string> {
    Mentioned(Lower(requirements), ["django", "flask", "fastapi", "streamlit"])
  }

  /** `{**dependencies, **devDependencies}` */
  function MergedDependencies(info: PackageInfo): Dict<string, string> {
    PutAll(info.dependencies, info.devDependencies)
  }

  /** The frameworks a detected kind adds */
  function FrameworksFor(p: Project, k: Kind): seq<string> {
    match k
    case NodeJs => (match PackageJsonOf(p) case None => [] case Some(info) => NodeFrameworks(MergedDependencies(info)))
    case Python =>
      (match TopFile(p.tree, "requirements.txt") case None => [] case Some(f) => PythonFrameworks(ReadText(f)))
    case _ => []
  }

  datatype ProjectType = ProjectType(primary: string, technologies: seq<string>, frameworks: seq<string>)

  /**
   * One check of the detector: a detected kind becomes the primary type if none is set yet,
   * and adds its technology and frameworks (the Node.js check sets the primary type without
   * asking, but it runs first, when the primary type is still "unknown").
   */
  function Note(t: ProjectType, k: Kind, detected: bool, frameworks: seq<string>): ProjectType {
    if !detected then t
    else
      ProjectType(
        if t.primary == "unknown" then KindName(k) else t.primary,
        t.technologies + [TechName(k)],
        t.frameworks + frameworks)
  }

  /** The checks for `ks`, one after another */
  function NoteAll(t: ProjectType, p: Project, ks: seq<Kind>): ProjectType
    decreases |ks|
  {
    if ks == [] then t else NoteAll(Note(t, ks[0], Detects(p, ks[0]), FrameworksFor(p, ks[0])), p, ks[1..])
  }

  /** `_detect_project_type` */
  function ProjectTypeOf(p: Project): ProjectType {
    NoteAll(ProjectType("unknown", [], []), p, AllKinds)
  }

  /** The kinds among `ks` whose evidence the project has, in order */
  function DetectedAmong(p: Project, ks: seq<Kind>): (r: seq<Kind>)
    ensures forall k :: k in r <==> k in ks && Detects(p, k)
  {
    if ks == [] then [] else (if Detects(p, ks[0]) then [ks[0]] else []) + DetectedAmong(p, ks[1..])
  }

  function TechNames(ks: seq<Kind>): (r: seq<string>)
    ensures |r| == |ks| && forall i :: 0 <= i < |ks| ==> r[i] == TechName(ks[i])
  {
    seq(|ks|, i requires 0 <= i < |ks| => TechName(ks[i]))
  }

  lemma TechNamesCons(k: Kind, ks: seq<Kind>)
    ensures TechNames([k] + ks) == [TechName(k)] + TechNames(ks)
  {
  }

  lemma {:induction false} NoteAllPriority(t: ProjectType, p: Project, ks: seq<Kind>)
    ensures NoteAll(t, p, ks).primary ==
      if t.primary != "unknown" || DetectedAmong(p, ks) == [] then t.primary else KindName(DetectedAmong(p, ks)[0])
    decreases |ks|
  {
    if ks != [] {
      var t' := Note(t, ks[0], Detects(p, ks[0]), FrameworksFor(p, ks[0]));
      NoteAllPriority(t', p, ks[1..]);
      if Detects(p, ks[0]) {
        assert DetectedAmong(p, ks) == [ks[0]] + DetectedAmong(p, ks[1..]);
      } else {
        assert DetectedAmong(p, ks) == DetectedAmong(p, ks[1..]);
      }
    }
  }

  lemma {:induction false} NoteAllTechnologies(t: ProjectType, p: Project, ks: seq<Kind>)
    ensures NoteAll(t, p, ks).technologies == t.technologies + TechNames(DetectedAmong(p, ks))
    decreases |ks|
  {
    if ks == [] {
      assert t.technologies + TechNames([]) == t.technologies;
    } else {
      var t' := Note(t, ks[0], Detects(p, ks[0]), FrameworksFor(p, ks[0]));
      NoteAllTechnologies(t', p, ks[1..]);
      var d := DetectedAmong(p, ks[1..]);
      if Detects(p, ks[0]) {
        assert DetectedAmong(p, ks) == [ks[0]] + d;
        TechNamesCons(ks[0], d);
        AppendAssoc(t.technologies, [TechName(ks[0])], TechNames(d));
      } else {
        assert DetectedAmong(p, ks) == d;
      }
    }
  }

  /**
   * The primary type is the first kind detected in the order nodejs, python, php, go, ruby,
   * static, or "unknown" when none is; every detected kind, in that order, adds its technology.
   */
  lemma ProjectTypePriority(p: Project)
    ensures ProjectTypeOf(p).primary ==
      if DetectedAmong(p, AllKinds) == [] then "unknown" else KindName(DetectedAmong(p, AllKinds)[0])
    ensures ProjectTypeOf(p).technologies == TechNames(DetectedAmong(p, AllKinds))
  {
    NoteAllPriority(ProjectType("unknown", [], []), p, AllKinds);
    NoteAllTechnologies(ProjectType("unknown", [], []), p, AllKinds);
  }

  /** A Node.js project is always classified as such, whatever else it holds. */
  lemma NodeJsWins(p: Project)
    requires Detects(p, NodeJs)
    ensures ProjectTypeOf(p).primary == "nodejs"
  {
    ProjectTypePriority(p);
    assert DetectedAmong(p, AllKinds)[0] == NodeJs;
  }

  /** A project is primarily Python exactly when it has Python evidence and no `package.json`. */
  lemma PythonPrimary(p: Project)
    ensures ProjectTypeOf(p).primary == "python" <==> Detects(p, Python) && !Detects(p, NodeJs)
  {
    ProjectTypePriority(p);
    PythonFirstDetected(p);
    var d := DetectedAmong(p, AllKinds);
    if d != [] {
      KindNameNames(d[0], Python);
    }
  }

  /** Python comes first among the detected kinds exactly when it is detected and Node.js is not. */
  lemma PythonFirstDetected(p: Project)
    ensures var d := DetectedAmong(p, AllKinds); (d != [] && d[0] == Python) <==> Detects(p, Python) && !Detects(p, NodeJs)
  {
    var rest := [Php, Go, Ruby, Static];
    assert AllKinds == [NodeJs] + ([Python] + rest);
    DetectedCons(p, NodeJs, [Python] + rest);
    DetectedCons(p, Python, rest);
    var r := DetectedAmong(p, rest);
    if r != [] {
      assert r[0] in rest;
    }
  }

  /** Detection over a list with a first kind: that kind if detected, then the rest. */
  lemma DetectedCons(p: Project, k: Kind, ks: seq<Kind>)
    ensures DetectedAmong(p, [k] + ks) == (if Detects(p, k) then [k] else []) + DetectedAmong(p, ks)
  {
    assert ([k] + ks)[1..] == ks;
  }

  /**
   * "nextjs" is reported when `next` or `nextjs` is a dependency; the other frameworks when
   * their own name is; and no framework twice.
   */
  lemma NodeFrameworksDetected(deps: Dict<string, string>)
    ensures "nextjs" in NodeFrameworks(deps) <==> HasKey(deps, "next") || HasKey(deps, "nextjs")
    ensures forall x :: x in ["express", "react", "vue", "angular"] ==> (x in NodeFrameworks(deps) <==> HasKey(deps, x))
    ensures NoDup(NodeFrameworks(deps))
  {
    var names := ["express", "react", "vue", "angular"];
    KeyedNoDup(deps, names);
    var k := Keyed(deps, names);
    var r := NodeFrameworks(deps);
    assert "nextjs" !in k;
    forall i, j | 0 <= i < j < |r| ensures r[i] != r[j] {
      if j >= |k| { assert r[j] == "nextjs"; assert r[i] in k; }
    }
  }

  /** A key of the merged dependencies is a key of the dependencies or of the devDependencies. */
  lemma MergedDependencyKeys(info: PackageInfo, x: string)
    ensures HasKey(MergedDependencies(info), x) <==> HasKey(info.dependencies, x) || HasKey(info.devDependencies, x)
  {
    PutAllKeys(info.dependencies, info.devDependencies, x);
  }

  /** The Python frameworks are those named in the requirements, case aside, each once. */
  lemma PythonFrameworksDetected(requirements: string)
    ensures forall x :: x in PythonFrameworks(requirements) <==>
      x in ["django", "flask", "fastapi", "streamlit"] && Contains(Lower(requirements), x)
    ensures NoDup(PythonFrameworks(requirements))
  {
    MentionedNoDup(Lower(requirements), ["django", "flask", "fastapi", "streamlit"]);
  }

  // ---------------------------------------------------------------------------
  // Structure
  // ---------------------------------------------------------------------------

  datatype Structure = Structure(
    totalFiles: nat,
    totalDirectories: nat,
    fileTypes: Dict<string, nat>,
    importantFiles: seq<string>,
    directories: seq<string>)

  const EmptyStructure: Structure := Structure(0, 0, [], [], [])

  /** The structure walk enters a directory unless it is hidden or a dependency or cache directory. */
  predicate StructureKeep(name: string) {
    !StartsWith(name, ".") && name !in ["node_modules", "__pycache__", "vendor"]
  }

  /** Hidden files are not counted, except the two environment files. */
  predicate Counted(name: string) {
    !StartsWith(name, ".") || name in [".env", ".env.example"]
  }

  const ImportantFiles: seq<string> := [
    "README.md", "readme.md", "README.txt",
    "package.json", "requirements.txt", "setup.py",
    "Dockerfile", "docker-compose.yml",
    "Makefile", "makefile",
    ".env", ".env.example",
    "config.json", "config.yml", "config.yaml",
    "app.py", "main.py", "index.js", "server.js",
    "index.html", "index.php"]

  /** `file in important_files` */
  predicate Important(name: string) {
    name in ImportantFiles
  }

  /** `os.path.relpath` of a directory below the top, as its components joined by "/" */
  function RelDir(path: seq<string>): string {
    JoinWith(path, "/")
  }

  /** `os.path.relpath` of the file `name` in the directory at `path` */
  function RelPath(path: seq<string>, name: string): string {
    JoinWith(path + [name], "/")
  }

  /** `Path(name).suffix.lower()`, empty for a name without a suffix */
  function FileType(name: string): string {
    Lower(Suffix(name))
  }

  /** A counted file with a suffix, which `file_types` counts */
  predicate Typed(name: string) {
    Counted(name) && FileType(name) != []
  }

  /** `file_types[ext] = file_types.get(ext, 0) + 1` for a non-empty suffix */
  function CountType(types: Dict<string, nat>, ext: string): Dict<string, nat> {
    if ext == [] then types else Put(types, ext, Get(types, ext).GetOr(0) + 1)
  }

  /** One file of the structure walk */
  function CountFile(s: Structure, path: seq<string>, f: FileInfo): Structure {
    CountFileAs(s, path, f, Counted(f.name), Important(f.name))
  }

  /** One file of the structure walk, given whether it is counted and whether it is an important file */
  function CountFileAs(s: Structure, path: seq<string>, f: FileInfo, counted: bool, important: bool): Structure {
    if !counted then s
    else
      var ext := FileType(f.name);
      s.(totalFiles := s.totalFiles + 1,
         fileTypes := CountType(s.fileTypes, ext),
         importantFiles := if important then s.importantFiles + [RelPath(path, f.name)] else s.importantFiles)
  }

  function CountFiles(s: Structure, path: seq<string>, files: seq<FileInfo>): Structure
    decreases |files|
  {
    if files == [] then s else CountFile(CountFiles(s, path, files[..|files| - 1]), path, files[|files| - 1])
  }

  /** One `(root, dirs, files)` step: its kept sub-directories, its files, then the directory itself */
  function CountStep(s: Structure, step: Step): Structure {
    var s1 := CountFiles(s.(totalDirectories := s.totalDirectories + |step.dirs|), step.path, step.files);
    if step.path != [] then s1.(directories := s1.directories + [RelDir(step.path)]) else s1
  }

  function CountSteps(s: Structure, steps: seq<Step>): Structure
    decreases |steps|
  {
    if steps == [] then s else CountStep(CountSteps(s, steps[..|steps| - 1]), steps[|steps| - 1])
  }

  /** `_analyze_structure` */
  function StructureOf(tree: seq<Node>): Structure {
    CountSteps(EmptyStructure, WalkTop(tree, StructureKeep))
  }

  // Reference counts the structure is checked against

  /** The classes of file names the structure counts */
  datatype FileClass = CountedFiles | TypedFiles | OfType(ext: string) | ImportantNames

  predicate InClass(c: FileClass, name: string) {
    match c
    case CountedFiles => Counted(name)
    case TypedFiles => Typed(name)
    case OfType(ext) => Counted(name) && FileType(name) == ext
    case ImportantNames => Important(name)
  }

  /** The number of `files` in class `c` */
  function Tally(files: seq<FileInfo>, c: FileClass): nat
    decreases |files|
  {
    if files == [] then 0 else Tally(files[..|files| - 1], c) + (if InClass(c, files[|files| - 1].name) then 1 else 0)
  }

  /** The number of files in all `steps` in class `c` */
  function TallySteps(steps: seq<Step>, c: FileClass): nat
    decreases |steps|
  {
    if steps == [] then 0 else TallySteps(steps[..|steps| - 1], c) + Tally(steps[|steps| - 1].files, c)
  }

  /** The number of steps below the top directory */
  function Nested(steps: seq<Step>): nat
    decreases |steps|
  {
    if steps == [] then 0 else Nested(steps[..|steps| - 1]) + (if steps[|steps| - 1].path != [] then 1 else 0)
  }

  /** The counts of a dict, summed */
  function SumValues(d: Dict<string, nat>): nat
    decreases |d|
  {
    if d == [] then 0 else SumValues(d[..|d| - 1]) + d[|d| - 1].1
  }

  lemma {:induction false} SumValuesUpdate(d: Dict<string, nat>, i: nat, e: (string, nat))
    requires i < |d|
    ensures SumValues(d[i := e]) + d[i].1 == SumValues(d) + e.1
    decreases |d|
  {
    var n := |d| - 1;
    var d' := d[i := e];
    assert d'[..n] == if i == n then d[..n] else d[..n][i := e];
    if i < n {
      SumValuesUpdate(d[..n], i, e);
    }
  }

  /** Counting one more file of type `ext` adds one to the sum of the counts. */
  lemma SumValuesIncrement(d: Dict<string, nat>, ext: string)
    ensures SumValues(Put(d, ext, Get(d, ext).GetOr(0) + 1)) == SumValues(d) + 1
  {
    match IndexOf(d, ext)
    case Some(i) => SumValuesUpdate(d, i, (ext, d[i].1 + 1));
    case None => assert (d + [(ext, 1)])[..|d|] == d;
  }

  /** What one file adds to each quantity of the structure */
  lemma CountFileFacts(s: Structure, path: seq<string>, f: FileInfo, ext: string)
    requires ext != []
    ensures var r := CountFile(s, path, f);
      && r.totalFiles == s.totalFiles + (if InClass(CountedFiles, f.name) then 1 else 0)
      && SumValues(r.fileTypes) == SumValues(s.fileTypes) + (if InClass(TypedFiles, f.name) then 1 else 0)
      && Get(r.fileTypes, ext).GetOr(0) == Get(s.fileTypes, ext).GetOr(0) + (if InClass(OfType(ext), f.name) then 1 else 0)
      && |r.importantFiles| == |s.importantFiles| + (if InClass(ImportantNames, f.name) then 1 else 0)
      && r.totalDirectories == s.totalDirectories && r.directories == s.directories
  {
    CountFileTypes(s.fileTypes, f.name, ext);
    if Important(f.name) {
      ImportantCounted(f.name);
    }
  }

  /** What one file adds to `file_types` */
  lemma CountFileTypes(d: Dict<string, nat>, name: string, ext: string)
    requires ext != []
    ensures var r := if Counted(name) then CountType(d, FileType(name)) else d;
      && SumValues(r) == SumValues(d) + (if InClass(TypedFiles, name) then 1 else 0)
      && Get(r, ext).GetOr(0) == Get(d, ext).GetOr(0) + (if InClass(OfType(ext), name) then 1 else 0)
  {
    TypesStep(d, Counted(name), FileType(name), ext);
  }

  lemma TypesStep(d: Dict<string, nat>, counted: bool, t: string, ext: string)
    requires ext != []
    ensures var r := if counted then CountType(d, t) else d;
      && SumValues(r) == SumValues(d) + (if counted && t != [] then 1 else 0)
      && Get(r, ext).GetOr(0) == Get(d, ext).GetOr(0) + (if counted && t == ext then 1 else 0)
  {
    if counted && t != [] {
      SumValuesIncrement(d, t);
      IncrementGet(d, t, ext);
    }
  }

  /** Counting one more file of type `t` changes the count of `t` alone. */
  lemma IncrementGet(d: Dict<string, nat>, t: string, ext: string)
    ensures Get(Put(d, t, Get(d, t).GetOr(0) + 1), ext).GetOr(0) == Get(d, ext).GetOr(0) + (if t == ext then 1 else 0)
  {
    var v := Get(d, t).GetOr(0) + 1;
    PutGet(d, t, v, ext);
  }

  /** Every important file is counted. */
  lemma ImportantCounted(name: string)
    requires Important(name)
    ensures Counted(name)
  {
    var j :| 0 <= j < |ImportantFiles| && ImportantFiles[j] == name;
    if j != 10 && j != 11 {
      assert forall k :: 0 <= k < |ImportantFiles| && k != 10 && k != 11 ==> ImportantFiles[k][0] != '.';
      assert name[0] != '.';
    }
  }

  lemma {:induction false} CountFilesFacts(s: Structure, path: seq<string>, files: seq<FileInfo>, ext: string)
    requires ext != []
    ensures var r := CountFiles(s, path, files);
      && r.totalFiles == s.totalFiles + Tally(files, CountedFiles)
      && SumValues(r.fileTypes) == SumValues(s.fileTypes) + Tally(files, TypedFiles)
      && Get(r.fileTypes, ext).GetOr(0) == Get(s.fileTypes, ext).GetOr(0) + Tally(files, OfType(ext))
      && |r.importantFiles| == |s.importantFiles| + Tally(files, ImportantNames)
      && r.totalDirectories == s.totalDirectories && r.directories == s.directories
    decreases |files|
  {
    if files != [] {
      var n := |files| - 1;
      CountFilesFacts(s, path, files[..n], ext);
      CountFileFacts(CountFiles(s, path, files[..n]), path, files[n], ext);
    }
  }

  /** What one step adds to each quantity of the structure */
  lemma CountStepFacts(s: Structure, step: Step, ext: string)
    requires ext != []
    ensures var r := CountStep(s, step);
      && r.totalFiles == s.totalFiles + Tally(step.files, CountedFiles)
      && SumValues(r.fileTypes) == SumValues(s.fileTypes) + Tally(step.files, TypedFiles)
      && Get(r.fileTypes, ext).GetOr(0) == Get(s.fileTypes, ext).GetOr(0) + Tally(step.files, OfType(ext))
      && |r.importantFiles| == |s.importantFiles| + Tally(step.files, ImportantNames)
      && r.totalDirectories == s.totalDirectories + |step.dirs|
      && |r.directories| == |s.directories| + (if step.path != [] then 1 else 0)
  {
    CountFilesFacts(s.(totalDirectories := s.totalDirectories + |step.dirs|), step.path, step.files, ext);
  }

  lemma {:induction false} CountStepsFacts(steps: seq<Step>, ext: string)
    requires ext != []
    ensures var r := CountSteps(EmptyStructure, steps);
      && r.totalFiles == TallySteps(steps, CountedFiles)
      && SumValues(r.fileTypes) == TallySteps(steps, TypedFiles)
      && Get(r.fileTypes, ext).GetOr(0) == TallySteps(steps, OfType(ext))
      && |r.importantFiles| == TallySteps(steps, ImportantNames)
      && r.totalDirectories == SumDirs(steps)
      && |r.directories| == Nested(steps)
    decreases |steps|
  {
    if steps != [] {
      var n := |steps| - 1;
      CountStepsFacts(steps[..n], ext);
      CountStepFacts(CountSteps(EmptyStructure, steps[..n]), steps[n], ext);
      SumDirsSnoc(steps);
    }
  }

  lemma SumDirsSnoc(steps: seq<Step>)
    requires steps != []
    ensures SumDirs(steps) == SumDirs(steps[..|steps| - 1]) + |steps[|steps| - 1].dirs|
  {
    var n := |steps| - 1;
    assert steps == steps[..n] + [steps[n]];
    SumDirsAppend(steps[..n], [steps[n]]);
    assert SumDirs([steps[n]]) == |steps[n].dirs| by {
      assert [steps[n]][1..] == [];
    }
  }

  /** A walk whose first step is the top and whose other steps are below it has one nested step fewer. */
  lemma {:induction false} NestedCount(steps: seq<Step>)
    requires steps != [] && steps[0].path == []
    requires forall s :: 1 <= s < |steps| ==> steps[s].path != []
    ensures Nested(steps) == |steps| - 1
    decreases |steps|
  {
    if |steps| > 1 {
      var n := |steps| - 1;
      assert steps[..n][0] == steps[0];
      NestedCount(steps[..n]);
    } else {
      assert steps[..0] == [];
    }
  }

  /**
   * The structure counts every counted file once (hidden files only when they are `.env` or
   * `.env.example`), and the counts of `file_types` add up to the counted files that have a
   * suffix, so never to more than `total_files`; each type counts exactly its own files; and
   * `total_directories` equals the number of directories listed.
   */
  lemma StructureTallies(tree: seq<Node>, ext: string)
    requires ext != []
    ensures var steps := WalkTop(tree, StructureKeep); var s := StructureOf(tree);
      && s.totalFiles == TallySteps(steps, CountedFiles)
      && SumValues(s.fileTypes) == TallySteps(steps, TypedFiles)
      && Get(s.fileTypes, ext).GetOr(0) == TallySteps(steps, OfType(ext))
      && |s.importantFiles| == TallySteps(steps, ImportantNames)
      && s.totalDirectories == |s.directories|
  {
    var steps := WalkTop(tree, StructureKeep);
    CountStepsFacts(steps, ext);
    WalkTopDeeper(tree, StructureKeep);
    NestedCount(steps);
    WalkCount([], tree, StructureKeep);
  }

  lemma {:induction false} TallyWeaker(files: seq<FileInfo>)
    ensures Tally(files, TypedFiles) <= Tally(files, CountedFiles)
    decreases |files|
  {
    if files != [] {
      TallyWeaker(files[..|files| - 1]);
    }
  }

  lemma {:induction false} TallyStepsWeaker(steps: seq<Step>)
    ensures TallySteps(steps, TypedFiles) <= TallySteps(steps, CountedFiles)
    decreases |steps|
  {
    if steps != [] {
      TallyStepsWeaker(steps[..|steps| - 1]);
      TallyWeaker(steps[|steps| - 1].files);
    }
  }

  /** The counts of `file_types` never add up to more than `total_files`. */
  lemma FileTypesBounded(tree: seq<Node>)
    ensures SumValues(StructureOf(tree).fileTypes) <= StructureOf(tree).totalFiles
  {
    StructureTallies(tree, ".");
    TallyStepsWeaker(WalkTop(tree, StructureKeep));
  }

  /** The structure walk never enters a hidden, `node_modules`, `__pycache__` or `vendor` directory. */
  lemma StructureSkipsPruned(tree: seq<Node>, s: nat, i: nat)
    requires s < |WalkTop(tree, StructureKeep)| && i < |WalkTop(tree, StructureKeep)[s].path|
    ensures var name := WalkTop(tree, StructureKeep)[s].path[i];
      !StartsWith(name, ".") && name !in ["node_modules", "__pycache__", "vendor"]
  {
    WalkTopKept(tree, StructureKeep, s, i);
  }

  // ---------------------------------------------------------------------------
  // Dependencies
  // ---------------------------------------------------------------------------

  /** The values present among `xs`, in order */
  function Somes<T>(xs: seq<Option<T>>): seq<T>
    decreases |xs|
  {
    if xs == [] then []
    else Somes(xs[..|xs| - 1]) + (if xs[|xs| - 1].Some? then [xs[|xs| - 1].value] else [])
  }

  lemma {:induction false} SomesMembers<T>(xs: seq<Option<T>>, x: T)
    ensures x in Somes(xs) <==> Some(x) in xs
    decreases |xs|
  {
    if xs != [] {
      var n := |xs| - 1;
      SomesMembers(xs[..n], x);
      assert xs == xs[..n] + [xs[n]];
    }
  }

  /** One line of `requirements.txt`: kept, stripped, unless it is blank or a comment */
  function RequirementOf(line: string): Option<string> {
    var t := Strip(line);
    if t != [] && !StartsWith(t, "#") then Some(t) else None
  }

  function RequirementLines(lines: seq<string>): (r: seq<Option<string>>)
    ensures |r| == |lines| && forall i :: 0 <= i < |lines| ==> r[i] == RequirementOf(lines[i])
  {
    seq(|lines|, i requires 0 <= i < |lines| => RequirementOf(lines[i]))
  }

  /** The requirements read from the lines of `requirements.txt`, in file order */
  function RequirementsOf(lines: seq<string>): seq<string> {
    Somes(RequirementLines(lines))
  }

  /**
   * The requirements are exactly the stripped lines that are neither blank nor start with
   * "#": each is such a line, and each such line is among them.
   */
  lemma RequirementsExact(lines: seq<string>, x: string)
    ensures x in RequirementsOf(lines) <==>
      exists i :: 0 <= i < |lines| && Strip(lines[i]) == x && x != [] && !StartsWith(x, "#")
    ensures x in RequirementsOf(lines) ==> Strip(x) == x
  {
    var opts := RequirementLines(lines);
    SomesMembers(opts, x);
    if x in RequirementsOf(lines) {
      var i :| 0 <= i < |opts| && opts[i] == Some(x);
      StripUnchanged(x);
    }
    if exists i :: 0 <= i < |lines| && Strip(lines[i]) == x && x != [] && !StartsWith(x, "#") {
      var i :| 0 <= i < |lines| && Strip(lines[i]) == x && x != [] && !StartsWith(x, "#");
      assert opts[i] == Some(x);
    }
  }

  /** `package.json` as the analyzer reads it: only a top-level file of that name is opened */
  function PackageJsonOf(p: Project): Option<PackageInfo> {
    if TopFile(p.tree, "package.json").Some? then p.packageJson else None
  }

  /**
   * The Node.js dependencies when `package.json` parses; the requirements when
   * `requirements.txt` can be read; a message for each of `package.json`,
   * `requirements.txt` and `Dockerfile` that exists but cannot be read or parsed.
   */
  datatype Dependencies = Dependencies(nodejs: Option<PackageInfo>, python: Option<seq<string>>, issues: seq<string>)

  /** The issue reported for a dependency file `name` that cannot be read or parsed */
  function ParseFailure(name: string): string {
    "Failed to parse " + name
  }

  /** The message for a dependency file that exists but cannot be read */
  function ReadFailure(p: Project, name: string, readable: bool): seq<string> {
    if Exists(p.tree, name) && !readable then [ParseFailure(name)] else []
  }

  /** `_analyze_dependencies` */
  function DependenciesOf(p: Project): Dependencies {
    var requirements := TopFile(p.tree, "requirements.txt");
    Dependencies(
      PackageJsonOf(p),
      if requirements.Some? then Some(RequirementsOf(TextLines(requirements.value.content))) else None,
      ReadFailure(p, "package.json", PackageJsonOf(p).Some?)
        + ReadFailure(p, "requirements.txt", requirements.Some?)
        + ReadFailure(p, "Dockerfile", TopFile(p.tree, "Dockerfile").Some?))
  }

  // ---------------------------------------------------------------------------
  // Listing files of a walk
  // ---------------------------------------------------------------------------

  /** The tests by which a walk lists files */
  datatype FileTest = EnvironmentFiles | DockerFiles | LargeFiles

  /** Files above 100 MiB are large. */
  const LargeFileSize: nat := 100 * 1024 * 1024

  predicate Passes(c: FileTest, f: FileInfo) {
    match c
    case EnvironmentFiles => StartsWith(f.name, ".env") || Contains(Lower(f.name), "environment")
    case DockerFiles => StartsWith(Lower(f.name), "docker") || f.name == "Dockerfile"
    case LargeFiles => f.size > LargeFileSize
  }

  /** The relative paths of the `files` at `path` that pass `c`, in order */
  function ListIn(path: seq<string>, files: seq<FileInfo>, c: FileTest): seq<string>
    decreases |files|
  {
    if files == [] then []
    else
      var f := files[|files| - 1];
      ListIn(path, files[..|files| - 1], c) + (if Passes(c, f) then [RelPath(path, f.name)] else [])
  }

  /** The relative paths of the files of all `steps` that pass `c`, in walk order */
  function ListSteps(steps: seq<Step>, c: FileTest): seq<string>
    decreases |steps|
  {
    if steps == [] then [] else ListSteps(steps[..|steps| - 1], c) + ListIn(steps[|steps| - 1].path, steps[|steps| - 1].files, c)
  }

  /** The file `j` of step `s` passes `c`, and `x` is its relative path. */
  ghost predicate ListedAt(steps: seq<Step>, c: FileTest, x: string, s: int, j: int) {
    0 <= s < |steps| && 0 <= j < |steps[s].files|
      && Passes(c, steps[s].files[j]) && RelPath(steps[s].path, steps[s].files[j].name) == x
  }

  lemma {:induction false} ListInMembers(path: seq<string>, files: seq<FileInfo>, c: FileTest, x: string)
    ensures x in ListIn(path, files, c) <==>
      exists j :: 0 <= j < |files| && Passes(c, files[j]) && RelPath(path, files[j].name) == x
    decreases |files|
  {
    if files != [] {
      var n := |files| - 1;
      ListInMembers(path, files[..n], c, x);
      assert forall j :: 0 <= j < n ==> files[..n][j] == files[j];
    }
  }

  /** A path is listed exactly when some file of the walk passes the test and has that path. */
  lemma {:induction false} ListStepsMembers(steps: seq<Step>, c: FileTest, x: string)
    ensures x in ListSteps(steps, c) <==> exists s, j :: ListedAt(steps, c, x, s, j)
    decreases |steps|
  {
    if steps != [] {
      var n := |steps| - 1;
      var init := steps[..n];
      ListStepsMembers(init, c, x);
      ListInMembers(steps[n].path, steps[n].files, c, x);
      ListedAtSnoc(steps, c, x);
      assert ListSteps(steps, c) == ListSteps(init, c) + ListIn(steps[n].path, steps[n].files, c);
    }
  }

  /** A file of `steps` is listed as `x` exactly when one of the earlier steps or the last step has such a file. */
  lemma ListedAtSnoc(steps: seq<Step>, c: FileTest, x: string)
    requires steps != []
    ensures var n := |steps| - 1;
      (exists s, j :: ListedAt(steps, c, x, s, j))
      <==> (exists s, j :: ListedAt(steps[..n], c, x, s, j))
           || exists j :: 0 <= j < |steps[n].files| && Passes(c, steps[n].files[j]) && RelPath(steps[n].path, steps[n].files[j].name) == x
  {
    var n := |steps| - 1;
    var init := steps[..n];
    if exists s, j :: ListedAt(init, c, x, s, j) {
      var s, j :| ListedAt(init, c, x, s, j);
      assert ListedAt(steps, c, x, s, j);
    }
    if exists j :: 0 <= j < |steps[n].files| && Passes(c, steps[n].files[j]) && RelPath(steps[n].path, steps[n].files[j].name) == x {
      var j :| 0 <= j < |steps[n].files| && Passes(c, steps[n].files[j]) && RelPath(steps[n].path, steps[n].files[j].name) == x;
      assert ListedAt(steps, c, x, n, j);
    }
    if exists s, j :: ListedAt(steps, c, x, s, j) {
      var s, j :| ListedAt(steps, c, x, s, j);
      if s < n {
        assert ListedAt(init, c, x, s, j);
      }
    }
  }

  /** Nothing is listed exactly when no file of the walk passes the test. */
  lemma ListStepsEmpty(steps: seq<Step>, c: FileTest)
    ensures ListSteps(steps, c) == [] <==>
      forall s, j :: 0 <= s < |steps| && 0 <= j < |steps[s].files| ==> !Passes(c, steps[s].files[j])
  {
    var l := ListSteps(steps, c);
    if l != [] {
      ListStepsMembers(steps, c, l[0]);
      var s, j :| ListedAt(steps, c, l[0], s, j);
    }
    forall s, j | 0 <= s < |steps| && 0 <= j < |steps[s].files| && Passes(c, steps[s].files[j])
      ensures l != []
    {
      var x := RelPath(steps[s].path, steps[s].files[j].name);
      assert ListedAt(steps, c, x, s, j);
      ListStepsMembers(steps, c, x);
    }
  }

  // ---------------------------------------------------------------------------
  // Databases and ports
  // ---------------------------------------------------------------------------

  /** Each database type with the texts that indicate it, in the order they are tried */
  const DbIndicators: seq<(string, seq<string>)> := [
    ("mongodb", ["mongodb://", "mongoose", "mongo"]),
    ("postgresql", ["postgresql://", "psycopg2", "pg"]),
    ("mysql", ["mysql://", "pymysql", "mysql2"]),
    ("sqlite", ["sqlite", ".db", ".sqlite3"]),
    ("redis", ["redis://", "redis"])]

  /** `name.endswith(exts)` for a tuple of suffixes */
  predicate EndsWithAny(name: string, exts: seq<string>) {
    exists i :: 0 <= i < |exts| && EndsWith(name, exts[i])
  }

  /** `any(t in text for t in needles)` */
  predicate MentionsAny(text: string, needles: seq<string>) {
    exists i :: 0 <= i < |needles| && Contains(text, needles[i])
  }

  /** The files searched for database indicators */
  predicate DbScanned(name: string) {
    EndsWithAny(name, [".json", ".yml", ".yaml", ".env", ".py", ".js"])
  }

  /** The types of `dbs` that `text` indicates, appended to `acc` unless already listed */
  function NoteDbs(acc: seq<string>, text: string, dbs: seq<(string, seq<string>)>): seq<string>
    decreases |dbs|
  {
    if dbs == [] then acc
    else
      var before := NoteDbs(acc, text, dbs[..|dbs| - 1]);
      var db := dbs[|dbs| - 1];
      if MentionsAny(text, db.1) && db.0 !in before then before + [db.0] else before
  }

  /** The database types found in the files of one directory */
  function DbsIn(acc: seq<string>, files: seq<FileInfo>): seq<string>
    decreases |files|
  {
    if files == [] then acc
    else
      var before := DbsIn(acc, files[..|files| - 1]);
      var f := files[|files| - 1];
      if DbScanned(f.name) then NoteDbs(before, Lower(ReadText(f)), DbIndicators) else before
  }

  function DbsInSteps(steps: seq<Step>): seq<string>
    decreases |steps|
  {
    if steps == [] then [] else DbsIn(DbsInSteps(steps[..|steps| - 1]), steps[|steps| - 1].files)
  }

  /** `_detect_database_config`: every directory is searched, hidden ones included */
  function DatabaseConfigOf(tree: seq<Node>): Option<seq<string>> {
    var found := DbsInSteps(WalkTop(tree, KeepAll));
    if found == [] then None else Some(found)
  }

  /** The file `f` indicates the database type `x`. */
  ghost predicate Indicates(f: FileInfo, x: string) {
    DbScanned(f.name) && IndicatedAmong(Lower(ReadText(f)), DbIndicators, x)
  }

  /** The database types `text` indicates among `dbs` */
  ghost predicate IndicatedAmong(text: string, dbs: seq<(string, seq<string>)>, x: string) {
    exists k :: 0 <= k < |dbs| && dbs[k].0 == x && MentionsAny(text, dbs[k].1)
  }

  lemma {:induction false} NoteDbsMembers(acc: seq<string>, text: string, dbs: seq<(string, seq<string>)>, x: string)
    ensures x in NoteDbs(acc, text, dbs) <==> x in acc || IndicatedAmong(text, dbs, x)
    ensures NoDup(acc) ==> NoDup(NoteDbs(acc, text, dbs))
    decreases |dbs|
  {
    if dbs != [] {
      var n := |dbs| - 1;
      NoteDbsMembers(acc, text, dbs[..n], x);
      assert forall k :: 0 <= k < n ==> dbs[..n][k] == dbs[k];
    }
  }

  lemma {:induction false} DbsInMembers(acc: seq<string>, files: seq<FileInfo>, x: string)
    ensures x in DbsIn(acc, files) <==> x in acc || exists j :: 0 <= j < |files| && Indicates(files[j], x)
    ensures NoDup(acc) ==> NoDup(DbsIn(acc, files))
    decreases |files|
  {
    if files != [] {
      var n := |files| - 1;
      var before := DbsIn(acc, files[..n]);
      DbsInMembers(acc, files[..n], x);
      assert forall j :: 0 <= j < n ==> files[..n][j] == files[j];
      var f := files[n];
      if DbScanned(f.name) {
        NoteDbsMembers(before, Lower(ReadText(f)), DbIndicators, x);
      }
    }
  }

  /**
   * A database type is reported exactly when some searched file of the project indicates it,
   * and each at most once.
   */
  lemma {:induction false} DbsInStepsMembers(steps: seq<Step>, x: string)
    ensures x in DbsInSteps(steps) <==> exists s, j :: IndicatesAt(steps, x, s, j)
    ensures NoDup(DbsInSteps(steps))
    decreases |steps|
  {
    if steps != [] {
      var n := |steps| - 1;
      var init := steps[..n];
      DbsInStepsMembers(init, x);
      DbsInMembers(DbsInSteps(init), steps[n].files, x);
      IndicatesAtSnoc(steps, x);
      assert DbsInSteps(steps) == DbsIn(DbsInSteps(init), steps[n].files);
    }
  }

  /** Some file of `steps` indicates `x` exactly when one of the earlier steps or the last step has such a file. */
  lemma IndicatesAtSnoc(steps: seq<Step>, x: string)
    requires steps != []
    ensures var n := |steps| - 1;
      (exists s, j :: IndicatesAt(steps, x, s, j))
      <==> (exists s, j :: IndicatesAt(steps[..n], x, s, j))
           || exists j :: 0 <= j < |steps[n].files| && Indicates(steps[n].files[j], x)
  {
    var n := |steps| - 1;
    var init := steps[..n];
    if exists s, j :: IndicatesAt(init, x, s, j) {
      var s, j :| IndicatesAt(init, x, s, j);
      assert IndicatesAt(steps, x, s, j);
    }
    if exists j :: 0 <= j < |steps[n].files| && Indicates(steps[n].files[j], x) {
      var j :| 0 <= j < |steps[n].files| && Indicates(steps[n].files[j], x);
      assert IndicatesAt(steps, x, n, j);
    }
    if exists s, j :: IndicatesAt(steps, x, s, j) {
      var s, j :| IndicatesAt(steps, x, s, j);
      if s < n {
        assert IndicatesAt(init, x, s, j);
      }
    }
  }

  /** The file `j` of step `s` indicates the database type `x`. */
  ghost predicate IndicatesAt(steps: seq<Step>, x: string, s: int, j: int) {
    0 <= s < |steps| && 0 <= j < |steps[s].files| && Indicates(steps[s].files[j], x)
  }

  /**
   * The database configuration lists each indicated type once, and only those; it is None
   * rather than an empty list.
   */
  lemma DatabaseConfigExact(tree: seq<Node>, x: string)
    ensures var steps := WalkTop(tree, KeepAll); var r := DatabaseConfigOf(tree);
      && (r.Some? ==> r.value != [] && NoDup(r.value))
      && (r.Some? && x in r.value <==> exists s, j :: IndicatesAt(steps, x, s, j))
  {
    DbsInStepsMembers(WalkTop(tree, KeepAll), x);
  }

  /** Only numbers in this range are taken for ports. */
  predicate ValidPort(n: nat) {
    1000 <= n <= 65535
  }

  function ValidPorts(ms: seq<nat>): (r: seq<nat>)
    ensures forall x :: x in r <==> x in ms && ValidPort(x)
    decreases |ms|
  {
    if ms == [] then []
    else ValidPorts(ms[..|ms| - 1]) + (if ValidPort(ms[|ms| - 1]) then [ms[|ms| - 1]] else [])
  }

  /** Each element once, at its first occurrence */
  function Dedup(xs: seq<nat>): (r: seq<nat>)
    ensures forall x :: x in r <==> x in xs
    ensures NoDup(r)
    decreases |xs|
  {
    if xs == [] then []
    else
      var before := Dedup(xs[..|xs| - 1]);
      if xs[|xs| - 1] in before then before else before + [xs[|xs| - 1]]
  }

  /** `_detect_port_config` after the pattern matching: the valid ports, each once */
  function PortConfigOf(ms: seq<nat>): (r: Option<seq<nat>>)
  {
    var ports := Dedup(ValidPorts(ms));
    if ports == [] then None else Some(ports)
  }

  /**
   * Every reported port is in [1000, 65535] and reported once; every valid match is
   * reported; and the result is None exactly when no match is a valid port.
   */
  lemma PortConfigExact(ms: seq<nat>, x: nat)
    ensures PortConfigOf(ms).Some? ==> NoDup(PortConfigOf(ms).value)
    ensures PortConfigOf(ms).Some? && x in PortConfigOf(ms).value <==> x in ms && ValidPort(x)
    ensures PortConfigOf(ms).None? <==> forall y :: y in ms ==> !ValidPort(y)
  {
    var ports := Dedup(ValidPorts(ms));
    if ports != [] {
      assert ports[0] in ms;
    }
  }

  datatype Configuration = Configuration(
    environmentFiles: seq<string>,
    dockerFiles: seq<string>,
    databaseConfig: Option<seq<string>>,
    portConfiguration: Option<seq<nat>>)

  /** `_analyze_configuration`: every directory is walked, hidden ones included */
  function ConfigurationOf(p: Project): Configuration {
    var steps := WalkTop(p.tree, KeepAll);
    Configuration(
      ListSteps(steps, EnvironmentFiles),
      ListSteps(steps, DockerFiles),
      DatabaseConfigOf(p.tree),
      PortConfigOf(p.portMatches))
  }

  // ---------------------------------------------------------------------------
  // Potential issues
  // ---------------------------------------------------------------------------

  datatype Issue = Issue(kind: string, severity: string, description: string)

  /** Some path among `paths` contains `t` */
  predicate AnyContains(paths: seq<string>, t: string) {
    exists i :: 0 <= i < |paths| && Contains(paths[i], t)
  }

  /** Some path among `paths` has base name `name` */
  predicate AnyBasename(paths: seq<string>, name: string) {
    exists i :: 0 <= i < |paths| && Basename(paths[i]) == name
  }

  /** The important files of an earlier analysis; none before the first one */
  function ImportantOf(prev: Option<Analysis>): seq<string> {
    if prev.Some? then prev.value.structure.importantFiles else []
  }

  /**
   * The missing-file check. It reads the analysis already held by the analyzer, which is
   * the previous run's (or none on the first run), not the one being computed.
   */
  function MissingFileIssues(prev: Option<Analysis>): seq<Issue> {
    if prev.None? then []
    else
      var important := ImportantOf(prev);
      if prev.value.projectType.primary == "nodejs" then
        if !AnyBasename(important, "package.json") then
          [Issue("missing_file", "high", "Missing package.json file for Node.js project")]
        else []
      else if prev.value.projectType.primary == "python" then
        if !AnyContains(important, "requirements.txt") && !AnyContains(important, "setup.py") then
          [Issue("missing_file", "medium", "Missing requirements.txt or setup.py for Python project")]
        else []
      else []
  }

  /** The missing-environment check, on the analysis already held, like the missing-file check */
  function MissingEnvIssues(prev: Option<Analysis>): seq<Issue> {
    if !AnyContains(ImportantOf(prev), ".env") then
      [Issue("missing_env", "low", "No environment configuration files found")]
    else []
  }

  /** The texts that suggest hard-coded settings, each with the description it reports */
  const HardcodedPatterns: seq<(string, string)> := [
    ("localhost", "Hardcoded localhost references found"),
    ("127.0.0.1", "Hardcoded local IP addresses found"),
    ("password", "Potential hardcoded passwords found"),
    ("secret", "Potential hardcoded secrets found")]

  /** The files searched for hard-coded settings */
  predicate HardcodedScanned(name: string) {
    EndsWithAny(name, [".py", ".js", ".json", ".yml", ".yaml"])
  }

  /** The first of `pats` whose text occurs in `text` */
  function FirstPattern(text: string, pats: seq<(string, string)>): (r: Option<nat>)
    ensures r.Some? ==> r.value < |pats| && Contains(text, pats[r.value].0)
    ensures r.Some? ==> forall j :: 0 <= j < r.value ==> !Contains(text, pats[j].0)
    ensures r.None? <==> forall j :: 0 <= j < |pats| ==> !Contains(text, pats[j].0)
    decreases |pats|
  {
    if pats == [] then None
    else if Contains(text, pats[0].0) then Some(0)
    else
      match FirstPattern(text, pats[1..])
      case None => None
      case Some(k) => Some(k + 1)
  }

  /** A pattern that occurs, with none before it occurring, is the first one. */
  lemma FirstPatternAt(text: string, pats: seq<(string, string)>, k: nat)
    requires k < |pats| && Contains(text, pats[k].0)
    requires forall j :: 0 <= j < k ==> !Contains(text, pats[j].0)
    ensures FirstPattern(text, pats) == Some(k)
  {
  }

  /** The hard-coded-settings issue of one file: for the first pattern found in it, if any */
  function HardcodedIssueOf(path: seq<string>, f: FileInfo): seq<Issue> {
    if !HardcodedScanned(f.name) then []
    else
      match FirstPattern(Lower(ReadText(f)), HardcodedPatterns)
      case None => []
      case Some(k) => [Issue("hardcoded_config", "medium", HardcodedPatterns[k].1 + " in " + RelPath(path, f.name))]
  }

  function HardcodedIn(path: seq<string>, files: seq<FileInfo>): seq<Issue>
    decreases |files|
  {
    if files == [] then [] else HardcodedIn(path, files[..|files| - 1]) + HardcodedIssueOf(path, files[|files| - 1])
  }

  function HardcodedSteps(steps: seq<Step>): seq<Issue>
    decreases |steps|
  {
    if steps == [] then [] else HardcodedSteps(steps[..|steps| - 1]) + HardcodedIn(steps[|steps| - 1].path, steps[|steps| - 1].files)
  }

  const LargeFilesPrefix: string := "Large files found that may cause deployment issues: "

  /** At most the first five of the large files are named. */
  function Shown(large: seq<string>): seq<string> {
    if |large| <= 5 then large else large[..5]
  }

  function LargeIssue(large: seq<string>): seq<Issue> {
    if large == [] then [] else [Issue("large_files", "medium", LargeFilesPrefix + JoinWith(Shown(large), ", "))]
  }

  /** `_identify_potential_issues`, with `prev` the analysis the analyzer holds when it runs */
  function IssuesOf(prev: Option<Analysis>, tree: seq<Node>): seq<Issue> {
    var steps := WalkTop(tree, KeepAll);
    MissingFileIssues(prev) + HardcodedSteps(steps) + MissingEnvIssues(prev) + LargeIssue(ListSteps(steps, LargeFiles))
  }

  /**
   * A file yields a hard-coded-settings issue exactly when it is searched and one of the
   * patterns occurs in its lower-cased text; then it yields one, described by the first
   * pattern that occurs.
   */
  lemma HardcodedPerFile(path: seq<string>, f: FileInfo)
    ensures var r := HardcodedIssueOf(path, f); var text := Lower(ReadText(f));
      && |r| <= 1
      && (r != [] <==> HardcodedScanned(f.name) && exists j :: 0 <= j < |HardcodedPatterns| && Contains(text, HardcodedPatterns[j].0))
      && (r != [] ==> exists k :: (0 <= k < |HardcodedPatterns| && Contains(text, HardcodedPatterns[k].0)
            && (forall j :: 0 <= j < k ==> !Contains(text, HardcodedPatterns[j].0))
            && r[0] == Issue("hardcoded_config", "medium", HardcodedPatterns[k].1 + " in " + RelPath(path, f.name))))
  {
    var text := Lower(ReadText(f));
    if HardcodedScanned(f.name) {
      match FirstPattern(text, HardcodedPatterns)
      case None =>
      case Some(k) =>
    }
  }

  lemma {:induction false} HardcodedInBound(path: seq<string>, files: seq<FileInfo>)
    ensures |HardcodedIn(path, files)| <= |files|
    ensures forall i :: 0 <= i < |HardcodedIn(path, files)| ==> HardcodedIn(path, files)[i].kind == "hardcoded_config"
    decreases |files|
  {
    if files != [] {
      HardcodedInBound(path, files[..|files| - 1]);
      HardcodedPerFile(path, files[|files| - 1]);
    }
  }

  /** The number of files in all `steps` */
  function FileCount(steps: seq<Step>): nat
    decreases |steps|
  {
    if steps == [] then 0 else FileCount(steps[..|steps| - 1]) + |steps[|steps| - 1].files|
  }

  /** No file yields more than one hard-coded-settings issue. */
  lemma {:induction false} HardcodedAtMostOnePerFile(steps: seq<Step>)
    ensures |HardcodedSteps(steps)| <= FileCount(steps)
    ensures forall i :: 0 <= i < |HardcodedSteps(steps)| ==> HardcodedSteps(steps)[i].kind == "hardcoded_config"
    decreases |steps|
  {
    if steps != [] {
      var n := |steps| - 1;
      HardcodedAtMostOnePerFile(steps[..n]);
      HardcodedInBound(steps[n].path, steps[n].files);
    }
  }

  /** The large-files issue is raised when some file is large, and names the first five at most. */
  lemma LargeIssueNamesAtMostFive(large: seq<string>)
    ensures LargeIssue(large) != [] <==> large != []
    ensures LargeIssue(large) != [] ==> exists shown ::
      && |shown| <= 5 && |shown| <= |large| && shown == large[..|shown|] && (|large| >= 5 ==> |shown| == 5)
      && LargeIssue(large)[0].description == LargeFilesPrefix + JoinWith(shown, ", ")
  {
    if large != [] {
      var shown := Shown(large);
      assert shown == large[..|shown|];
    }
  }

  /**
   * On a first analysis nothing is held yet, so the missing-file check never fires and the
   * missing-environment issue is always raised, whatever the project holds.
   */
  lemma FirstAnalysisIssues(tree: seq<Node>)
    ensures forall i :: 0 <= i < |IssuesOf(None, tree)| ==> IssuesOf(None, tree)[i].kind != "missing_file"
    ensures Issue("missing_env", "low", "No environment configuration files found") in IssuesOf(None, tree)
  {
    var steps := WalkTop(tree, KeepAll);
    HardcodedAtMostOnePerFile(steps);
    var hc := HardcodedSteps(steps);
    var large := LargeIssue(ListSteps(steps, LargeFiles));
    var env := MissingEnvIssues(None);
    assert MissingFileIssues(None) == [];
    assert IssuesOf(None, tree) == [] + hc + env + large;
    assert [] + hc == hc;
    assert IssuesOf(None, tree)[|hc|] == env[0];
  }

  // ---------------------------------------------------------------------------
  // Recommendations
  // ---------------------------------------------------------------------------

  // (long texts are split where the proofs need to see their first character)
  const Pm2Advice: string := "Consider using PM2 for process management in production"
  const ExpressAdvice: string := "Ensure Express app binds to 0.0.0.0 for external access"
  const WsgiAdvice: string := "Consider using Gunicorn or uWSGI " + "for production deployment"
  const DjangoAdvice: string := "Set DEBUG=False and configure " + "ALLOWED_HOSTS for production"
  const FlaskAdvice: string := "Use a production WSGI server " + "instead of Flask's development server"
  const HardcodedAdvice: string := "Move hardcoded configurations to environment variables"
  const EnvAdvice: string := "Create environment configuration files for different deployment stages"
  const DatabasePrefix: string := "Ensure database services are available: "
  const PortPrefix: string := "Configure port binding " + "for detected ports: "

  /** The four recommendations every analysis ends with */
  const GeneralAdvice: seq<string> := [
    "Add health check endpoints for monitoring",
    "Implement logging for debugging deployment issues",
    "Set up error handling for production environment",
    "Consider adding Docker support for consistent deployments"]

  /** The advice for the primary project type and its frameworks */
  function TypeAdvice(t: ProjectType): seq<string> {
    if t.primary == "nodejs" then
      [Pm2Advice] + (if "express" in t.frameworks then [ExpressAdvice] else [])
    else if t.primary == "python" then
      [WsgiAdvice]
        + (if "django" in t.frameworks then [DjangoAdvice] else if "flask" in t.frameworks then [FlaskAdvice] else [])
    else []
  }

  /** The advice one issue gives */
  function IssueAdviceOf(i: Issue): seq<string> {
    if i.kind == "hardcoded_config" then [HardcodedAdvice]
    else if i.kind == "missing_env" then [EnvAdvice]
    else []
  }

  function IssueAdvice(issues: seq<Issue>): seq<string>
    decreases |issues|
  {
    if issues == [] then [] else IssueAdvice(issues[..|issues| - 1]) + IssueAdviceOf(issues[|issues| - 1])
  }

  function DatabaseAdvice(c: Configuration): seq<string> {
    if c.databaseConfig.Some? && c.databaseConfig.value != [] then
      [DatabasePrefix + JoinWith(c.databaseConfig.value, ", ")]
    else []
  }

  /** `map(str, ports)` */
  function PortNames(ports: seq<nat>): (r: seq<string>)
    ensures |r| == |ports| && forall i :: 0 <= i < |ports| ==> r[i] == NatToString(ports[i])
  {
    seq(|ports|, i requires 0 <= i < |ports| => NatToString(ports[i]))
  }

  function PortAdvice(c: Configuration): seq<string> {
    if c.portConfiguration.Some? && c.portConfiguration.value != [] then
      [PortPrefix + JoinWith(PortNames(c.portConfiguration.value), ", ")]
    else []
  }

  /** `_generate_recommendations` on an analysis */
  function RecommendationsOf(a: Analysis): seq<string> {
    TypeAdvice(a.projectType) + IssueAdvice(a.potentialIssues) + DatabaseAdvice(a.configuration)
      + PortAdvice(a.configuration) + GeneralAdvice
  }

  /** Every recommendation list ends with the four general items. */
  lemma RecommendationsEndWithGeneral(a: Analysis)
    ensures |RecommendationsOf(a)| >= 4
    ensures RecommendationsOf(a)[|RecommendationsOf(a)| - 4..] == GeneralAdvice
  {
  }

  /** Issue advice is one of the two issue recommendations. */
  lemma {:induction false} IssueAdviceKinds(issues: seq<Issue>)
    ensures forall x :: x in IssueAdvice(issues) ==> x == HardcodedAdvice || x == EnvAdvice
    decreases |issues|
  {
    if issues != [] {
      IssueAdviceKinds(issues[..|issues| - 1]);
    }
  }

  /** The advice to move hard-coded settings is given exactly when such an issue was found. */
  lemma {:induction false} HardcodedAdviceGiven(issues: seq<Issue>)
    ensures HardcodedAdvice in IssueAdvice(issues) <==> exists i :: 0 <= i < |issues| && issues[i].kind == "hardcoded_config"
    decreases |issues|
  {
    if issues != [] {
      var n := |issues| - 1;
      var init := issues[..n];
      HardcodedAdviceGiven(init);
      assert HardcodedAdvice != EnvAdvice;
      assert IssueAdvice(issues) == IssueAdvice(init) + IssueAdviceOf(issues[n]);
      if HardcodedAdvice in IssueAdvice(init) {
        var i :| 0 <= i < n && init[i].kind == "hardcoded_config";
        assert issues[i] == init[i];
      }
      if exists i :: 0 <= i < |issues| && issues[i].kind == "hardcoded_config" {
        var i :| 0 <= i < |issues| && issues[i].kind == "hardcoded_config";
        if i < n { assert init[i] == issues[i]; }
      }
    }
  }

  /** Neither framework recommendation is among `xs`. */
  predicate NoFrameworkAdvice(xs: seq<string>) {
    DjangoAdvice !in xs && FlaskAdvice !in xs
  }

  lemma IssueAdviceNoFramework(issues: seq<Issue>)
    ensures NoFrameworkAdvice(IssueAdvice(issues))
  {
    IssueAdviceKinds(issues);
    assert |DjangoAdvice| == 58 && |FlaskAdvice| == 66;
  }

  lemma ConfigurationAdviceNoFramework(c: Configuration)
    ensures NoFrameworkAdvice(DatabaseAdvice(c) + PortAdvice(c))
  {
    assert DjangoAdvice[0] == 'S' && FlaskAdvice[0] == 'U';
    assert forall x :: x in DatabaseAdvice(c) ==> x[0] == 'E';
    assert forall x :: x in PortAdvice(c) ==> x[0] == 'C';
  }

  /** The advice that follows the type advice never repeats the framework advice. */
  lemma LaterAdviceNotFramework(a: Analysis)
    ensures NoFrameworkAdvice(IssueAdvice(a.potentialIssues) + DatabaseAdvice(a.configuration) + PortAdvice(a.configuration) + GeneralAdvice)
  {
    IssueAdviceNoFramework(a.potentialIssues);
    ConfigurationAdviceNoFramework(a.configuration);
    assert |DjangoAdvice| == 58 && |FlaskAdvice| == 66;
    assert NoFrameworkAdvice(GeneralAdvice);
    var i := IssueAdvice(a.potentialIssues);
    var c := DatabaseAdvice(a.configuration) + PortAdvice(a.configuration);
    assert i + DatabaseAdvice(a.configuration) + PortAdvice(a.configuration) + GeneralAdvice == i + c + GeneralAdvice;
  }

  /** Django and Flask advice are never both given. */
  lemma DjangoOrFlask(a: Analysis)
    ensures !(DjangoAdvice in RecommendationsOf(a) && FlaskAdvice in RecommendationsOf(a))
  {
    var t := TypeAdvice(a.projectType);
    var rest := IssueAdvice(a.potentialIssues) + DatabaseAdvice(a.configuration) + PortAdvice(a.configuration) + GeneralAdvice;
    assert RecommendationsOf(a) == t + rest;
    LaterAdviceNotFramework(a);
    assert DjangoAdvice[0] == 'S' && WsgiAdvice[0] == 'C' && |FlaskAdvice| == 66;
  }

  // ---------------------------------------------------------------------------
  // The analysis
  // ---------------------------------------------------------------------------

  datatype Analysis = Analysis(
    projectPath: string,
    projectType: ProjectType,
    structure: Structure,
    dependencies: Dependencies,
    configuration: Configuration,
    potentialIssues: seq<Issue>,
    recommendations: seq<string>)

  /**
   * `analyze` of an existing directory: every part is computed from the project, except
   * the issues, which see `prev`, the analysis held before this run; the recommendations
   * are derived last, from all the rest.
   */
  function AnalysisOf(dir: string, p: Project, prev: Option<Analysis>): Analysis {
    var a := Analysis(dir, ProjectTypeOf(p), StructureOf(p.tree), DependenciesOf(p), ConfigurationOf(p), IssuesOf(prev, p.tree), []);
    a.(recommendations := RecommendationsOf(a))
  }

  // ---------------------------------------------------------------------------
  // The analyzer
  // ---------------------------------------------------------------------------

  /** The analyzer holds the analysis of its latest run on an existing directory. */
  class ProjectAnalyzer {
    /** `self.analysis_result`; None stands for the empty dict it starts as */
    var analysisResult: Option<Analysis>

    constructor()
      ensures analysisResult == None
    {
      analysisResult := None;
    }

    /**
     * `analyze`: `project` is None when the directory does not exist, and then nothing is
     * held anew and the empty result is returned. The issues are computed while the previous
     * analysis is still held.
     */
    method Analyze(dir: string, project: Option<Project>) returns (r: Option<Analysis>)
      modifies this
      ensures project.None? ==> r.None? && analysisResult == old(analysisResult)
      ensures project.Some? ==> r == Some(AnalysisOf(dir, project.value, old(analysisResult))) && analysisResult == r
    {
      if project.None? {
        return None;
      }
      var p := project.value;
      var structure := AnalyzeStructure(p.tree);
      var dependencies := AnalyzeDependencies(p);
      var configuration := AnalyzeConfiguration(p);
      var issues := IdentifyPotentialIssues(p.tree);
      analysisResult := Some(Analysis(dir, ProjectTypeOf(p), structure, dependencies, configuration, issues, []));
      GenerateRecommendations();
      r := analysisResult;
    }

    /** `_analyze_structure`: the walk pruned of hidden and dependency directories */
    method AnalyzeStructure(tree: seq<Node>) returns (s: Structure)
      ensures s == StructureOf(tree)
    {
      var steps := WalkTop(tree, StructureKeep);
      s := EmptyStructure;
      var i := 0;
      while i < |steps|
        invariant 0 <= i <= |steps|
        invariant s == CountSteps(EmptyStructure, steps[..i])
      {
        s := CountDirectory(s, steps[i]);
        assert steps[..i + 1][..i] == steps[..i];
        i := i + 1;
      }
      assert steps[..i] == steps;
    }

    /** One `(root, dirs, files)` triple of the structure walk */
    method CountDirectory(s0: Structure, step: Step) returns (s: Structure)
      ensures s == CountStep(s0, step)
    {
      s := s0.(totalDirectories := s0.totalDirectories + |step.dirs|);
      s := CountFilesIn(s, step.path, step.files);
      if step.path != [] {
        s := s.(directories := s.directories + [RelDir(step.path)]);
      }
    }

    /** The file loop of the structure walk, over the files of one directory */
    static method CountFilesIn(s0: Structure, path: seq<string>, files: seq<FileInfo>) returns (s: Structure)
      ensures s == CountFiles(s0, path, files)
    {
      s := s0;
      var j := 0;
      while j < |files|
        invariant 0 <= j <= |files|
        invariant s == CountFiles(s0, path, files[..j])
      {
        s := CountOneFile(s, path, files[j]);
        assert files[..j + 1][..j] == files[..j];
        j := j + 1;
      }
      assert files[..j] == files;
    }

    /** The body of the file loop of the structure walk */
    static method CountOneFile(s0: Structure, path: seq<string>, f: FileInfo) returns (s: Structure)
      ensures s == CountFile(s0, path, f)
    {
      s := TallyFile(s0, path, f, Counted(f.name), Important(f.name));
    }

    /** The counting a file gets once its two tests are decided */
    static method TallyFile(s0: Structure, path: seq<string>, f: FileInfo, counted: bool, important: bool) returns (s: Structure)
      ensures s == CountFileAs(s0, path, f, counted, important)
    {
      s := s0;
      if counted {
        s := s.(totalFiles := s.totalFiles + 1);
        var types := CountFileType(s.fileTypes, FileType(f.name));
        s := s.(fileTypes := types);
        if important {
          s := s.(importantFiles := s.importantFiles + [RelPath(path, f.name)]);
        }
      }
    }

    /** `file_types[ext] = file_types.get(ext, 0) + 1`, for a non-empty suffix only */
    static method CountFileType(types: Dict<string, nat>, ext: string) returns (r: Dict<string, nat>)
      ensures r == CountType(types, ext)
    {
      r := types;
      if ext != [] {
        r := Put(r, ext, Get(r, ext).GetOr(0) + 1);
      }
    }

    /** The requirements loop of `_analyze_dependencies`, over the lines of `requirements.txt` */
    method ParseRequirements(lines: seq<string>) returns (requirements: seq<string>)
      ensures requirements == RequirementsOf(lines)
    {
      requirements := [];
      var i := 0;
      while i < |lines|
        invariant 0 <= i <= |lines|
        invariant requirements == Somes(RequirementLines(lines[..i]))
      {
        var line := Strip(lines[i]);
        if line != [] && !StartsWith(line, "#") {
          requirements := requirements + [line];
        }
        assert RequirementLines(lines[..i + 1])[..i] == RequirementLines(lines[..i]);
        i := i + 1;
      }
      assert lines[..i] == lines;
    }

    /** `_analyze_dependencies` */
    method AnalyzeDependencies(p: Project) returns (d: Dependencies)
      ensures d == DependenciesOf(p)
    {
      var issues: seq<string> := [];
      var nodejs := None;
      if Exists(p.tree, "package.json") {
        nodejs := PackageJsonOf(p);
        if nodejs.None? {
          issues := issues + [ParseFailure("package.json")];
        }
      } else if TopFile(p.tree, "package.json").Some? {
        TopFileExists(p.tree, "package.json");
      }
      ghost var nodeIssues := ReadFailure(p, "package.json", PackageJsonOf(p).Some?);
      assert issues == nodeIssues;
      var python := None;
      var requirementsFile := TopFile(p.tree, "requirements.txt");
      if requirementsFile.Some? {
        TopFileExists(p.tree, "requirements.txt");
        var requirements := ParseRequirements(TextLines(requirementsFile.value.content));
        python := Some(requirements);
      } else if Exists(p.tree, "requirements.txt") {
        issues := issues + [ParseFailure("requirements.txt")];
      }
      ghost var pythonIssues := ReadFailure(p, "requirements.txt", requirementsFile.Some?);
      assert issues == nodeIssues + pythonIssues;
      if Exists(p.tree, "Dockerfile") && TopFile(p.tree, "Dockerfile").None? {
        issues := issues + [ParseFailure("Dockerfile")];
      }
      d := Dependencies(nodejs, python, issues);
    }

    /** `_analyze_configuration`: the environment and Docker files of the whole walk */
    method AnalyzeConfiguration(p: Project) returns (c: Configuration)
      ensures c == ConfigurationOf(p)
    {
      var steps := WalkTop(p.tree, KeepAll);
      var environmentFiles: seq<string> := [];
      var dockerFiles: seq<string> := [];
      var i := 0;
      while i < |steps|
        invariant 0 <= i <= |steps|
        invariant environmentFiles == ListSteps(steps[..i], EnvironmentFiles)
        invariant dockerFiles == ListSteps(steps[..i], DockerFiles)
      {
        var env, docker := ConfigurationFilesIn(steps[i].path, steps[i].files);
        environmentFiles, dockerFiles := environmentFiles + env, dockerFiles + docker;
        assert steps[..i + 1][..i] == steps[..i];
        i := i + 1;
      }
      assert steps[..i] == steps;
      var databaseConfig := DetectDatabaseConfig(p.tree);
      var portConfiguration := DetectPortConfig(p.portMatches);
      c := Configuration(environmentFiles, dockerFiles, databaseConfig, portConfiguration);
    }

    /** The environment and Docker files of one directory */
    method ConfigurationFilesIn(path: seq<string>, files: seq<FileInfo>) returns (env: seq<string>, docker: seq<string>)
      ensures env == ListIn(path, files, EnvironmentFiles)
      ensures docker == ListIn(path, files, DockerFiles)
    {
      env, docker := [], [];
      var j := 0;
      while j < |files|
        invariant 0 <= j <= |files|
        invariant env == ListIn(path, files[..j], EnvironmentFiles)
        invariant docker == ListIn(path, files[..j], DockerFiles)
      {
        var f := files[j];
        var relPath := RelPath(path, f.name);
        if StartsWith(f.name, ".env") || Contains(Lower(f.name), "environment") {
          env := env + [relPath];
        }
        if StartsWith(Lower(f.name), "docker") || f.name == "Dockerfile" {
          docker := docker + [relPath];
        }
        assert files[..j + 1][..j] == files[..j];
        j := j + 1;
      }
      assert files[..j] == files;
    }

    /** `_detect_database_config` */
    method DetectDatabaseConfig(tree: seq<Node>) returns (r: Option<seq<string>>)
      ensures r == DatabaseConfigOf(tree)
    {
      var steps := WalkTop(tree, KeepAll);
      var detected: seq<string> := [];
      var i := 0;
      while i < |steps|
        invariant 0 <= i <= |steps|
        invariant detected == DbsInSteps(steps[..i])
      {
        detected := DatabasesIn(detected, steps[i].files);
        assert steps[..i + 1][..i] == steps[..i];
        i := i + 1;
      }
      assert steps[..i] == steps;
      r := if detected == [] then None else Some(detected);
    }

    /** The database search of the files of one directory */
    method DatabasesIn(detected: seq<string>, files: seq<FileInfo>) returns (r: seq<string>)
      ensures r == DbsIn(detected, files)
    {
      r := detected;
      var j := 0;
      while j < |files|
        invariant 0 <= j <= |files|
        invariant r == DbsIn(detected, files[..j])
      {
        var f := files[j];
        if DbScanned(f.name) {
          r := NoteDatabases(r, Lower(ReadText(f)));
        }
        assert files[..j + 1][..j] == files[..j];
        j := j + 1;
      }
      assert files[..j] == files;
    }

    /** One file's text tried against each database type's indicators */
    method NoteDatabases(detected: seq<string>, content: string) returns (r: seq<string>)
      ensures r == NoteDbs(detected, content, DbIndicators)
    {
      r := detected;
      var k := 0;
      while k < |DbIndicators|
        invariant 0 <= k <= |DbIndicators|
        invariant r == NoteDbs(detected, content, DbIndicators[..k])
      {
        var (dbType, indicators) := DbIndicators[k];
        if MentionsAny(content, indicators) && dbType !in r {
          r := r + [dbType];
        }
        assert DbIndicators[..k + 1][..k] == DbIndicators[..k];
        k := k + 1;
      }
      assert DbIndicators[..k] == DbIndicators;
    }

    /** `_detect_port_config` on the numbers its patterns matched, in the order found */
    method DetectPortConfig(matches: seq<nat>) returns (r: Option<seq<nat>>)
      ensures r == PortConfigOf(matches)
    {
      var detected: seq<nat> := [];
      var i := 0;
      while i < |matches|
        invariant 0 <= i <= |matches|
        invariant detected == ValidPorts(matches[..i])
      {
        if 1000 <= matches[i] <= 65535 {
          detected := detected + [matches[i]];
        }
        assert matches[..i + 1][..i] == matches[..i];
        i := i + 1;
      }
      assert matches[..i] == matches;
      if detected == [] {
        r := None;
      } else {
        assert detected[0] in Dedup(detected);
        r := Some(Dedup(detected));
      }
    }

    /**
     * `_identify_potential_issues`. The missing-file and missing-environment checks read the
     * analysis held when it runs, which `analyze` has not yet replaced.
     */
    method IdentifyPotentialIssues(tree: seq<Node>) returns (issues: seq<Issue>)
      ensures issues == IssuesOf(analysisResult, tree)
    {
      issues := MissingFileIssues(analysisResult);
      var steps := WalkTop(tree, KeepAll);
      var hardcoded := HardcodedWalk(steps);
      issues := issues + hardcoded + MissingEnvIssues(analysisResult);
      var large := LargeFilesIn(steps);
      issues := issues + LargeIssue(large);
    }

    /** The hard-coded-settings walk of `_identify_potential_issues` */
    method HardcodedWalk(steps: seq<Step>) returns (issues: seq<Issue>)
      ensures issues == HardcodedSteps(steps)
    {
      issues := [];
      var i := 0;
      while i < |steps|
        invariant 0 <= i <= |steps|
        invariant issues == HardcodedSteps(steps[..i])
      {
        var found := HardcodedInDirectory(steps[i].path, steps[i].files);
        issues := issues + found;
        assert steps[..i + 1][..i] == steps[..i];
        i := i + 1;
      }
      assert steps[..i] == steps;
    }

    /** The hard-coded-settings issues of the files of one directory */
    method HardcodedInDirectory(path: seq<string>, files: seq<FileInfo>) returns (issues: seq<Issue>)
      ensures issues == HardcodedIn(path, files)
    {
      issues := [];
      var j := 0;
      while j < |files|
        invariant 0 <= j <= |files|
        invariant issues == HardcodedIn(path, files[..j])
      {
        var found := HardcodedIssue(path, files[j]);
        issues := issues + found;
        assert files[..j + 1][..j] == files[..j];
        j := j + 1;
      }
      assert files[..j] == files;
    }

    /** The hard-coded-settings check of one file; the pattern loop stops at the first match. */
    method HardcodedIssue(path: seq<string>, f: FileInfo) returns (r: seq<Issue>)
      ensures r == HardcodedIssueOf(path, f)
    {
      r := [];
      if HardcodedScanned(f.name) {
        var content := Lower(ReadText(f));
        var k := 0;
        while k < |HardcodedPatterns|
          invariant 0 <= k <= |HardcodedPatterns|
          invariant r == []
          invariant forall m :: 0 <= m < k ==> !Contains(content, HardcodedPatterns[m].0)
        {
          var (pattern, description) := HardcodedPatterns[k];
          if Contains(content, pattern) {
            FirstPatternAt(content, HardcodedPatterns, k);
            r := [Issue("hardcoded_config", "medium", description + " in " + RelPath(path, f.name))];
            break;
          }
          k := k + 1;
        }
      }
    }

    /** The large-files walk of `_identify_potential_issues` */
    method LargeFilesIn(steps: seq<Step>) returns (large: seq<string>)
      ensures large == ListSteps(steps, LargeFiles)
    {
      large := [];
      var i := 0;
      while i < |steps|
        invariant 0 <= i <= |steps|
        invariant large == ListSteps(steps[..i], LargeFiles)
      {
        var step := steps[i];
        var before := large;
        var j := 0;
        while j < |step.files|
          invariant 0 <= j <= |step.files|
          invariant large == before + ListIn(step.path, step.files[..j], LargeFiles)
        {
          var f := step.files[j];
          if f.size > 100 * 1024 * 1024 {
            large := large + [RelPath(step.path, f.name)];
          }
          assert step.files[..j + 1][..j] == step.files[..j];
          j := j + 1;
        }
        assert step.files[..j] == step.files;
        assert steps[..i + 1][..i] == steps[..i];
        i := i + 1;
      }
      assert steps[..i] == steps;
    }

    /** `_generate_recommendations`, which replaces the recommendations of the held analysis */
    method GenerateRecommendations()
      requires analysisResult.Some?
      modifies this
      ensures analysisResult == Some(old(analysisResult.value).(recommendations := RecommendationsOf(old(analysisResult.value))))
    {
      var a := analysisResult.value;
      var recommendations := AddIssueAdvice(TypeAdvice(a.projectType), a.potentialIssues);
      recommendations := recommendations + DatabaseAdvice(a.configuration) + PortAdvice(a.configuration) + GeneralAdvice;
      analysisResult := Some(a.(recommendations := recommendations));
    }

    /** The loop of `_generate_recommendations` over the issues: each adds the advice its kind calls for. */
    static method AddIssueAdvice(recommendations: seq<string>, issues: seq<Issue>) returns (r: seq<string>)
      ensures r == recommendations + IssueAdvice(issues)
    {
      r := recommendations;
      var i := 0;
      while i < |issues|
        invariant 0 <= i <= |issues|
        invariant r == recommendations + IssueAdvice(issues[..i])
      {
        var issue := issues[i];
        if issue.kind == "hardcoded_config" {
          r := r + [HardcodedAdvice];
        } else if issue.kind == "missing_env" {
          r := r + [EnvAdvice];
        }
        assert issues[..i + 1][..i] == issues[..i];
        i := i + 1;
      }
      assert issues[..i] == issues;
    }
  }
}
