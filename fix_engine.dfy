/**
 * `FixEngine`: rewrites a project so that it can be deployed, and keeps the list of the
 * fixes it applied.
 *
 * The project directory is a value: the text of each regular file by its path relative to
 * the project, the directories, the parse of `package.json`, and the paths that cannot be
 * opened for writing. The rewrites that need a regular-expression engine (the `.listen`
 * and `uvicorn.run` patterns and the host-binding pass) are inputs, given by what they do.
 */
module FixEngine {
  import opened Wrappers
  import opened PyText
  import opened OrderedDicts
  import ProjectAnalyzer

  // ---------------------------------------------------------------------------
  // The project directory
  // ---------------------------------------------------------------------------

  /** The parts of a parsed `package.json` the Node.js fix reads and writes */
  datatype Manifest = Manifest(scripts: Option<Dict<string, string>>, main: Option<string>)

  /**
   * The project: regular files and their text as Python reads it, directories, the parse
   * of `package.json` (None when it does not parse), and the paths a write fails on.
   */
  datatype Workspace = Workspace(
    texts: map<string, string>,
    dirs: set<string>,
    manifest: Option<Manifest>,
    unwritable: set<string>)

  /** `os.path.exists` of a path below the project */
  predicate Exists(ws: Workspace, path: string) {
    path in ws.texts || path in ws.dirs
  }

  /** `p.split('/')`: the parts of a path between its slashes */
  function PathParts(p: string): (r: seq<string>)
    ensures |r| >= 1 && |r[0]| <= |p|
    decreases |p|
  {
    match IndexOfChar(p, '/')
    case None => [p]
    case Some(i) => [p[..i]] + PathParts(p[i + 1..])
  }

  /** The directory reached so far, by its parts below the project (none: the project itself) */
  predicate IsDirAt(ws: Workspace, cur: seq<string>) {
    cur == [] || JoinWith(cur, "/") in ws.dirs
  }

  /**
   * The lookup `os.stat` makes of the remaining `parts` from the directory `cur`: every part
   * that something follows must name a directory, "" and "." stay where they are, ".." goes
   * up, and any other part must exist. None when ".." leaves the project.
   */
  function ResolveParts(ws: Workspace, cur: seq<string>, parts: seq<string>): Option<bool>
    decreases |parts|
  {
    if parts == [] then Some(true)
    else if !IsDirAt(ws, cur) then Some(false)
    else if parts[0] == "" || parts[0] == "." then ResolveParts(ws, cur, parts[1..])
    else if parts[0] == ".." then
      if cur == [] then None else ResolveParts(ws, cur[..|cur| - 1], parts[1..])
    else if Exists(ws, JoinWith(cur + [parts[0]], "/")) then ResolveParts(ws, cur + [parts[0]], parts[1..])
    else Some(false)
  }

  /**
   * `os.path.exists(os.path.join(project_dir, p))` for a path `p` as `package.json`
   * declares it: "" is the project directory itself; an absolute path, or one whose ".."
   * leaves the project, is outside the project and taken not to exist.
   */
  predicate PathExists(ws: Workspace, p: string) {
    (p == [] || p[0] != '/') && ResolveParts(ws, [], PathParts(p)) == Some(true)
  }

  /** A plain name not "", "." or ".." */
  predicate PlainName(name: string) {
    name != "" && name != "." && name != ".." && '/' !in name
  }

  /** A plain name has itself as its only part. */
  lemma PlainNameParts(name: string)
    requires '/' !in name
    ensures PathParts(name) == [name]
  {
  }

  /** Looking up a plain name from the project directory is looking it up in the workspace. */
  lemma ResolvePlainFromRoot(ws: Workspace, name: string, rest: seq<string>)
    requires PlainName(name)
    ensures ResolveParts(ws, [], [name] + rest)
         == if Exists(ws, name) then ResolveParts(ws, [name], rest) else Some(false)
  {
    var parts := [name] + rest;
    assert parts[0] == name && parts[1..] == rest;
    var root: seq<string> := [];
    assert root + [name] == [name];
    assert JoinWith([name], "/") == name;
  }

  /** A plain name exists below the project exactly when it is in the workspace. */
  lemma PlainPathExists(ws: Workspace, name: string)
    requires PlainName(name)
    ensures PathExists(ws, name) <==> Exists(ws, name)
  {
    PlainNameParts(name);
    assert [name] + [] == [name];
    ResolvePlainFromRoot(ws, name, []);
  }

  /** A leading "./" changes nothing: `./index.js` exists exactly when `index.js` does. */
  lemma DotSlashPathExists(ws: Workspace, name: string)
    requires PlainName(name)
    ensures PathExists(ws, "./" + name) <==> Exists(ws, name)
  {
    var p := "./" + name;
    assert IndexOfChar(p, '/') == Some(1);
    assert p[..1] == "." && p[2..] == name;
    PlainNameParts(name);
    var parts := ["."] + [name];
    assert PathParts(p) == parts;
    assert parts[0] == "." && parts[1..] == [name] + [];
    ResolvePlainFromRoot(ws, name, []);
  }

  /** The first "/" of a path, found by its position */
  lemma FirstSlashAt(p: string, i: nat)
    requires i < |p| && p[i] == '/' && forall j :: 0 <= j < i ==> p[j] != '/'
    ensures IndexOfChar(p, '/') == Some(i)
  {
  }

  /** `d/../name` below the project, for a directory `d`, is `name`. */
  lemma UpAndBackPathExists(ws: Workspace, d: string, name: string)
    requires PlainName(d) && PlainName(name) && d in ws.dirs
    ensures PathExists(ws, d + "/../" + name) <==> Exists(ws, name)
  {
    var p := d + "/../" + name;
    var q := "../" + name;
    assert p == d + "/" + q;
    assert PathParts(q) == [".."] + [name] by {
      assert q[0] == '.' && q[1] == '.' && q[2] == '/';
      FirstSlashAt(q, 2);
      assert q[..2] == ".." && q[3..] == name;
      PlainNameParts(name);
    }
    assert PathParts(p) == [d] + ([".."] + [name]) by {
      assert p[|d|] == '/';
      forall j | 0 <= j < |d| ensures p[j] != '/' { assert p[j] == d[j]; }
      FirstSlashAt(p, |d|);
      assert p[..|d|] == d && p[|d| + 1..] == q;
    }
    ResolvePlainFromRoot(ws, d, [".."] + [name]);
    assert JoinWith([d], "/") == d;
    var up := [".."] + [name];
    assert up[0] == ".." && up[1..] == [name] + [];
    assert [d][..0] == [];
    ResolvePlainFromRoot(ws, name, []);
  }

  /** A ".." at the start leaves the project, so the path is taken not to exist. */
  lemma ParentPathOutside(ws: Workspace, rest: string)
    ensures !PathExists(ws, "../" + rest)
  {
    var p := "../" + rest;
    assert p[0] == '.' && p[1] == '.' && p[2] == '/';
    FirstSlashAt(p, 2);
    assert p[..2] == "..";
    assert PathParts(p)[0] == "..";
  }

  /** The empty path names the project directory, which exists. */
  lemma EmptyPathExists(ws: Workspace)
    ensures PathExists(ws, "")
  {
    assert PathParts("") == [""];
    assert ResolveParts(ws, [], [""]) == ResolveParts(ws, [], []);
  }

  /** A file followed by "/" does not exist: only a directory may have parts after it. */
  lemma TrailingSlashNeedsDirectory(ws: Workspace, name: string)
    requires PlainName(name) && name !in ws.dirs
    ensures !PathExists(ws, name + "/")
  {
    var p := name + "/";
    assert IndexOfChar(p, '/') == Some(|name|) by {
      assert p[|name|] == '/';
      forall j | 0 <= j < |name| ensures p[j] != '/' { assert p[j] == name[j]; }
    }
    assert p[..|name|] == name && p[|name| + 1..] == "";
    assert PathParts(p) == [name] + [""];
    ResolvePlainFromRoot(ws, name, [""]);
    assert JoinWith([name], "/") == name;
    assert !IsDirAt(ws, [name]);
  }


  /** `open(path, 'w')` and a write: it raises on a directory or a path that cannot be written. */
  function Write(ws: Workspace, path: string, text: string): (r: Option<Workspace>)
    ensures r.Some? <==> path !in ws.unwritable && path !in ws.dirs
    ensures r.Some? ==> r.value.texts == ws.texts[path := text]
    ensures r.Some? ==> r.value.dirs == ws.dirs && r.value.unwritable == ws.unwritable && r.value.manifest == ws.manifest
  {
    if path in ws.unwritable || path in ws.dirs then None else Some(ws.(texts := ws.texts[path := text]))
  }

  /** `json.dump` of the updated `package.json` */
  function WriteManifest(ws: Workspace, m: Manifest): Option<Workspace> {
    if "package.json" in ws.unwritable then None else Some(ws.(manifest := Some(m)))
  }

  /** What the regular-expression rewrites do, which this model takes as given */
  datatype Rewrites = Rewrites(
    /** the first `.listen(...)` pattern that matches, substituted; None when neither matches */
    listen: string -> Option<string>,
    /** the `uvicorn.run(...)` substitution; None when the pattern does not match */
    uvicorn: string -> Option<string>,
    /**
     * the host-binding pass: each file below the project, in walk order, whose text the
     * host, bind and listen patterns change, with its rewritten text. The texts are the
     * patterns' result on the workspace the pass reads, the one the type-specific fixes
     * leave behind; the list is given, not computed from that workspace.
     */
    hostBindings: seq<(string, string)>)

  /**
   * The workspace after a fix, the entries it logged, and whether an exception escaped it
   * (which ends `apply_fixes`).
   */
  datatype Effect = Effect(ws: Workspace, log: seq<string>, escaped: bool)

  /** `next`, run on the workspace `first` left, after `first` */
  function Chain(first: Effect, next: Effect): Effect {
    Effect(next.ws, first.log + next.log, next.escaped)
  }

  /** A fix that leaves the workspace as it is and logs nothing */
  function Nothing(ws: Workspace): Effect {
    Effect(ws, [], false)
  }

  /** The workspace changes only in its files' texts and in `package.json`'s parse. */
  predicate Keeps(ws: Workspace, ws': Workspace) {
    ws'.dirs == ws.dirs && ws'.unwritable == ws.unwritable
  }

  /** The index of the first of `names` that exists */
  function FirstExisting(ws: Workspace, names: seq<string>): (r: Option<nat>)
    ensures r.Some? ==> r.value < |names| && Exists(ws, names[r.value])
    ensures r.Some? ==> forall j :: 0 <= j < r.value ==> !Exists(ws, names[j])
    ensures r.None? <==> forall j :: 0 <= j < |names| ==> !Exists(ws, names[j])
    decreases |names|
  {
    if names == [] then None
    else if Exists(ws, names[0]) then Some(0)
    else
      match FirstExisting(ws, names[1..])
      case None => None
      case Some(k) => Some(k + 1)
  }

  /** A name that exists, with none before it existing, is the first that exists. */
  lemma FirstExistingAt(ws: Workspace, names: seq<string>, k: nat)
    requires k < |names| && Exists(ws, names[k])
    requires forall j :: 0 <= j < k ==> !Exists(ws, names[j])
    ensures FirstExisting(ws, names) == Some(k)
  {
  }

  // ---------------------------------------------------------------------------
  // Log entries and written texts
  // ---------------------------------------------------------------------------

  const StartScriptAdded: string := "Added start script to package.json"
  const NodePortAdded: string := "Added proper port binding to Node.js app"
  const NodePortFixedPrefix: string := "Fixed port binding in "
  const FlaskFixed: string := "Fixed Flask app.run() for deployment"
  const OsImportAdded: string := "Added os import for PORT environment variable"
  const UvicornFixed: string := "Fixed FastAPI uvicorn configuration"
  const ServerAdded: string := "Added basic server startup code"
  const HostsFixed: string := "Fixed Django ALLOWED_HOSTS setting"
  const DebugFixed: string := "Fixed Django DEBUG setting for production"
  const HtaccessCreated: string := "Created .htaccess file for PHP application"
  const EnvCreated: string := "Created .env file with deployment configuration"
  const GuideCreated: string := "Created deployment configuration guide"
  const NodeStartupCreated: string := "Created Node.js startup script"
  const PythonStartupCreated: string := "Created Python startup script"
  const RunScriptCreated: string := "Created Python run script"

  const NodePortSnippet: string :=
    "\n\n// Added by deployment fix\n"
    + "const PORT = process.env.PORT || 3000;\n"
    + "app.listen(PORT, \"0.0.0.0\", () => {\n"
    + "  console.log(`Server running on port ${PORT}`);\n"
    + "});\n"

  const ServerSnippet: string :=
    "\n\n# Added by deployment fix\n"
    + "if __name__ == \"__main__\":\n"
    + "    import os\n"
    + "    port = int(os.environ.get(\"PORT\", 8000))\n"
    + "    print(f\"Starting server on port {port}\")\n"

  const HtaccessText: string :=
    "# Added by deployment fix\n"
    + "RewriteEngine On\n"
    + "RewriteCond %{REQUEST_FILENAME} !-d\n"
    + "RewriteCond %{REQUEST_FILENAME} !-f\n"
    + "RewriteRule ^(.+)$ index.php [QSA,L]\n"

  const EnvText: string :=
    "# Environment Configuration - Added by deployment fix\n"
    + "NODE_ENV=production\n"
    + "DEBUG=false\n"
    + "PORT=8000\n"
    + "HOST=0.0.0.0\n"

  const GuideHeader: string :=
    "# Deployment Configuration Notes\n\n"
    + "## Hardcoded Values Detected\n"
    + "The following files contain hardcoded values that should be moved to environment variables:\n\n"

  const GuideFooter: string :=
    "\n## Recommended Actions\n"
    + "1. Move hardcoded values to environment variables\n"
    + "2. Use process.env.VARIABLE_NAME (Node.js) or os.environ.get('VARIABLE_NAME') (Python)\n"
    + "3. Update configuration files to use environment variables\n\n"
    + "## Environment Variables to Set\n"
    + "- DATABASE_URL\n"
    + "- SECRET_KEY\n"
    + "- API_KEYS\n"
    + "- PORT\n"
    + "- HOST\n"

  const NodeStartScript: string :=
    "#!/bin/bash\n"
    + "# Node.js Application Startup Script - Added by deployment fix\n\n"
    + "echo \"Starting Node.js application...\"\n\n"
    + "# Install dependencies if node_modules doesn't exist\n"
    + "if [ ! -d \"node_modules\" ]; then\n"
    + "    echo \"Installing dependencies...\"\n"
    + "    npm install\n"
    + "fi\n\n"
    + "# Start the application\n"
    + "echo \"Starting server...\"\n"
    + "npm start\n"

  const PipInstall: string :=
    "# Install dependencies\n"
    + "if [ -f \"requirements.txt\" ]; then\n"
    + "    echo \"Installing dependencies...\"\n"
    + "    pip install -r requirements.txt\n"
    + "fi\n\n"

  const DjangoStartScript: string :=
    "#!/bin/bash\n"
    + "# Django Application Startup Script - Added by deployment fix\n\n"
    + "echo \"Starting Django application...\"\n\n"
    + PipInstall
    + "# Run migrations\n"
    + "echo \"Running migrations...\"\n"
    + "python manage.py migrate --noinput\n\n"
    + "# Collect static files\n"
    + "echo \"Collecting static files...\"\n"
    + "python manage.py collectstatic --noinput\n\n"
    + "# Start the server\n"
    + "echo \"Starting server...\"\n"
    + "python manage.py runserver 0.0.0.0:8000\n"

  const FlaskStartScript: string :=
    "#!/bin/bash\n"
    + "# Flask Application Startup Script - Added by deployment fix\n\n"
    + "echo \"Starting Flask application...\"\n\n"
    + PipInstall
    + "# Start the application\n"
    + "echo \"Starting server...\"\n"
    + "python app.py\n"

  const PythonStartScript: string :=
    "#!/bin/bash\n"
    + "# Python Application Startup Script - Added by deployment fix\n\n"
    + "echo \"Starting Python application...\"\n\n"
    + PipInstall
    + "# Find and start main application\n"
    + "if [ -f \"main.py\" ]; then\n"
    + "    python main.py\n"
    + "elif [ -f \"app.py\" ]; then\n"
    + "    python app.py\n"
    + "elif [ -f \"server.py\" ]; then\n"
    + "    python server.py\n"
    + "else\n"
    + "    echo \"No main application file found\"\n"
    + "    exit 1\n"
    + "fi\n"

  const RunScript: string :=
    "#!/usr/bin/env python3\n"
    + "# Basic run script - Added by deployment fix\n\n"
    + "import os\n"
    + "import sys\n"
    + "from pathlib import Path\n\n"
    + "def find_main_module():\n"
    + "    \"\"\"Find the main application module\"\"\"\n"
    + "    candidates = ['app.py', 'main.py', 'server.py', 'wsgi.py']\n"
    + "    \n"
    + "    for candidate in candidates:\n"
    + "        if Path(candidate).exists():\n"
    + "            return candidate.replace('.py', '')\n"
    + "    \n"
    + "    return None\n\n"
    + "def main():\n"
    + "    \"\"\"Main entry point\"\"\"\n"
    + "    print(\"Starting application...\")\n"
    + "    \n"
    + "    # Set environment variables\n"
    + "    os.environ.setdefault('HOST', '0.0.0.0')\n"
    + "    os.environ.setdefault('PORT', '8000')\n"
    + "    \n"
    + "    # Try to find and import main module\n"
    + "    main_module = find_main_module()\n"
    + "    if main_module:\n"
    + "        try:\n"
    + "            __import__(main_module)\n"
    + "            print(f\"Started {main_module}\")\n"
    + "        except Exception as e:\n"
    + "            print(f\"Failed to start {main_module}: {e}\")\n"
    + "            sys.exit(1)\n"
    + "    else:\n"
    + "        print(\"No main application module found\")\n"
    + "        sys.exit(1)\n\n"
    + "if __name__ == \"__main__\":\n"
    + "    main()\n"

  /** The texts the fixes add or write, as the fix engine holds them */
  datatype Templates = Templates(
    nodePort: string, server: string, htaccess: string, env: string,
    guideHeader: string, guideFooter: string,
    nodeStart: string, djangoStart: string, flaskStart: string, pythonStart: string,
    runScript: string)

  /** The texts of `fix_engine.py` */
  const Standard: Templates := Templates(
    NodePortSnippet, ServerSnippet, HtaccessText, EnvText, GuideHeader, GuideFooter,
    NodeStartScript, DjangoStartScript, FlaskStartScript, PythonStartScript, RunScript)

  // ---------------------------------------------------------------------------
  // Node.js (fix_engine.py lines 48-123)
  // ---------------------------------------------------------------------------

  /** The entry points tried for the start script when the declared main file is missing */
  const StartCandidates: seq<string> := ["app.js", "server.js", "main.js", "index.js"]

  /** The main files tried, in this order, for the port-binding fix */
  const NodeMainFiles: seq<string> := ["app.js", "server.js", "index.js", "main.js"]

  /**
   * The file the start script runs: the declared `main` (default `index.js`) when it
   * exists below the project, otherwise the first existing entry point, otherwise the
   * declared one all the same.
   */
  function StartMain(ws: Workspace, m: Manifest): (r: string)
    ensures var declared := m.main.GetOr("index.js");
      && (PathExists(ws, declared) ==> r == declared)
      && (!PathExists(ws, declared) && FirstExisting(ws, StartCandidates).None? ==> r == declared)
      && (!PathExists(ws, declared) && FirstExisting(ws, StartCandidates).Some? ==>
            exists k :: (0 <= k < |StartCandidates| && r == StartCandidates[k] && Exists(ws, r)
              && forall j :: 0 <= j < k ==> !Exists(ws, StartCandidates[j])))
  {
    var declared := m.main.GetOr("index.js");
    if PathExists(ws, declared) then declared
    else
      match FirstExisting(ws, StartCandidates)
      case None => declared
      case Some(k) => StartCandidates[k]
  }

  /** A declared `./name` that exists is run as written, whatever entry points exist. */
  lemma DotSlashMainKept(ws: Workspace, m: Manifest, name: string)
    requires PlainName(name) && Exists(ws, name) && m.main == Some("./" + name)
    ensures StartMain(ws, m) == "./" + name
  {
    DotSlashPathExists(ws, name);
  }

  /** A declared empty `main` names the project directory, which exists: `node ` is run. */
  lemma EmptyMainKept(ws: Workspace, m: Manifest)
    requires m.main == Some("")
    ensures StartMain(ws, m) == ""
  {
    EmptyPathExists(ws);
  }

  /** The scripts after the fix: a `start` entry is added only where there is none. */
  function ScriptsFixed(ws: Workspace, m: Manifest): Dict<string, string> {
    var scripts := m.scripts.GetOr([]);
    if HasKey(scripts, "start") then scripts else Put(scripts, "start", "node " + StartMain(ws, m))
  }

  /** The `package.json` part of `_fix_nodejs_issues`; every failure in it is caught. */
  function PackageFix(ws: Workspace): (e: Effect)
    ensures Keeps(ws, e.ws) && !e.escaped && e.ws.texts == ws.texts
  {
    if !Exists(ws, "package.json") || "package.json" !in ws.texts || ws.manifest.None? then Nothing(ws)
    else
      var m := ws.manifest.value;
      var log := if HasKey(m.scripts.GetOr([]), "start") then [] else [StartScriptAdded];
      match WriteManifest(ws, m.(scripts := Some(ScriptsFixed(ws, m))))
      case None => Effect(ws, log, false)
      case Some(ws') => Effect(ws', log, false)
  }

  /** The parts of `_fix_nodejs_main_file` that do not rewrite by pattern */
  function NodeMainFix(ws: Workspace, path: string, listen: string -> Option<string>, t: Templates): (e: Effect)
    ensures Keeps(ws, e.ws) && !e.escaped
    ensures e.ws.manifest == ws.manifest && (e.ws.texts == ws.texts || (path in ws.texts && path in e.ws.texts && e.ws.texts == ws.texts[path := e.ws.texts[path]]))
  {
    if path !in ws.texts then Nothing(ws)
    else
      var original := ws.texts[path];
      var c1 := listen(original).GetOr(original);
      var added := !Contains(c1, ".listen(") && Contains(c1, "createServer");
      var content := if added then c1 + t.nodePort else c1;
      var log := if added then [NodePortAdded] else [];
      if content == original then Effect(ws, log, false)
      else
        match Write(ws, path, content)
        case None => Effect(ws, log, false)
        case Some(ws') => Effect(ws', log + [NodePortFixedPrefix + Basename(path)], false)
  }

  /** `_fix_nodejs_issues`: the start script, then the first main file that exists */
  function NodeFix(ws: Workspace, listen: string -> Option<string>, t: Templates): (e: Effect)
    ensures Keeps(ws, e.ws) && !e.escaped
  {
    var p := PackageFix(ws);
    match FirstExisting(p.ws, NodeMainFiles)
    case None => p
    case Some(k) => Chain(p, NodeMainFix(p.ws, NodeMainFiles[k], listen, t))
  }

  /** A `start` script that is there is kept, and nothing is logged for it. */
  lemma StartScriptKept(ws: Workspace)
    requires ws.manifest.Some? && ws.manifest.value.scripts.Some?
    requires HasKey(ws.manifest.value.scripts.value, "start")
    ensures PackageFix(ws).log == []
    ensures PackageFix(ws).ws.manifest.Some? && PackageFix(ws).ws.manifest.value.scripts == ws.manifest.value.scripts
  {
  }

  /**
   * Where there is no `start` script and `package.json` can be rewritten, it gains one that
   * runs the main file chosen by `StartMain`, and the fix is logged.
   */
  lemma StartScriptAddedWhenMissing(ws: Workspace)
    requires "package.json" in ws.texts && ws.manifest.Some? && "package.json" !in ws.unwritable
    requires !HasKey(ws.manifest.value.scripts.GetOr([]), "start")
    ensures PackageFix(ws).log == [StartScriptAdded]
    ensures var m := PackageFix(ws).ws.manifest;
      && m.Some? && m.value.scripts.Some?
      && Get(m.value.scripts.value, "start") == Some("node " + StartMain(ws, ws.manifest.value))
  {
    var m := ws.manifest.value;
    PutGet(m.scripts.GetOr([]), "start", "node " + StartMain(ws, m), "start");
  }

  /**
   * Only the first existing one of `app.js`, `server.js`, `index.js` and `main.js` can be
   * rewritten; no other text changes.
   */
  lemma NodeMainFileOnlyFirst(ws: Workspace, listen: string -> Option<string>, t: Templates)
    ensures var e := NodeFix(ws, listen, t);
      || e.ws.texts == ws.texts
      || exists k :: (k < |NodeMainFiles| && FirstExisting(ws, NodeMainFiles) == Some(k)
           && NodeMainFiles[k] in ws.texts
           && e.ws.texts == ws.texts[NodeMainFiles[k] := e.ws.texts[NodeMainFiles[k]]])
  {
    var p := PackageFix(ws);
    assert forall q :: Exists(p.ws, q) <==> Exists(ws, q);
    assert FirstExisting(p.ws, NodeMainFiles) == FirstExisting(ws, NodeMainFiles) by {
      FirstExistingSame(ws, p.ws, NodeMainFiles);
    }
  }

  /** Two workspaces with the same entries agree on which name exists first. */
  lemma {:induction false} FirstExistingSame(ws: Workspace, ws': Workspace, names: seq<string>)
    requires forall q :: Exists(ws', q) <==> Exists(ws, q)
    ensures FirstExisting(ws', names) == FirstExisting(ws, names)
    decreases |names|
  {
    if names != [] {
      FirstExistingSame(ws, ws', names[1..]);
    }
  }

  // ---------------------------------------------------------------------------
  // Django settings (fix_engine.py lines 208-242)
  // ---------------------------------------------------------------------------

  const HostsOld: string := "ALLOWED_HOSTS = []"
  // (long texts are split where the proofs need to see their characters)
  const HostsNew: string := "ALLOWED_HOSTS = [\"*\"]  " + "# Fixed for deployment"
  const DebugOld: string := "DEBUG = True"
  const DebugNew: string := "DEBUG = os.environ.get(" + "\"DEBUG\", \"False\")" + ".lower() == \"true\""
  const OsImport: string := "import os\n"

  /** The settings text after the ALLOWED_HOSTS replacement */
  function HostsStep(content: string): string {
    if Contains(content, HostsOld) then ReplaceAll(content, HostsOld, HostsNew) else content
  }

  /** The DEBUG replacement, with `import os` put first only when it was made and is needed */
  function DebugStep(content: string): string {
    if !Contains(content, DebugOld) then content
    else
      var c := ReplaceAll(content, DebugOld, DebugNew);
      if Contains(c, "import os") then c else OsImport + c
  }

  /** The Django settings text after `_fix_django_settings` */
  function DjangoText(content: string): string {
    DebugStep(HostsStep(content))
  }

  /** The entries `_fix_django_settings` logs for a settings text */
  function DjangoLog(content: string): seq<string> {
    (if Contains(content, HostsOld) then [HostsFixed] else [])
      + (if Contains(HostsStep(content), DebugOld) then [DebugFixed] else [])
  }

  /** `_fix_django_settings`: failures are caught, and the text is written only if it changed. */
  function DjangoFix(ws: Workspace, path: string): (e: Effect)
    ensures Keeps(ws, e.ws) && !e.escaped && e.ws.manifest == ws.manifest
    ensures e.ws.texts.Keys == ws.texts.Keys
  {
    if path !in ws.texts then Nothing(ws)
    else
      var original := ws.texts[path];
      var content := DjangoText(original);
      if content == original then Effect(ws, DjangoLog(original), false)
      else
        match Write(ws, path, content)
        case None => Effect(ws, DjangoLog(original), false)
        case Some(ws') => Effect(ws', DjangoLog(original), false)
  }

  lemma HostsNoOverlap()
    ensures NoOverlap(HostsOld, HostsNew)
  {
    assert forall o :: 0 < o < |HostsNew| ==> HostsNew[o] != 'A';
    assert forall m :: 0 < m < |HostsOld| ==> HostsOld[m] != 'A';
    assert HostsOld[17] == ']' && HostsNew[17] == '"';
    forall m | 0 <= m < |HostsOld| ensures !Compatible(HostsOld[m..], HostsNew) {
      if m == 0 { DifferAt(HostsOld, HostsNew, 17); } else { DifferAt(HostsOld[m..], HostsNew, 0); }
    }
    forall o | 0 < o < |HostsNew| ensures !Compatible(HostsNew[o..], HostsOld) {
      DifferAt(HostsNew[o..], HostsOld, 0);
    }
  }

  lemma DebugNoOverlap()
    ensures NoOverlap(DebugOld, DebugNew)
  {
    assert |DebugNew| == 58;
    assert forall o :: 0 < o < |DebugNew| && o != 24 ==> DebugNew[o] != 'D';
    assert DebugNew[29] == '"' && DebugOld[5] == ' ';
    assert forall m :: 0 < m < |DebugOld| ==> DebugOld[m] != 'D';
    assert DebugOld[8] == 'T' && DebugNew[8] == 'o';
    forall m | 0 <= m < |DebugOld| ensures !Compatible(DebugOld[m..], DebugNew) {
      if m == 0 { DifferAt(DebugOld, DebugNew, 8); } else { DifferAt(DebugOld[m..], DebugNew, 0); }
    }
    forall o | 0 < o < |DebugNew| ensures !Compatible(DebugNew[o..], DebugOld) {
      if o == 24 { DifferAt(DebugNew[o..], DebugOld, 5); } else { DifferAt(DebugNew[o..], DebugOld, 0); }
    }
  }

  /** The DEBUG replacement text cannot complete an ALLOWED_HOSTS pattern. */
  lemma HostsDebugNoOverlap()
    ensures NoOverlap(HostsOld, DebugNew)
  {
    assert forall o :: 0 <= o < |DebugNew| ==> DebugNew[o] != 'A';
    assert forall m :: 0 < m < |HostsOld| && m != 6 ==> HostsOld[m] != 'D';
    assert HostsOld[7] == '_' && DebugNew[1] == 'E';
    forall m | 0 <= m < |HostsOld| ensures !Compatible(HostsOld[m..], DebugNew) {
      if m == 6 { DifferAt(HostsOld[m..], DebugNew, 1); } else { DifferAt(HostsOld[m..], DebugNew, 0); }
    }
    forall o | 0 < o < |DebugNew| ensures !Compatible(DebugNew[o..], HostsOld) {
      DifferAt(DebugNew[o..], HostsOld, 0);
    }
  }

  /** After the fix neither pattern occurs in the settings. */
  lemma DjangoTextClean(content: string)
    ensures !Contains(DjangoText(content), HostsOld) && !Contains(DjangoText(content), DebugOld)
  {
    HostsNoOverlap();
    DebugNoOverlap();
    HostsDebugNoOverlap();
    var c1 := HostsStep(content);
    if Contains(content, HostsOld) {
      ReplaceAllLeavesNoOccurrence(content, HostsOld, HostsNew, HostsOld);
    }
    if Contains(c1, DebugOld) {
      var c2 := ReplaceAll(c1, DebugOld, DebugNew);
      ReplaceAllLeavesNoOccurrence(c1, DebugOld, DebugNew, DebugOld);
      ReplaceAllLeavesNoOccurrence(c1, DebugOld, DebugNew, HostsOld);
      if !Contains(c2, "import os") {
        assert forall k :: 0 <= k < |OsImport| ==> OsImport[k] != 'A' && OsImport[k] != 'D';
        PrependLeavesNoOccurrence(OsImport, c2, HostsOld);
        PrependLeavesNoOccurrence(OsImport, c2, DebugOld);
      }
    }
  }

  /** The Django fix is idempotent: a second run changes nothing and logs nothing. */
  lemma DjangoIdempotent(content: string)
    ensures DjangoText(DjangoText(content)) == DjangoText(content)
    ensures DjangoLog(DjangoText(content)) == []
  {
    DjangoTextClean(content);
  }

  /**
   * `import os` is added only together with the DEBUG fix: without `DEBUG = True` the text
   * is just the ALLOWED_HOSTS replacement; with it, the result imports os.
   */
  lemma DjangoImportOnlyWithDebug(content: string)
    ensures !Contains(HostsStep(content), DebugOld) ==> DjangoText(content) == HostsStep(content)
    ensures Contains(HostsStep(content), DebugOld) ==> Contains(DjangoText(content), "import os")
  {
    var c1 := HostsStep(content);
    if Contains(c1, DebugOld) {
      var c2 := ReplaceAll(c1, DebugOld, DebugNew);
      if !Contains(c2, "import os") {
        assert OccursAt(OsImport + c2, "import os", 0);
      }
    }
  }

  /** Applied a second time to a writable settings file, the Django fix changes nothing. */
  lemma DjangoFixTwice(ws: Workspace, path: string)
    requires path in ws.texts && path !in ws.unwritable && path !in ws.dirs
    ensures DjangoFix(DjangoFix(ws, path).ws, path) == Nothing(DjangoFix(ws, path).ws)
  {
    DjangoIdempotent(ws.texts[path]);
  }

  // ---------------------------------------------------------------------------
  // Python (fix_engine.py lines 125-206)
  // ---------------------------------------------------------------------------

  /** The main files tried, in this order */
  const PythonMainFiles: seq<string> := ["app.py", "main.py", "server.py", "run.py"]

  const FlaskRun: string := "app.run(host=\"0.0.0.0\", port=int(os.environ.get(\"PORT\", 5000)))"
  const FlaskRunNoDebug: string := "app.run(host=\"0.0.0.0\", port=int(os.environ.get(\"PORT\", 5000)), debug=False)"
  const PortLookup: string := "os.environ.get(\"PORT\""
  const MainGuard: string := "__name__ == \"__main__\""

  /**
   * The three `app.run` patterns, each as the literal texts it matches, and its replacement.
   * The third pattern's quote classes match four texts of the same length, which start with
   * `app.run(` and cannot overlap each other or the replacement, so replacing each text in
   * turn gives what the substitution gives.
   */
  const FlaskPatterns: seq<(seq<string>, string)> := [
    (["app.run()"], FlaskRun),
    (["app.run(debug=True)"], FlaskRunNoDebug),
    (["app.run(host='localhost')", "app.run(host=\"localhost\")",
      "app.run(host='localhost\")", "app.run(host=\"localhost')"], FlaskRun)]

  /** `re.search` of a pattern given by the texts it matches */
  predicate Matches(content: string, alternatives: seq<string>) {
    exists i :: 0 <= i < |alternatives| && Contains(content, alternatives[i])
  }

  /** `re.sub` of a pattern given by the texts it matches: each text replaced in turn */
  function SubAll(content: string, alternatives: seq<string>, replacement: string): string
    requires forall i :: 0 <= i < |alternatives| ==> alternatives[i] != []
    decreases |alternatives|
  {
    if alternatives == [] then content
    else SubAll(ReplaceAll(content, alternatives[0], replacement), alternatives[1..], replacement)
  }

  /** The first of the Flask patterns that matches */
  function FirstFlaskPattern(content: string): (r: Option<nat>)
    ensures r.Some? ==> r.value < |FlaskPatterns| && Matches(content, FlaskPatterns[r.value].0)
    ensures r.Some? ==> forall j :: 0 <= j < r.value ==> !Matches(content, FlaskPatterns[j].0)
    ensures r.None? <==> forall j :: 0 <= j < |FlaskPatterns| ==> !Matches(content, FlaskPatterns[j].0)
  {
    if Matches(content, FlaskPatterns[0].0) then Some(0)
    else if Matches(content, FlaskPatterns[1].0) then Some(1)
    else if Matches(content, FlaskPatterns[2].0) then Some(2)
    else None
  }

  /** The text after the `app.run` rewrite: only the first matching pattern is substituted. */
  function FlaskRewrite(content: string): string {
    match FirstFlaskPattern(content)
    case None => content
    case Some(k) => SubAll(content, FlaskPatterns[k].0, FlaskPatterns[k].1)
  }

  /** Whether the text uses `os.environ.get("PORT"` without importing os */
  predicate NeedsOsImport(content: string) {
    Contains(content, PortLookup) && !Contains(content, "import os")
  }

  /** A text and the entries logged while rewriting it */
  datatype Revision = Revision(content: string, log: seq<string>)

  /** The Flask branch: the `app.run` rewrite, then the os import where it is needed */
  function FlaskStep(content: string): Revision {
    var c := FlaskRewrite(content);
    var log := if FirstFlaskPattern(content).Some? then [FlaskFixed] else [];
    if NeedsOsImport(c) then Revision(OsImport + c, log + [OsImportAdded]) else Revision(c, log)
  }

  /** The FastAPI branch: the `uvicorn.run` rewrite, then the os import (not logged) */
  function FastApiStep(content: string, uvicorn: string -> Option<string>): Revision {
    var found := if Contains(content, "uvicorn.run(") then uvicorn(content) else None;
    var c := found.GetOr(content);
    Revision(if NeedsOsImport(c) then OsImport + c else c, if found.Some? then [UvicornFixed] else [])
  }

  /** A main file's text, with the workspace and log, as the fixes go along */
  datatype Edit = Edit(ws: Workspace, content: string, log: seq<string>)

  /** The framework part of `_fix_python_main_file`: Flask, else Django, else FastAPI */
  function FrameworkStep(ws: Workspace, content: string, frameworks: seq<string>, uvicorn: string -> Option<string>): (e: Edit)
    ensures Keeps(ws, e.ws) && e.ws.manifest == ws.manifest
    ensures e.ws.texts.Keys == ws.texts.Keys
  {
    if "flask" in frameworks then
      var r := FlaskStep(content);
      Edit(ws, r.content, r.log)
    else if "django" in frameworks then
      if Exists(ws, "settings.py") then
        var d := DjangoFix(ws, "settings.py");
        Edit(d.ws, content, d.log)
      else Edit(ws, content, [])
    else if "fastapi" in frameworks then
      var r := FastApiStep(content, uvicorn);
      Edit(ws, r.content, r.log)
    else Edit(ws, content, [])
  }

  /** Whether a script with a main guard but no server start gets the startup code */
  predicate NeedsServer(content: string) {
    Contains(content, MainGuard) && !Contains(content, "app.run(")
      && !Contains(content, "uvicorn.run(") && !Contains(content, ".serve_forever()")
  }

  /** The generic part: startup code for a script with a main guard and no server start */
  function ServerStep(content: string, t: Templates): Revision {
    if NeedsServer(content) then Revision(content + t.server, [ServerAdded]) else Revision(content, [])
  }

  /** `_fix_python_main_file`; failures are caught, and the file is written only if it changed */
  function PythonMainFix(ws: Workspace, path: string, frameworks: seq<string>, uvicorn: string -> Option<string>, t: Templates): (e: Effect)
    ensures Keeps(ws, e.ws) && !e.escaped && e.ws.manifest == ws.manifest
    ensures e.ws.texts.Keys == ws.texts.Keys
  {
    if path !in ws.texts then Nothing(ws)
    else
      var original := ws.texts[path];
      var f := FrameworkStep(ws, original, frameworks, uvicorn);
      var s := ServerStep(f.content, t);
      if s.content == original then Effect(f.ws, f.log + s.log, false)
      else
        match Write(f.ws, path, s.content)
        case None => Effect(f.ws, f.log + s.log, false)
        case Some(ws') => Effect(ws', f.log + s.log, false)
  }

  /** The main-file fixes for the existing ones of `names`, in order */
  function PythonMainFixes(ws: Workspace, names: seq<string>, frameworks: seq<string>, uvicorn: string -> Option<string>, t: Templates): (e: Effect)
    ensures Keeps(ws, e.ws) && !e.escaped && e.ws.manifest == ws.manifest
    ensures e.ws.texts.Keys == ws.texts.Keys
    decreases |names|
  {
    if names == [] then Nothing(ws)
    else
      var before := PythonMainFixes(ws, names[..|names| - 1], frameworks, uvicorn, t);
      var name := names[|names| - 1];
      if Exists(before.ws, name) then Chain(before, PythonMainFix(before.ws, name, frameworks, uvicorn, t)) else before
  }

  /** One more name, fixed if it exists */
  lemma PythonMainFixesSnoc(ws: Workspace, names: seq<string>, i: nat, frameworks: seq<string>, uvicorn: string -> Option<string>, t: Templates)
    requires i < |names|
    ensures var before := PythonMainFixes(ws, names[..i], frameworks, uvicorn, t);
      PythonMainFixes(ws, names[..i + 1], frameworks, uvicorn, t)
        == if Exists(before.ws, names[i]) then Chain(before, PythonMainFix(before.ws, names[i], frameworks, uvicorn, t)) else before
  {
    assert names[..i + 1][..i] == names[..i];
  }

  /** Some of `names` exists. */
  predicate AnyExists(ws: Workspace, names: seq<string>) {
    exists i :: 0 <= i < |names| && Exists(ws, names[i])
  }

  /** `_create_python_run_script`; a failed write escapes. */
  function RunScriptFix(ws: Workspace, t: Templates): (e: Effect)
    ensures Keeps(ws, e.ws)
  {
    match Write(ws, "run.py", t.runScript)
    case None => Effect(ws, [], true)
    case Some(ws') => Effect(ws', [RunScriptCreated], false)
  }

  /** `_fix_python_issues` */
  function PythonFix(ws: Workspace, frameworks: seq<string>, uvicorn: string -> Option<string>, t: Templates): (e: Effect)
    ensures Keeps(ws, e.ws)
  {
    var mains := PythonMainFixes(ws, PythonMainFiles, frameworks, uvicorn, t);
    if AnyExists(mains.ws, PythonMainFiles) then mains else Chain(mains, RunScriptFix(mains.ws, t))
  }

  /** Where none of `names` exists, the main-file fixes do nothing. */
  lemma {:induction false} PythonMainFixesNoneExist(ws: Workspace, names: seq<string>, frameworks: seq<string>, uvicorn: string -> Option<string>, t: Templates)
    requires forall i :: 0 <= i < |names| ==> !Exists(ws, names[i])
    ensures PythonMainFixes(ws, names, frameworks, uvicorn, t) == Nothing(ws)
    decreases |names|
  {
    if names != [] {
      PythonMainFixesNoneExist(ws, names[..|names| - 1], frameworks, uvicorn, t);
    }
  }

  /**
   * `_fix_python_issues` fixes the main files that exist and creates `run.py` only when
   * none of them exists: then it is exactly the run-script creation, which escapes when
   * `run.py` cannot be written and otherwise writes the run script and logs it.
   */
  lemma PythonFixByMainFiles(ws: Workspace, frameworks: seq<string>, uvicorn: string -> Option<string>, t: Templates)
    ensures AnyExists(ws, PythonMainFiles) ==>
      PythonFix(ws, frameworks, uvicorn, t) == PythonMainFixes(ws, PythonMainFiles, frameworks, uvicorn, t)
    ensures AnyExists(ws, PythonMainFiles) ==>
      ("run.py" in PythonFix(ws, frameworks, uvicorn, t).ws.texts <==> "run.py" in ws.texts)
    ensures !AnyExists(ws, PythonMainFiles) ==> PythonFix(ws, frameworks, uvicorn, t) == RunScriptFix(ws, t)
    ensures var e := RunScriptFix(ws, t);
      (e.escaped <==> "run.py" in ws.unwritable || "run.py" in ws.dirs)
      && (!e.escaped ==> e.ws.texts == ws.texts["run.py" := t.runScript] && e.log == [RunScriptCreated])
  {
    var mains := PythonMainFixes(ws, PythonMainFiles, frameworks, uvicorn, t);
    assert forall i :: 0 <= i < |PythonMainFiles| ==> (Exists(mains.ws, PythonMainFiles[i]) <==> Exists(ws, PythonMainFiles[i]));
    if !AnyExists(ws, PythonMainFiles) {
      PythonMainFixesNoneExist(ws, PythonMainFiles, frameworks, uvicorn, t);
      assert [] + RunScriptFix(ws, t).log == RunScriptFix(ws, t).log;
    }
  }

  /** In a Flask project a main file gets at most one `app.run` fix. */
  lemma FlaskFixedAtMostOnce(ws: Workspace, path: string, frameworks: seq<string>, uvicorn: string -> Option<string>, t: Templates)
    requires "flask" in frameworks
    ensures multiset(PythonMainFix(ws, path, frameworks, uvicorn, t).log)[FlaskFixed] <= 1
  {
    assert FlaskFixed != OsImportAdded && FlaskFixed != ServerAdded by {
      assert |FlaskFixed| == 36 && |OsImportAdded| == 45 && |ServerAdded| == 31;
    }
  }

  /**
   * The `app.run` rewrite substitutes the first matching pattern only; a text none of the
   * patterns matches is left as it is.
   */
  lemma FlaskRewriteFirstOnly(content: string)
    ensures FirstFlaskPattern(content).None? ==> FlaskRewrite(content) == content
    ensures forall k :: (0 <= k < |FlaskPatterns| && Matches(content, FlaskPatterns[k].0)
      && (forall j :: 0 <= j < k ==> !Matches(content, FlaskPatterns[j].0))
      ==> FlaskRewrite(content) == SubAll(content, FlaskPatterns[k].0, FlaskPatterns[k].1))
  {
  }

  // ---------------------------------------------------------------------------
  // PHP, environment, hard-coded settings, startup scripts (fix_engine.py lines 244-488)
  // ---------------------------------------------------------------------------

  /** `_fix_php_issues`; a failed write escapes. */
  function PhpFix(ws: Workspace, t: Templates): (e: Effect)
    ensures Keeps(ws, e.ws)
  {
    if Exists(ws, ".htaccess") then Nothing(ws)
    else
      match Write(ws, ".htaccess", t.htaccess)
      case None => Effect(ws, [], true)
      case Some(ws') => Effect(ws', [HtaccessCreated], false)
  }

  /** `.htaccess` is never overwritten: it is written only when absent, and then with the rewrite rules. */
  lemma HtaccessOnlyIfAbsent(ws: Workspace, t: Templates)
    ensures Exists(ws, ".htaccess") ==> PhpFix(ws, t) == Nothing(ws)
    ensures !Exists(ws, ".htaccess") && !PhpFix(ws, t).escaped ==>
      PhpFix(ws, t).ws.texts == ws.texts[".htaccess" := t.htaccess] && PhpFix(ws, t).log == [HtaccessCreated]
    ensures PhpFix(ws, t).escaped <==> !Exists(ws, ".htaccess") && ".htaccess" in ws.unwritable
  {
  }

  /** `_fix_environment_config`; a failed write escapes. */
  function EnvFix(ws: Workspace, environmentFiles: seq<string>, t: Templates): (e: Effect)
    ensures Keeps(ws, e.ws)
  {
    if environmentFiles != [] then Nothing(ws)
    else
      match Write(ws, ".env", t.env)
      case None => Effect(ws, [], true)
      case Some(ws') => Effect(ws', [EnvCreated], false)
  }

  /** `.env` is written exactly when the analysis lists no environment files. */
  lemma EnvOnlyWithoutEnvironmentFiles(ws: Workspace, environmentFiles: seq<string>, t: Templates)
    ensures environmentFiles != [] ==> EnvFix(ws, environmentFiles, t) == Nothing(ws)
    ensures environmentFiles == [] && !EnvFix(ws, environmentFiles, t).escaped ==>
      EnvFix(ws, environmentFiles, t).ws.texts == ws.texts[".env" := t.env]
      && EnvFix(ws, environmentFiles, t).log == [EnvCreated]
  {
  }

  /** The hard-coded-settings issues, in order */
  function HardcodedOf(issues: seq<ProjectAnalyzer.Issue>): (r: seq<ProjectAnalyzer.Issue>)
    ensures forall i :: 0 <= i < |r| ==> r[i].kind == "hardcoded_config"
    decreases |issues|
  {
    if issues == [] then []
    else
      var n := |issues| - 1;
      HardcodedOf(issues[..n]) + (if issues[n].kind == "hardcoded_config" then [issues[n]] else [])
  }

  /** The guide's line for one issue */
  function GuideLine(issue: ProjectAnalyzer.Issue): string {
    "- " + issue.description + "\n"
  }

  function GuideLines(issues: seq<ProjectAnalyzer.Issue>): (r: seq<string>)
    ensures |r| == |issues| && forall i :: 0 <= i < |issues| ==> r[i] == GuideLine(issues[i])
  {
    seq(|issues|, i requires 0 <= i < |issues| => GuideLine(issues[i]))
  }

  /** The deployment guide for the hard-coded-settings issues */
  function GuideText(hardcoded: seq<ProjectAnalyzer.Issue>, t: Templates): string {
    t.guideHeader + Concat(GuideLines(hardcoded)) + t.guideFooter
  }

  const GuidePath: string := "DEPLOYMENT_NOTES.md"

  /** `_fix_hardcoded_configs`; a failed write escapes. */
  function HardcodedFix(ws: Workspace, issues: seq<ProjectAnalyzer.Issue>, t: Templates): (e: Effect)
    ensures Keeps(ws, e.ws)
  {
    var hardcoded := HardcodedOf(issues);
    if hardcoded == [] then Nothing(ws)
    else
      match Write(ws, GuidePath, GuideText(hardcoded, t))
      case None => Effect(ws, [], true)
      case Some(ws') => Effect(ws', [GuideCreated], false)
  }

  /** The filter is empty exactly when no issue is about hard-coded settings. */
  lemma {:induction false} HardcodedOfEmpty(issues: seq<ProjectAnalyzer.Issue>)
    ensures HardcodedOf(issues) == [] <==> forall i :: 0 <= i < |issues| ==> issues[i].kind != "hardcoded_config"
    decreases |issues|
  {
    if issues != [] {
      var n := |issues| - 1;
      var init := issues[..n];
      HardcodedOfEmpty(init);
      if HardcodedOf(issues) == [] {
        forall i | 0 <= i < |issues| ensures issues[i].kind != "hardcoded_config" {
          if i < n { assert issues[i] == init[i]; }
        }
      } else if HardcodedOf(init) == [] {
        assert issues[n].kind == "hardcoded_config";
      } else {
        var j :| 0 <= j < n && init[j].kind == "hardcoded_config";
        assert issues[j] == init[j];
      }
    }
  }

  /** The guide is written only when hard-coded settings were found, and then it lists them. */
  lemma GuideOnlyWithHardcoded(ws: Workspace, issues: seq<ProjectAnalyzer.Issue>, t: Templates)
    ensures (forall i :: 0 <= i < |issues| ==> issues[i].kind != "hardcoded_config") ==> HardcodedFix(ws, issues, t) == Nothing(ws)
    ensures (exists i :: 0 <= i < |issues| && issues[i].kind == "hardcoded_config") && !HardcodedFix(ws, issues, t).escaped ==>
      HardcodedFix(ws, issues, t).ws.texts == ws.texts[GuidePath := GuideText(HardcodedOf(issues), t)]
  {
    HardcodedOfEmpty(issues);
  }

  /**
   * The guide's list reads back as one `- description` line per hard-coded-settings issue,
   * in order, when no description holds a line break.
   */
  lemma GuideListsIssues(hardcoded: seq<ProjectAnalyzer.Issue>)
    requires forall i :: 0 <= i < |hardcoded| ==> '\n' !in hardcoded[i].description
    ensures ReadLines(Concat(GuideLines(hardcoded))) == GuideLines(hardcoded)
    ensures forall i :: 0 <= i < |hardcoded| ==> GuideLines(hardcoded)[i] == "- " + hardcoded[i].description + "\n"
  {
    var ls := GuideLines(hardcoded);
    forall i | 0 <= i < |ls| ensures EndsWith(ls[i], "\n") {
      assert ls[i][|ls[i]| - 1..] == "\n";
    }
    forall i, j | 0 <= i < |ls| && 0 <= j < |ls[i]| - 1 ensures ls[i][j] != '\n' {
      var d := hardcoded[i].description;
      assert ls[i] == "- " + d + "\n";
      if j >= 2 { assert ls[i][j] == d[j - 2]; }
    }
    ReadLinesOfConcat(ls);
  }

  /** The startup script for a Python project, by framework */
  function PythonStartScriptFor(frameworks: seq<string>, t: Templates): string {
    if "django" in frameworks then t.djangoStart
    else if "flask" in frameworks then t.flaskStart
    else t.pythonStart
  }

  /** `_create_startup_script`; a failed write escapes. The file mode is not modelled. */
  function StartupFix(ws: Workspace, primary: string, frameworks: seq<string>, t: Templates): (e: Effect)
    ensures Keeps(ws, e.ws)
  {
    if primary == "nodejs" then
      match Write(ws, "start.sh", t.nodeStart)
      case None => Effect(ws, [], true)
      case Some(ws') => Effect(ws', [NodeStartupCreated], false)
    else if primary == "python" then
      match Write(ws, "start.sh", PythonStartScriptFor(frameworks, t))
      case None => Effect(ws, [], true)
      case Some(ws') => Effect(ws', [PythonStartupCreated], false)
    else Nothing(ws)
  }

  /**
   * `_create_startup_script` writes `start.sh` for Node.js and Python projects only: the
   * Node.js script, or the Django, else Flask, else plain Python one; it escapes exactly
   * when `start.sh` cannot be written, and otherwise logs the script it created.
   */
  lemma StartupScriptByType(ws: Workspace, primary: string, frameworks: seq<string>, t: Templates)
    ensures primary != "nodejs" && primary != "python" ==> StartupFix(ws, primary, frameworks, t) == Nothing(ws)
    ensures primary == "nodejs" || primary == "python" ==>
      (StartupFix(ws, primary, frameworks, t).escaped <==> "start.sh" in ws.unwritable || "start.sh" in ws.dirs)
    ensures var e := StartupFix(ws, primary, frameworks, t);
      primary == "nodejs" && !e.escaped ==> e.ws.texts == ws.texts["start.sh" := t.nodeStart] && e.log == [NodeStartupCreated]
    ensures var e := StartupFix(ws, primary, frameworks, t);
      var script := if "django" in frameworks then t.djangoStart else if "flask" in frameworks then t.flaskStart else t.pythonStart;
      primary == "python" && !e.escaped ==> e.ws.texts == ws.texts["start.sh" := script] && e.log == [PythonStartupCreated]
    ensures StartupFix(ws, primary, frameworks, t).escaped ==> StartupFix(ws, primary, frameworks, t).ws == ws
  {
  }

  // ---------------------------------------------------------------------------
  // Host bindings (fix_engine.py lines 266-317)
  // ---------------------------------------------------------------------------

  const HostBindingPrefix: string := "Fixed host binding in "

  /** The project directory with its leading `./` components dropped */
  function WithoutDotSlash(dir: string): string
    decreases |dir|
  {
    if |dir| >= 2 && dir[..2] == "./" then WithoutDotSlash(dir[2..]) else dir
  }

  /** The project directory with its trailing `/`s dropped */
  function WithoutTrailingSlash(dir: string): string
    decreases |dir|
  {
    if dir != [] && dir[|dir| - 1] == '/' then WithoutTrailingSlash(dir[..|dir| - 1]) else dir
  }

  /**
   * `os.path.relpath` of the file `path` below the project directory `dir`, for a `dir`
   * written relative to the working directory without `..` or inner `.` components: the
   * working-directory-relative directory, then `/`, then the path below it.
   */
  function ShownPath(dir: string, path: string): string {
    var d := WithoutTrailingSlash(WithoutDotSlash(dir));
    if d == "" || d == "." then path else d + "/" + path
  }

  /** Below the deployer's `./bilman`, `app.py` is shown as `bilman/app.py`. */
  lemma ShownBelowBilman(path: string)
    ensures ShownPath("./bilman", path) == "bilman/" + path
  {
    assert "./bilman"[..2] == "./" && "./bilman"[2..] == "bilman";
    assert "bilman"[..2] == "bi";
    assert WithoutDotSlash("bilman") == "bilman";
    assert "bilman"[5] == 'n';
    assert WithoutTrailingSlash("bilman") == "bilman";
  }

  /**
   * `_fix_port_binding` over the files the pass rewrites: each is written in turn and logged
   * only once written; a failed write is caught.
   */
  function HostBindingFix(ws: Workspace, dir: string, bindings: seq<(string, string)>): (e: Effect)
    ensures Keeps(ws, e.ws) && !e.escaped && e.ws.manifest == ws.manifest
    decreases |bindings|
  {
    if bindings == [] then Nothing(ws)
    else
      var before := HostBindingFix(ws, dir, bindings[..|bindings| - 1]);
      var (path, text) := bindings[|bindings| - 1];
      match Write(before.ws, path, text)
      case None => before
      case Some(ws') => Effect(ws', before.log + [HostBindingPrefix + ShownPath(dir, path)], false)
  }

  /** One log entry per file, in order, naming it as `os.path.relpath` shows it */
  function HostBindingEntries(dir: string, bindings: seq<(string, string)>): (r: seq<string>)
    ensures |r| == |bindings| && forall i :: 0 <= i < |bindings| ==> r[i] == HostBindingPrefix + ShownPath(dir, bindings[i].0)
  {
    seq(|bindings|, i requires 0 <= i < |bindings| => HostBindingPrefix + ShownPath(dir, bindings[i].0))
  }

  /** Where every rewritten file can be written, each is logged once, in walk order. */
  lemma {:induction false} HostBindingsAllLogged(ws: Workspace, dir: string, bindings: seq<(string, string)>)
    requires forall i :: 0 <= i < |bindings| ==> bindings[i].0 !in ws.unwritable && bindings[i].0 !in ws.dirs
    ensures HostBindingFix(ws, dir, bindings).log == HostBindingEntries(dir, bindings)
    decreases |bindings|
  {
    if bindings != [] {
      var n := |bindings| - 1;
      HostBindingsAllLogged(ws, dir, bindings[..n]);
      assert HostBindingEntries(dir, bindings) == HostBindingEntries(dir, bindings[..n]) + [HostBindingPrefix + ShownPath(dir, bindings[n].0)];
    }
  }

  /** A file the pass does not rewrite keeps its text. */
  lemma {:induction false} HostBindingOnlyListed(ws: Workspace, dir: string, bindings: seq<(string, string)>, path: string)
    requires forall i :: 0 <= i < |bindings| ==> bindings[i].0 != path
    ensures path in HostBindingFix(ws, dir, bindings).ws.texts <==> path in ws.texts
    ensures path in ws.texts ==> HostBindingFix(ws, dir, bindings).ws.texts[path] == ws.texts[path]
    decreases |bindings|
  {
    if bindings != [] {
      HostBindingOnlyListed(ws, dir, bindings[..|bindings| - 1], path);
    }
  }

  // ---------------------------------------------------------------------------
  // All fixes (fix_engine.py lines 20-46)
  // ---------------------------------------------------------------------------

  /** The fixes for the primary project type */
  function TypeFix(ws: Workspace, a: ProjectAnalyzer.Analysis, rw: Rewrites, t: Templates): (e: Effect)
    ensures Keeps(ws, e.ws)
  {
    var primary := a.projectType.primary;
    if primary == "nodejs" then NodeFix(ws, rw.listen, t)
    else if primary == "python" then PythonFix(ws, a.projectType.frameworks, rw.uvicorn, t)
    else if primary == "php" then PhpFix(ws, t)
    else Nothing(ws)
  }

  /**
   * The fixes `apply_fixes` runs for every project type, in order: host bindings,
   * environment, hard-coded settings, startup script. An escaped exception skips the rest.
   */
  function CommonFixes(ws: Workspace, dir: string, a: ProjectAnalyzer.Analysis, rw: Rewrites, t: Templates): (e: Effect)
    ensures Keeps(ws, e.ws)
  {
    var e1 := HostBindingFix(ws, dir, rw.hostBindings);
    var e2 := Chain(e1, EnvFix(e1.ws, a.configuration.environmentFiles, t));
    if e2.escaped then e2
    else
      var e3 := Chain(e2, HardcodedFix(e2.ws, a.potentialIssues, t));
      if e3.escaped then e3
      else Chain(e3, StartupFix(e3.ws, a.projectType.primary, a.projectType.frameworks, t))
  }

  /** `apply_fixes`: the fixes by project type, then the common ones unless an exception escaped */
  function FixesOf(ws: Workspace, dir: string, a: ProjectAnalyzer.Analysis, rw: Rewrites, t: Templates): (e: Effect)
    ensures Keeps(ws, e.ws)
  {
    var e0 := TypeFix(ws, a, rw, t);
    if e0.escaped then e0 else Chain(e0, CommonFixes(e0.ws, dir, a, rw, t))
  }

  /** The paths the fixes create with a write that is not caught */
  const CreatedPaths: seq<string> := [".htaccess", ".env", "DEPLOYMENT_NOTES.md", "start.sh", "run.py"]

  /** None of the created paths is a directory or unwritable. */
  predicate CanCreate(ws: Workspace) {
    forall i :: 0 <= i < |CreatedPaths| ==> CreatedPaths[i] !in ws.unwritable && CreatedPaths[i] !in ws.dirs
  }

  lemma TypeFixNoEscape(ws: Workspace, a: ProjectAnalyzer.Analysis, rw: Rewrites, t: Templates)
    requires CanCreate(ws)
    ensures !TypeFix(ws, a, rw, t).escaped
  {
    assert CreatedPaths[0] == ".htaccess" && CreatedPaths[4] == "run.py";
  }

  lemma CommonFixesNoEscape(ws: Workspace, dir: string, a: ProjectAnalyzer.Analysis, rw: Rewrites, t: Templates)
    requires CanCreate(ws)
    ensures !CommonFixes(ws, dir, a, rw, t).escaped
  {
    assert CreatedPaths[1] == ".env" && CreatedPaths[2] == GuidePath && CreatedPaths[3] == "start.sh";
    var e1 := HostBindingFix(ws, dir, rw.hostBindings);
    assert CanCreate(e1.ws);
    var e2 := Chain(e1, EnvFix(e1.ws, a.configuration.environmentFiles, t));
    assert CanCreate(e2.ws);
    var e3 := Chain(e2, HardcodedFix(e2.ws, a.potentialIssues, t));
    assert CanCreate(e3.ws);
  }

  /** Only a failed write of a created file escapes: where those can all be written, none does. */
  lemma NoEscapeWhenWritable(ws: Workspace, dir: string, a: ProjectAnalyzer.Analysis, rw: Rewrites, t: Templates)
    requires CanCreate(ws)
    ensures !FixesOf(ws, dir, a, rw, t).escaped
  {
    TypeFixNoEscape(ws, a, rw, t);
    var e0 := TypeFix(ws, a, rw, t);
    assert CanCreate(e0.ws);
    CommonFixesNoEscape(e0.ws, dir, a, rw, t);
  }

  // ---------------------------------------------------------------------------
  // The engine
  // ---------------------------------------------------------------------------

  /** The fix engine and the fixes it applied, across all its runs */
  class FixEngine {
    var fixesApplied: seq<string>
    const templates: Templates

    constructor()
      ensures fixesApplied == [] && templates == Standard
    {
      fixesApplied := [];
      templates := Standard;
    }

    /** `get_fixes_applied`: a copy of the log */
    method GetFixesApplied() returns (r: seq<string>)
      ensures r == fixesApplied
    {
      r := fixesApplied;
    }

    /**
     * `apply_fixes`: the log only grows, by what `FixesOf` logs, and the result is True
     * exactly when no exception escaped and the log is not empty.
     */
    method ApplyFixes(dir: string, ws: Workspace, a: ProjectAnalyzer.Analysis, rw: Rewrites) returns (ok: bool, ws': Workspace)
      modifies this
      ensures ws' == FixesOf(ws, dir, a, rw, templates).ws
      ensures fixesApplied == old(fixesApplied) + FixesOf(ws, dir, a, rw, templates).log
      ensures ok <==> !FixesOf(ws, dir, a, rw, templates).escaped && fixesApplied != []
    {
      var escaped;
      ghost var typeFix := TypeFix(ws, a, rw, templates);
      ws', escaped := ApplyTypeFixes(ws, a, rw);
      if escaped {
        return false, ws';
      }
      ghost var common := CommonFixes(ws', dir, a, rw, templates);
      ws', escaped := ApplyCommonFixes(dir, ws', a, rw);
      AppendAssoc(old(fixesApplied), typeFix.log, common.log);
      if escaped {
        return false, ws';
      }
      ok := |fixesApplied| > 0;
    }

    /** The fixes of `apply_fixes` chosen by the primary project type */
    method ApplyTypeFixes(ws: Workspace, a: ProjectAnalyzer.Analysis, rw: Rewrites) returns (ws': Workspace, escaped: bool)
      modifies this
      ensures ws' == TypeFix(ws, a, rw, templates).ws && escaped == TypeFix(ws, a, rw, templates).escaped
      ensures fixesApplied == old(fixesApplied) + TypeFix(ws, a, rw, templates).log
    {
      var primary := a.projectType.primary;
      ws', escaped := ws, false;
      if primary == "nodejs" {
        ws' := FixNodejsIssues(ws, rw.listen);
      } else if primary == "python" {
        ws', escaped := FixPythonIssues(ws, a.projectType.frameworks, rw.uvicorn);
      } else if primary == "php" {
        ws', escaped := FixPhpIssues(ws);
      }
    }

    /** The fixes of `apply_fixes` run for every project type */
    method ApplyCommonFixes(dir: string, ws: Workspace, a: ProjectAnalyzer.Analysis, rw: Rewrites) returns (ws': Workspace, escaped: bool)
      modifies this
      ensures ws' == CommonFixes(ws, dir, a, rw, templates).ws && escaped == CommonFixes(ws, dir, a, rw, templates).escaped
      ensures fixesApplied == old(fixesApplied) + CommonFixes(ws, dir, a, rw, templates).log
    {
      ghost var e1 := HostBindingFix(ws, dir, rw.hostBindings);
      ws' := FixPortBinding(dir, ws, rw.hostBindings);
      ghost var env := EnvFix(ws', a.configuration.environmentFiles, templates);
      ws', escaped := FixEnvironmentConfig(ws', a.configuration.environmentFiles);
      AppendAssoc(old(fixesApplied), e1.log, env.log);
      if escaped {
        return;
      }
      ghost var e2 := Chain(e1, env);
      ghost var guide := HardcodedFix(ws', a.potentialIssues, templates);
      ws', escaped := FixHardcodedConfigs(ws', a.potentialIssues);
      AppendAssoc(old(fixesApplied), e2.log, guide.log);
      if escaped {
        return;
      }
      ghost var e3 := Chain(e2, guide);
      ghost var startup := StartupFix(ws', a.projectType.primary, a.projectType.frameworks, templates);
      ws', escaped := CreateStartupScript(ws', a.projectType.primary, a.projectType.frameworks);
      AppendAssoc(old(fixesApplied), e3.log, startup.log);
    }

    /** `_fix_nodejs_issues` */
    method FixNodejsIssues(ws: Workspace, listen: string -> Option<string>) returns (ws': Workspace)
      modifies this
      ensures ws' == NodeFix(ws, listen, templates).ws
      ensures fixesApplied == old(fixesApplied) + NodeFix(ws, listen, templates).log
    {
      ws' := FixPackageJson(ws);
      ghost var package := fixesApplied;
      FirstExistingSame(ws, ws', NodeMainFiles);
      var k := 0;
      while k < |NodeMainFiles|
        invariant 0 <= k <= |NodeMainFiles|
        invariant ws' == PackageFix(ws).ws && fixesApplied == package
        invariant forall j :: 0 <= j < k ==> !Exists(ws', NodeMainFiles[j])
      {
        if Exists(ws', NodeMainFiles[k]) {
          FirstExistingAt(ws', NodeMainFiles, k);
          ghost var main := NodeMainFix(ws', NodeMainFiles[k], listen, templates);
          ws' := FixNodejsMainFile(ws', NodeMainFiles[k], listen);
          AppendAssoc(old(fixesApplied), PackageFix(ws).log, main.log);
          return;
        }
        k := k + 1;
      }
    }

    /** The `package.json` part of `_fix_nodejs_issues` */
    method FixPackageJson(ws: Workspace) returns (ws': Workspace)
      modifies this
      ensures ws' == PackageFix(ws).ws
      ensures fixesApplied == old(fixesApplied) + PackageFix(ws).log
    {
      ws' := ws;
      if Exists(ws, "package.json") && "package.json" in ws.texts && ws.manifest.Some? {
        var m := ws.manifest.value;
        var scripts := if m.scripts.Some? then m.scripts.value else [];
        if !HasKey(scripts, "start") {
          var mainFile := DetectMainFile(ws, m);
          scripts := Put(scripts, "start", "node " + mainFile);
          fixesApplied := fixesApplied + [StartScriptAdded];
        }
        var written := WriteManifest(ws, m.(scripts := Some(scripts)));
        if written.Some? {
          ws' := written.value;
        }
      }
    }

    /** The main file for the start script: the declared one, or the first entry point that exists */
    method DetectMainFile(ws: Workspace, m: Manifest) returns (mainFile: string)
      ensures mainFile == StartMain(ws, m)
    {
      mainFile := if m.main.Some? then m.main.value else "index.js";
      if !PathExists(ws, mainFile) {
        var k := 0;
        while k < |StartCandidates|
          invariant 0 <= k <= |StartCandidates|
          invariant mainFile == m.main.GetOr("index.js")
          invariant forall j :: 0 <= j < k ==> !Exists(ws, StartCandidates[j])
        {
          if Exists(ws, StartCandidates[k]) {
            FirstExistingAt(ws, StartCandidates, k);
            mainFile := StartCandidates[k];
            return;
          }
          k := k + 1;
        }
      }
    }

    /** `_fix_nodejs_main_file`, the pattern rewrites given by `listen` */
    method FixNodejsMainFile(ws: Workspace, path: string, listen: string -> Option<string>) returns (ws': Workspace)
      modifies this
      ensures ws' == NodeMainFix(ws, path, listen, templates).ws
      ensures fixesApplied == old(fixesApplied) + NodeMainFix(ws, path, listen, templates).log
    {
      ws' := ws;
      if path !in ws.texts {
        return;
      }
      var content := ws.texts[path];
      var original := content;
      var rewritten := listen(content);
      if rewritten.Some? {
        content := rewritten.value;
      }
      assert content == listen(original).GetOr(original);
      ghost var c1 := content;
      ghost var added := !Contains(c1, ".listen(") && Contains(c1, "createServer");
      if !Contains(content, ".listen(") && Contains(content, "createServer") {
        content := content + templates.nodePort;
        fixesApplied := fixesApplied + [NodePortAdded];
      }
      assert content == if added then c1 + templates.nodePort else c1;
      assert fixesApplied == old(fixesApplied) + if added then [NodePortAdded] else [];
      ghost var saved := content != original && Write(ws, path, content).Some?;
      ghost var e := NodeMainFix(ws, path, listen, templates);
      assert e.ws == if saved then Write(ws, path, content).value else ws;
      assert e.log == (if added then [NodePortAdded] else [])
        + (if saved then [NodePortFixedPrefix + Basename(path)] else []);
      if content != original {
        var written := Write(ws, path, content);
        if written.Some? {
          ws' := written.value;
          fixesApplied := fixesApplied + [NodePortFixedPrefix + Basename(path)];
        }
      }
    }

    /** `_fix_python_issues`: each existing main file, then a run script if there is none */
    method FixPythonIssues(ws: Workspace, frameworks: seq<string>, uvicorn: string -> Option<string>) returns (ws': Workspace, escaped: bool)
      modifies this
      ensures ws' == PythonFix(ws, frameworks, uvicorn, templates).ws && escaped == PythonFix(ws, frameworks, uvicorn, templates).escaped
      ensures fixesApplied == old(fixesApplied) + PythonFix(ws, frameworks, uvicorn, templates).log
    {
      ws' := FixPythonMainFiles(ws, PythonMainFiles, frameworks, uvicorn);
      ghost var mains := fixesApplied;
      escaped := false;
      if !AnyExists(ws', PythonMainFiles) {
        ghost var run := RunScriptFix(ws', templates);
        ws', escaped := CreatePythonRunScript(ws');
        AppendAssoc(old(fixesApplied), mains[|old(fixesApplied)|..], run.log);
        assert mains == old(fixesApplied) + mains[|old(fixesApplied)|..];
      }
    }

    /** The loop of `_fix_python_issues` over the main files, fixing each one that exists */
    method FixPythonMainFiles(ws: Workspace, names: seq<string>, frameworks: seq<string>, uvicorn: string -> Option<string>) returns (ws': Workspace)
      modifies this
      ensures ws' == PythonMainFixes(ws, names, frameworks, uvicorn, templates).ws
      ensures fixesApplied == old(fixesApplied) + PythonMainFixes(ws, names, frameworks, uvicorn, templates).log
    {
      ws' := ws;
      ghost var done := Nothing(ws);
      var i := 0;
      while i < |names|
        invariant 0 <= i <= |names|
        invariant done == PythonMainFixes(ws, names[..i], frameworks, uvicorn, templates)
        invariant ws' == done.ws && fixesApplied == old(fixesApplied) + done.log
      {
        PythonMainFixesSnoc(ws, names, i, frameworks, uvicorn, templates);
        if Exists(ws', names[i]) {
          ghost var step := PythonMainFix(ws', names[i], frameworks, uvicorn, templates);
          ws' := FixPythonMainFile(ws', names[i], frameworks, uvicorn);
          AppendAssoc(old(fixesApplied), done.log, step.log);
          done := Chain(done, step);
        }
        i := i + 1;
      }
      assert names[..i] == names;
    }

    /** `_fix_python_main_file`: the text is reassigned fix by fix and written once at the end. */
    method FixPythonMainFile(ws: Workspace, path: string, frameworks: seq<string>, uvicorn: string -> Option<string>) returns (ws': Workspace)
      modifies this
      ensures ws' == PythonMainFix(ws, path, frameworks, uvicorn, templates).ws
      ensures fixesApplied == old(fixesApplied) + PythonMainFix(ws, path, frameworks, uvicorn, templates).log
    {
      ws' := ws;
      if path !in ws.texts {
        return;
      }
      var content := ws.texts[path];
      var original := content;
      ws', content := FixForFramework(ws, content, frameworks, uvicorn);
      content := AddServerStartup(content);
      if content != original {
        var written := Write(ws', path, content);
        if written.Some? {
          ws' := written.value;
        }
      }
    }

    /** The framework branch of `_fix_python_main_file`: Flask, else Django, else FastAPI */
    method FixForFramework(ws: Workspace, content: string, frameworks: seq<string>, uvicorn: string -> Option<string>) returns (ws': Workspace, c: string)
      modifies this
      ensures ws' == FrameworkStep(ws, content, frameworks, uvicorn).ws && c == FrameworkStep(ws, content, frameworks, uvicorn).content
      ensures fixesApplied == old(fixesApplied) + FrameworkStep(ws, content, frameworks, uvicorn).log
    {
      ws', c := ws, content;
      if "flask" in frameworks {
        c := FixFlaskRun(content);
        if Contains(c, PortLookup) && !Contains(c, "import os") {
          c := OsImport + c;
          fixesApplied := fixesApplied + [OsImportAdded];
        }
      } else if "django" in frameworks {
        if Exists(ws, "settings.py") {
          ws' := FixDjangoSettings(ws, "settings.py");
        }
      } else if "fastapi" in frameworks {
        if Contains(c, "uvicorn.run(") {
          var rewritten := uvicorn(c);
          if rewritten.Some? {
            c := rewritten.value;
            fixesApplied := fixesApplied + [UvicornFixed];
          }
        }
        if Contains(c, PortLookup) && !Contains(c, "import os") {
          c := OsImport + c;
        }
      }
    }

    /** The generic branch of `_fix_python_main_file` */
    method AddServerStartup(content: string) returns (c: string)
      modifies this
      ensures c == ServerStep(content, templates).content
      ensures fixesApplied == old(fixesApplied) + ServerStep(content, templates).log
    {
      c := content;
      if Contains(c, MainGuard) {
        if !Contains(c, "app.run(") && !Contains(c, "uvicorn.run(") && !Contains(c, ".serve_forever()") {
          c := c + templates.server;
          fixesApplied := fixesApplied + [ServerAdded];
        }
      }
    }

    /** The `app.run` patterns in order; the loop stops at the first that matches. */
    method FixFlaskRun(content: string) returns (c: string)
      modifies this
      ensures c == FlaskRewrite(content)
      ensures fixesApplied == old(fixesApplied) + (if FirstFlaskPattern(content).Some? then [FlaskFixed] else [])
    {
      c := content;
      var k := 0;
      while k < |FlaskPatterns|
        invariant 0 <= k <= |FlaskPatterns|
        invariant c == content && fixesApplied == old(fixesApplied)
        invariant forall j :: 0 <= j < k ==> !Matches(content, FlaskPatterns[j].0)
      {
        var (alternatives, replacement) := FlaskPatterns[k];
        if Matches(content, alternatives) {
          c := SubAll(content, alternatives, replacement);
          fixesApplied := fixesApplied + [FlaskFixed];
          return;
        }
        k := k + 1;
      }
    }

    /** `_fix_django_settings` */
    method FixDjangoSettings(ws: Workspace, path: string) returns (ws': Workspace)
      modifies this
      ensures ws' == DjangoFix(ws, path).ws
      ensures fixesApplied == old(fixesApplied) + DjangoFix(ws, path).log
    {
      ws' := ws;
      if path !in ws.texts {
        return;
      }
      var content := ws.texts[path];
      var original := content;
      if Contains(content, HostsOld) {
        content := ReplaceAll(content, HostsOld, HostsNew);
        fixesApplied := fixesApplied + [HostsFixed];
      }
      if Contains(content, DebugOld) {
        content := ReplaceAll(content, DebugOld, DebugNew);
        fixesApplied := fixesApplied + [DebugFixed];
        if !Contains(content, "import os") {
          content := OsImport + content;
        }
      }
      if content != original {
        var written := Write(ws, path, content);
        if written.Some? {
          ws' := written.value;
        }
      }
    }

    /** `_create_python_run_script` */
    method CreatePythonRunScript(ws: Workspace) returns (ws': Workspace, escaped: bool)
      modifies this
      ensures ws' == RunScriptFix(ws, templates).ws && escaped == RunScriptFix(ws, templates).escaped
      ensures fixesApplied == old(fixesApplied) + RunScriptFix(ws, templates).log
    {
      var written := Write(ws, "run.py", templates.runScript);
      if written.None? {
        return ws, true;
      }
      fixesApplied := fixesApplied + [RunScriptCreated];
      return written.value, false;
    }

    /** `_fix_php_issues` */
    method FixPhpIssues(ws: Workspace) returns (ws': Workspace, escaped: bool)
      modifies this
      ensures ws' == PhpFix(ws, templates).ws && escaped == PhpFix(ws, templates).escaped
      ensures fixesApplied == old(fixesApplied) + PhpFix(ws, templates).log
    {
      ws', escaped := ws, false;
      if !Exists(ws, ".htaccess") {
        var written := Write(ws, ".htaccess", templates.htaccess);
        if written.None? {
          return ws, true;
        }
        ws' := written.value;
        fixesApplied := fixesApplied + [HtaccessCreated];
      }
    }

    /** `_fix_port_binding`, whose rewrites are given by the entries they log */
    method FixPortBinding(dir: string, ws: Workspace, bindings: seq<(string, string)>) returns (ws': Workspace)
      modifies this
      ensures ws' == HostBindingFix(ws, dir, bindings).ws
      ensures fixesApplied == old(fixesApplied) + HostBindingFix(ws, dir, bindings).log
    {
      ws' := ws;
      ghost var done := Nothing(ws);
      var i := 0;
      while i < |bindings|
        invariant 0 <= i <= |bindings|
        invariant done == HostBindingFix(ws, dir, bindings[..i])
        invariant ws' == done.ws && fixesApplied == old(fixesApplied) + done.log
      {
        assert bindings[..i + 1][..i] == bindings[..i];
        var (path, text) := bindings[i];
        var written := Write(ws', path, text);
        if written.Some? {
          ws' := written.value;
          var entry := HostBindingPrefix + ShownPath(dir, path);
          AppendAssoc(old(fixesApplied), done.log, [entry]);
          fixesApplied := fixesApplied + [entry];
          done := Effect(ws', done.log + [entry], false);
        }
        i := i + 1;
      }
      assert bindings[..i] == bindings;
    }

    /** `_fix_environment_config` */
    method FixEnvironmentConfig(ws: Workspace, environmentFiles: seq<string>) returns (ws': Workspace, escaped: bool)
      modifies this
      ensures ws' == EnvFix(ws, environmentFiles, templates).ws && escaped == EnvFix(ws, environmentFiles, templates).escaped
      ensures fixesApplied == old(fixesApplied) + EnvFix(ws, environmentFiles, templates).log
    {
      ws', escaped := ws, false;
      if environmentFiles == [] {
        var written := Write(ws, ".env", templates.env);
        if written.None? {
          return ws, true;
        }
        ws' := written.value;
        fixesApplied := fixesApplied + [EnvCreated];
      }
    }

    /** `_fix_hardcoded_configs` */
    method FixHardcodedConfigs(ws: Workspace, issues: seq<ProjectAnalyzer.Issue>) returns (ws': Workspace, escaped: bool)
      modifies this
      ensures ws' == HardcodedFix(ws, issues, templates).ws && escaped == HardcodedFix(ws, issues, templates).escaped
      ensures fixesApplied == old(fixesApplied) + HardcodedFix(ws, issues, templates).log
    {
      ws', escaped := ws, false;
      var hardcoded := FilterHardcoded(issues);
      if hardcoded != [] {
        var guide := BuildGuide(hardcoded);
        var written := Write(ws, GuidePath, guide);
        if written.None? {
          return ws, true;
        }
        ws' := written.value;
        fixesApplied := fixesApplied + [GuideCreated];
      }
    }

    /** The issues about hard-coded settings, in order */
    method FilterHardcoded(issues: seq<ProjectAnalyzer.Issue>) returns (hardcoded: seq<ProjectAnalyzer.Issue>)
      ensures hardcoded == HardcodedOf(issues)
    {
      hardcoded := [];
      var i := 0;
      while i < |issues|
        invariant 0 <= i <= |issues|
        invariant hardcoded == HardcodedOf(issues[..i])
      {
        if issues[i].kind == "hardcoded_config" {
          hardcoded := hardcoded + [issues[i]];
        }
        assert issues[..i + 1][..i] == issues[..i];
        i := i + 1;
      }
      assert issues[..i] == issues;
    }

    /** The guide's text, built line by line */
    method BuildGuide(hardcoded: seq<ProjectAnalyzer.Issue>) returns (guide: string)
      ensures guide == GuideText(hardcoded, templates)
    {
      guide := templates.guideHeader;
      var j := 0;
      while j < |hardcoded|
        invariant 0 <= j <= |hardcoded|
        invariant guide == templates.guideHeader + Concat(GuideLines(hardcoded[..j]))
      {
        ConcatAppend(GuideLines(hardcoded[..j]), [GuideLine(hardcoded[j])]);
        assert GuideLines(hardcoded[..j + 1]) == GuideLines(hardcoded[..j]) + [GuideLine(hardcoded[j])];
        guide := guide + ("- " + hardcoded[j].description + "\n");
        j := j + 1;
      }
      assert hardcoded[..j] == hardcoded;
      guide := guide + templates.guideFooter;
    }

    /** `_create_startup_script` */
    method CreateStartupScript(ws: Workspace, primary: string, frameworks: seq<string>) returns (ws': Workspace, escaped: bool)
      modifies this
      ensures ws' == StartupFix(ws, primary, frameworks, templates).ws && escaped == StartupFix(ws, primary, frameworks, templates).escaped
      ensures fixesApplied == old(fixesApplied) + StartupFix(ws, primary, frameworks, templates).log
    {
      ws', escaped := ws, false;
      if primary == "nodejs" {
        var written := Write(ws, "start.sh", templates.nodeStart);
        if written.None? {
          return ws, true;
        }
        ws' := written.value;
        fixesApplied := fixesApplied + [NodeStartupCreated];
      } else if primary == "python" {
        var script;
        if "django" in frameworks {
          script := templates.djangoStart;
        } else if "flask" in frameworks {
          script := templates.flaskStart;
        } else {
          script := templates.pythonStart;
        }
        var written := Write(ws, "start.sh", script);
        if written.None? {
          return ws, true;
        }
        ws' := written.value;
        fixesApplied := fixesApplied + [PythonStartupCreated];
      }
    }
  }
}
