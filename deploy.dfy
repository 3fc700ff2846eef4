/**
 * `BilmanDeployer` and `main`: clone the project, analyse it, apply the automatic fixes and
 * commit them, then install its dependencies, recording each step's success in four status
 * flags and stopping at the first step that fails.
 *
 * The machine is an input: the outcome of each command the deployer runs, the cloned
 * directory as the analyzer sees it, the files the fix engine works on, and whether the
 * reports and the generic copy can be written.
 */
module Deploy {
  import opened Wrappers
  import opened PyText
  import DirTree
  import ConfigManager
  import ProjectAnalyzer
  import FixEngine

  // ---------------------------------------------------------------------------
  // Running commands
  // ---------------------------------------------------------------------------

  /** How a subprocess ended: with an exit code, at the 300-second timeout, or by another exception */
  datatype CommandOutcome =
    | Exited(returnCode: int, stdout: string, stderr: string)
    | TimedOut
    | Raised(message: string)

  /** The machine's answer to running the argument vector `argv` in directory `cwd` (None: the current one) */
  type Runner = (seq<string>, Option<string>) -> CommandOutcome

  /** `run_command`'s `(success, stdout, stderr)` */
  datatype CommandResult = CommandResult(success: bool, stdout: string, stderr: string)

  const TimeoutMessage := "Command timed out"

  /** `run_command`: success is a zero exit code; a timeout or an exception is a failure with empty output. */
  function RunCommandResult(o: CommandOutcome): (r: CommandResult)
    ensures r.success <==> o.Exited? && o.returnCode == 0
    ensures o.Exited? ==> r.stdout == o.stdout && r.stderr == o.stderr
    ensures o.TimedOut? ==> r == CommandResult(false, "", "Command timed out")
    ensures o.Raised? ==> r == CommandResult(false, "", o.message)
  {
    match o
    case Exited(code, out, err) => CommandResult(code == 0, out, err)
    case TimedOut => CommandResult(false, "", TimeoutMessage)
    case Raised(m) => CommandResult(false, "", m)
  }

  predicate Succeeds(run: Runner, argv: seq<string>, cwd: Option<string>) {
    RunCommandResult(run(argv, cwd)).success
  }

  // ---------------------------------------------------------------------------
  // `command.split()`
  // ---------------------------------------------------------------------------

  /** No character of `w` is whitespace. */
  predicate NoSpace(w: string) {
    w == [] || (!IsSpace(w[0]) && NoSpace(w[1..]))
  }

  lemma {:induction false} NoSpaceAt(w: string, i: nat)
    requires NoSpace(w) && i < |w|
    ensures !IsSpace(w[i])
    decreases i
  {
    if i > 0 {
      NoSpaceAt(w[1..], i - 1);
    }
  }

  /** A non-empty run of non-whitespace characters */
  predicate Word(w: string) {
    w != [] && NoSpace(w)
  }

  /** Printable ASCII other than the space */
  predicate Printable(w: string) {
    forall j :: 0 <= j < |w| ==> '!' <= w[j] <= '~'
  }

  lemma {:induction false} PrintableWord(w: string)
    requires w != [] && Printable(w)
    ensures Word(w)
    decreases |w|
  {
    assert '!' <= w[0] <= '~';
    if |w| > 1 {
      forall j | 0 <= j < |w| - 1 ensures '!' <= w[1..][j] <= '~' {
        assert w[1..][j] == w[j + 1];
      }
      PrintableWord(w[1..]);
    }
  }

  lemma QuotedWord(w: string)
    requires Word(w)
    ensures Word("\"" + w)
  {
    assert ("\"" + w)[1..] == w;
  }

  /** `s.split()` continued after the characters `cur` of a word already begun */
  function SplitFrom(s: string, cur: string): seq<string>
    decreases |s|
  {
    if s == [] then (if cur == [] then [] else [cur])
    else if IsSpace(s[0]) then (if cur == [] then [] else [cur]) + SplitFrom(s[1..], [])
    else SplitFrom(s[1..], cur + [s[0]])
  }

  /** `s.split()` with no separator: the maximal runs of non-whitespace characters, in order */
  function SplitWords(s: string): seq<string> {
    SplitFrom(s, [])
  }

  /** Characters without whitespace extend the word begun. */
  lemma {:induction false} SplitFromWord(w: string, rest: string, cur: string)
    requires NoSpace(w)
    ensures SplitFrom(w + rest, cur) == SplitFrom(rest, cur + w)
    decreases |w|
  {
    if w == [] {
      assert w + rest == rest && cur + w == cur;
    } else {
      assert (w + rest)[1..] == w[1..] + rest;
      SplitFromWord(w[1..], rest, cur + [w[0]]);
      assert cur + [w[0]] + w[1..] == cur + w;
    }
  }

  /** A word followed by a space splits off as the first element. */
  lemma SplitCons(w: string, rest: string)
    requires Word(w)
    ensures SplitWords(w + " " + rest) == [w] + SplitWords(rest)
  {
    assert w + " " + rest == w + (" " + rest);
    SplitFromWord(w, " " + rest, []);
    assert [] + w == w;
    assert (" " + rest)[1..] == rest;
  }

  /** A lone word splits into itself. */
  lemma SplitSingle(w: string)
    requires Word(w)
    ensures SplitWords(w) == [w]
  {
    assert w + [] == w;
    SplitFromWord(w, [], []);
    assert [] + w == w;
  }

  /** Three words, each followed by a space, split off in order. */
  lemma SplitThree(a: string, b: string, c: string, rest: string)
    requires Word(a) && Word(b) && Word(c)
    ensures SplitWords(a + " " + (b + " " + (c + " " + rest))) == [a, b, c] + SplitWords(rest)
  {
    SplitCons(c, rest);
    SplitCons(b, c + " " + rest);
    SplitCons(a, b + " " + (c + " " + rest));
  }

  // ---------------------------------------------------------------------------
  // The commands
  // ---------------------------------------------------------------------------

  const RepoUrl := "https://github.com/Iscgrou/bilman"
  const ProjectDir := "./bilman"
  const CommitMessage := "Applied" + " " + "automated deployment fixes"

  /** `git clone {repo_url} {project_dir}` */
  function CloneArgv(url: string, dir: string): seq<string> {
    ["git", "clone", url, dir]
  }

  /** The clone command's text splits into its four arguments whenever the URL and directory hold no whitespace. */
  lemma CloneCommandSplit(url: string, dir: string)
    requires Word(url) && Word(dir)
    ensures SplitWords("git clone " + url + " " + dir) == CloneArgv(url, dir)
  {
    assert "git clone " + url + " " + dir == "git" + " " + ("clone" + " " + (url + " " + dir));
    PrintableWord("git");
    PrintableWord("clone");
    SplitThree("git", "clone", url, dir);
    SplitSingle(dir);
  }

  const AddArgv := ["git", "add", "."]
  const NpmInstallArgv := ["npm", "install"]
  const PipInstallArgv := ["pip", "install", "-r", "requirements.txt"]

  /** `git commit -m <message>`, the message passed to git as one argument */
  function CommitArgv(message: string): (argv: seq<string>)
    ensures |argv| == 4 && argv[3] == message
  {
    ["git", "commit", "-m", message]
  }

  /** The commit command as the source spells it, before `run_command` splits it */
  function CommitCommandAsWritten(message: string): string {
    "git commit -m \"" + message + "\""
  }

  /** What `run_command` passes to git for it: the text split at whitespace, the quotes kept */
  function CommitArgvAsWritten(message: string): seq<string> {
    SplitWords(CommitCommandAsWritten(message))
  }

  lemma CommitArgvAsWrittenPrefix(w: string, rest: string)
    requires Word(w)
    ensures |CommitArgvAsWritten(w + " " + rest)| >= 4
    ensures CommitArgvAsWritten(w + " " + rest)[3] == "\"" + w
  {
    var q := "\"" + w;
    assert CommitCommandAsWritten(w + " " + rest)
        == "git" + " " + ("commit" + " " + ("-m" + " " + (q + " " + (rest + "\""))));
    PrintableWord("git");
    PrintableWord("commit");
    PrintableWord("-m");
    QuotedWord(w);
    SplitThree("git", "commit", "-m", q + " " + (rest + "\""));
    SplitCons(q, rest + "\"");
  }

  /**
   * Splitting the commit command breaks apart any message with a space in it: git receives
   * the first word, with an opening quote attached, as the message, and the other words as
   * paths to commit.
   */
  lemma CommitMessageSplit(w: string, rest: string)
    requires Word(w)
    ensures |CommitArgvAsWritten(w + " " + rest)| >= 4
    ensures CommitArgvAsWritten(w + " " + rest)[3] == "\"" + w != w + " " + rest
    ensures CommitArgvAsWritten(w + " " + rest) != CommitArgv(w + " " + rest)
  {
    CommitArgvAsWrittenPrefix(w, rest);
    var m := w + " " + rest;
    var q := "\"" + w;
    if |q| == |m| {
      NoSpaceAt(w, |w| - 1);
      assert q[|q| - 1] == w[|w| - 1] && m[|m| - 1] == ' ';
    }
  }

  /** The deployer's own commit message is such a message: its first word is followed by a space. */
  lemma CommitMessageHasWords()
    ensures Word("Applied")
    ensures CommitMessage == "Applied" + " " + "automated deployment fixes"
  {
    var w := "Applied";
    forall j | 0 <= j < |w| ensures '!' <= w[j] <= '~' { }
    PrintableWord(w);
  }

  // ---------------------------------------------------------------------------
  // Deployment strategies
  // ---------------------------------------------------------------------------

  datatype Strategy = NodeStrategy | PythonStrategy | GenericStrategy

  /** package.json is looked for first, then requirements.txt; otherwise the generic copy. */
  function StrategyFor(ws: FixEngine.Workspace): (s: Strategy)
    ensures s.NodeStrategy? <==> FixEngine.Exists(ws, "package.json")
    ensures s.PythonStrategy? <==> !FixEngine.Exists(ws, "package.json") && FixEngine.Exists(ws, "requirements.txt")
    ensures s.GenericStrategy? <==> !FixEngine.Exists(ws, "package.json") && !FixEngine.Exists(ws, "requirements.txt")
  {
    if FixEngine.Exists(ws, "package.json") then NodeStrategy
    else if FixEngine.Exists(ws, "requirements.txt") then PythonStrategy
    else GenericStrategy
  }

  /** Whether a strategy succeeds: the install command's success, or for the generic one, the copy's */
  predicate StrategySucceeds(s: Strategy, run: Runner, dir: string, copySucceeds: bool) {
    match s
    case NodeStrategy => Succeeds(run, NpmInstallArgv, Some(dir))
    case PythonStrategy => Succeeds(run, PipInstallArgv, Some(dir))
    case GenericStrategy => copySucceeds
  }

  // ---------------------------------------------------------------------------
  // The deployer
  // ---------------------------------------------------------------------------

  datatype DeploymentStatus = DeploymentStatus(cloned: bool, analyzed: bool, fixed: bool, deployed: bool)

  const NotStarted := DeploymentStatus(false, false, false, false)

  /** The deployment settings handed to the configuration manager, in the source's key order */
  function SettingsOf(domain: string, username: string, password: string, deploymentTime: string): seq<(string, string)> {
    [("domain", domain), ("username", username), ("password", password), ("deployment_time", deploymentTime)]
  }

  class BilmanDeployer {
    const repoUrl: string
    const projectDir: string
    const analyzer: ProjectAnalyzer.ProjectAnalyzer
    const fixEngine: FixEngine.FixEngine
    var deploymentStatus: DeploymentStatus

    /** All four flags start false; the analyzer and the fix engine start empty. */
    constructor()
      ensures repoUrl == RepoUrl && projectDir == ProjectDir
      ensures deploymentStatus == NotStarted
      ensures fresh(analyzer) && analyzer.analysisResult == None
      ensures fresh(fixEngine) && fixEngine.fixesApplied == [] && fixEngine.templates == FixEngine.Standard
    {
      repoUrl := RepoUrl;
      projectDir := ProjectDir;
      analyzer := new ProjectAnalyzer.ProjectAnalyzer();
      fixEngine := new FixEngine.FixEngine();
      deploymentStatus := NotStarted;
    }

    /**
     * `main` once `BilmanDeployer()` has made the deployer: the steps run in order and the
     * first that fails ends the run.
     */
    method Run(env: Environment) returns (ok: bool, ghost stages: seq<Stage>)
      requires repoUrl == RepoUrl && projectDir == ProjectDir
      requires deploymentStatus == NotStarted && analyzer.analysisResult == None && fixEngine.fixesApplied == []
      modifies this, analyzer, fixEngine
      ensures ok == DeploymentRun(env, FixesFor(env, fixEngine.templates)).ok
      ensures deploymentStatus == DeploymentRun(env, FixesFor(env, fixEngine.templates)).status
      ensures stages == DeploymentRun(env, FixesFor(env, fixEngine.templates)).stages
    {
      ghost var fixes := FixesFor(env, fixEngine.templates);
      ghost var expected := DeploymentRun(env, fixes);
      stages := [CloneStage];
      var cloned := CloneRepository(env.run);
      if !cloned {
        assert expected == Deployment(false, NotStarted, [CloneStage]);
        return false, stages;
      }
      stages := [CloneStage, AnalyzeStage];
      var analysis, raised := AnalyzeProject(env.project, env.analysisReportSaved);
      if raised || analysis.None? {
        assert expected == Deployment(false, deploymentStatus, stages);
        return false, stages;
      }
      assert fixes == FixEngine.FixesOf(env.workspace, ProjectDir, analysis.value, env.rewrites, fixEngine.templates);
      stages := [CloneStage, AnalyzeStage, FixStage];
      var fixed, ws := FixIssues(env.run, analysis.value, env.workspace, env.rewrites);
      // `fix_issues` always reports success
      assert fixed;
      assert ws == fixes.ws;
      stages := [CloneStage, AnalyzeStage, FixStage, DeployStage];
      var deployed := DeployProject(env.run, ws, env.copySucceeds);
      if !deployed {
        assert expected == Deployment(false, deploymentStatus, stages);
        return false, stages;
      }
      stages := AllStages;
      ok := env.deploymentReportSaved;
      assert expected == Deployment(ok, deploymentStatus, stages);
    }

    /** `clone_repository`: `cloned` is set exactly when the clone command succeeds. */
    method CloneRepository(run: Runner) returns (ok: bool)
      modifies this
      ensures ok == Succeeds(run, CloneArgv(repoUrl, projectDir), None)
      ensures deploymentStatus == if ok then old(deploymentStatus).(cloned := true) else old(deploymentStatus)
    {
      var r := RunCommandResult(run(CloneArgv(repoUrl, projectDir), None));
      if r.success {
        deploymentStatus := deploymentStatus.(cloned := true);
        return true;
      }
      return false;
    }

    /**
     * `analyze_project`: None for a missing directory. Otherwise `analyzed` is set and the
     * report is written; when writing it fails, `raised` says the exception escapes.
     */
    method AnalyzeProject(project: Option<ProjectAnalyzer.Project>, reportSaved: bool)
      returns (r: Option<ProjectAnalyzer.Analysis>, raised: bool)
      modifies this, analyzer
      ensures raised <==> project.Some? && !reportSaved
      ensures r == if project.None? || raised then None
                   else Some(ProjectAnalyzer.AnalysisOf(projectDir, project.value, old(analyzer.analysisResult)))
      ensures analyzer.analysisResult
           == if project.None? then old(analyzer.analysisResult)
              else Some(ProjectAnalyzer.AnalysisOf(projectDir, project.value, old(analyzer.analysisResult)))
      ensures deploymentStatus == if project.Some? then old(deploymentStatus).(analyzed := true) else old(deploymentStatus)
    {
      if project.None? {
        return None, false;
      }
      var a := analyzer.Analyze(projectDir, project);
      deploymentStatus := deploymentStatus.(analyzed := true);
      if !reportSaved {
        return None, true;
      }
      return a, false;
    }

    /** `commit_changes`: true exactly when both `git add` and `git commit` succeed */
    method CommitChanges(run: Runner, message: string) returns (ok: bool)
      ensures ok <==> Succeeds(run, AddArgv, Some(projectDir)) && Succeeds(run, CommitArgv(message), Some(projectDir))
    {
      var added := RunCommandResult(run(AddArgv, Some(projectDir)));
      var committed := RunCommandResult(run(CommitArgv(message), Some(projectDir)));
      ok := added.success && committed.success;
    }

    /**
     * `fix_issues`: applies the fixes and commits them when `apply_fixes` reports success,
     * which alone sets `fixed`; it returns true whatever happened.
     */
    method FixIssues(run: Runner, a: ProjectAnalyzer.Analysis, ws: FixEngine.Workspace, rw: FixEngine.Rewrites)
      returns (ok: bool, ws': FixEngine.Workspace)
      modifies this, fixEngine
      ensures ok
      ensures ws' == FixEngine.FixesOf(ws, projectDir, a, rw, fixEngine.templates).ws
      ensures fixEngine.fixesApplied == old(fixEngine.fixesApplied) + FixEngine.FixesOf(ws, projectDir, a, rw, fixEngine.templates).log
      ensures deploymentStatus
           == if !FixEngine.FixesOf(ws, projectDir, a, rw, fixEngine.templates).escaped && fixEngine.fixesApplied != []
              then old(deploymentStatus).(fixed := true) else old(deploymentStatus)
    {
      var applied;
      applied, ws' := fixEngine.ApplyFixes(projectDir, ws, a, rw);
      if applied {
        deploymentStatus := deploymentStatus.(fixed := true);
        var _ := CommitChanges(run, CommitMessage);
        return true, ws';
      }
      return true, ws';
    }

    /** `setup_configuration`: the four settings handed to the configuration manager for the project directory */
    method SetupConfiguration(fs: ConfigManager.FileSystem, steps: seq<DirTree.Step>,
                              domain: string, username: string, password: string, deploymentTime: string)
      returns (ok: bool, fs': ConfigManager.FileSystem)
      ensures ok
      ensures fs' == ConfigManager.SetupSpec(fs, projectDir, ConfigManager.ConfigFilesOf(projectDir, steps),
                                             SettingsOf(domain, username, password, deploymentTime))
    {
      ok, fs' := ConfigManager.SetupConfig(fs, projectDir, steps, SettingsOf(domain, username, password, deploymentTime));
    }

    /** `deploy_project`: the strategy the project's files select; `deployed` is set exactly on its success. */
    method DeployProject(run: Runner, ws: FixEngine.Workspace, copySucceeds: bool) returns (ok: bool)
      modifies this
      ensures ok == StrategySucceeds(StrategyFor(ws), run, projectDir, copySucceeds)
      ensures deploymentStatus == if ok then old(deploymentStatus).(deployed := true) else old(deploymentStatus)
    {
      var success := false;
      if FixEngine.Exists(ws, "package.json") {
        success := DeployNodejs(run);
      } else if FixEngine.Exists(ws, "requirements.txt") {
        success := DeployPython(run);
      } else {
        success := copySucceeds;
      }
      if success {
        deploymentStatus := deploymentStatus.(deployed := true);
        return true;
      }
      return false;
    }

    method DeployNodejs(run: Runner) returns (ok: bool)
      ensures ok == Succeeds(run, NpmInstallArgv, Some(projectDir))
    {
      var r := RunCommandResult(run(NpmInstallArgv, Some(projectDir)));
      if !r.success {
        return false;
      }
      return true;
    }

    method DeployPython(run: Runner) returns (ok: bool)
      ensures ok == Succeeds(run, PipInstallArgv, Some(projectDir))
    {
      var r := RunCommandResult(run(PipInstallArgv, Some(projectDir)));
      if !r.success {
        return false;
      }
      return true;
    }
  }

  // ---------------------------------------------------------------------------
  // `main`
  // ---------------------------------------------------------------------------

  datatype Stage = CloneStage | AnalyzeStage | FixStage | DeployStage | ReportStage

  const AllStages := [CloneStage, AnalyzeStage, FixStage, DeployStage, ReportStage]

  /** What the steps of a deployment depend on */
  datatype Environment = Environment(
    run: Runner,
    /** the cloned directory as the analyzer sees it; None when it does not exist */
    project: Option<ProjectAnalyzer.Project>,
    /** whether writing analysis_report.json succeeds */
    analysisReportSaved: bool,
    /** the cloned files as the fix engine sees them */
    workspace: FixEngine.Workspace,
    rewrites: FixEngine.Rewrites,
    /** whether the generic strategy's copy succeeds */
    copySucceeds: bool,
    /** whether building and writing deployment_report.json succeeds */
    deploymentReportSaved: bool)

  /** A deployment's result: what `main` returns, the final flags, and the steps it began */
  datatype Deployment = Deployment(ok: bool, status: DeploymentStatus, stages: seq<Stage>)

  /**
   * What the fix step does to the cloned files: the engine's effect for the analysis of a
   * fresh analyzer (nothing, when there is no project and the step is never reached)
   */
  function FixesFor(env: Environment, t: FixEngine.Templates): FixEngine.Effect {
    if env.project.None? then FixEngine.Effect(env.workspace, [], false)
    else
      FixEngine.FixesOf(env.workspace, ProjectDir, ProjectAnalyzer.AnalysisOf(ProjectDir, env.project.value, None), env.rewrites, t)
  }

  /**
   * The steps of `main` in order, given what the fix step does: a failed clone, a failed
   * analysis or a failed deployment ends the run with False; the fix step never does.
   */
  function DeploymentRun(env: Environment, fixes: FixEngine.Effect): (r: Deployment)
    ensures 1 <= |r.stages| <= |AllStages| && r.stages == AllStages[..|r.stages|]
    ensures r.status.cloned <==> Succeeds(env.run, CloneArgv(RepoUrl, ProjectDir), None)
    ensures r.status.analyzed <==> r.status.cloned && env.project.Some?
    ensures r.status.fixed <==> FixStage in r.stages && !fixes.escaped && fixes.log != []
    ensures r.status.deployed <==> DeployStage in r.stages && StrategySucceeds(StrategyFor(fixes.ws), env.run, ProjectDir, env.copySucceeds)
    ensures r.status.fixed ==> r.status.analyzed
    ensures r.status.deployed ==> r.status.analyzed
    ensures AnalyzeStage in r.stages <==> r.status.cloned
    ensures FixStage in r.stages <==> r.status.analyzed && env.analysisReportSaved
    ensures DeployStage in r.stages <==> FixStage in r.stages
    ensures ReportStage in r.stages <==> r.status.deployed
    ensures r.ok <==> r.status.deployed && env.deploymentReportSaved
  {
    if !Succeeds(env.run, CloneArgv(RepoUrl, ProjectDir), None) then
      Deployment(false, NotStarted, [CloneStage])
    else
      var cloned := NotStarted.(cloned := true);
      if env.project.None? then Deployment(false, cloned, [CloneStage, AnalyzeStage])
      else
        var analyzed := cloned.(analyzed := true);
        if !env.analysisReportSaved then Deployment(false, analyzed, [CloneStage, AnalyzeStage])
        else
          var fixed := if !fixes.escaped && fixes.log != [] then analyzed.(fixed := true) else analyzed;
          if !StrategySucceeds(StrategyFor(fixes.ws), env.run, ProjectDir, env.copySucceeds) then
            Deployment(false, fixed, [CloneStage, AnalyzeStage, FixStage, DeployStage])
          else
            Deployment(env.deploymentReportSaved, fixed.(deployed := true), AllStages)
  }
}
