# BilmanClone deployer — a Dafny model

BilmanClone deploys a web project from a git repository onto a shared host. `main` in
`deploy.py` clones the repository, has the project analyzer describe it (type,
frameworks, structure, dependencies, configuration, likely problems, advice), lets the fix
engine rewrite the files that would stop it from running on the host, commits those
fixes, and installs the dependencies with the strategy the files select. The
configuration manager writes the chosen domain and credentials into every configuration
file it recognises and into a runtime `.bilman.env`, and reads them back. A small Flask
page validates the domain, username and password before they are saved.

This project models those five parts as Dafny modules and proves what each promises.

- `WebInterface` (`web_interface.dfy`) covers the domain and username validators. Each is
  stated twice: once as a definition and once as what Python's regular expression matches,
  including the `$` that also matches before a final newline. Proved equal. It also models
  the validation chain of `save_config` and `test_connection`, the password filter of
  `get_config`, and the last-50-lines tail of `get_logs`.
- `ConfigManager` (`config_manager.dfy`) models the file system as a map from path to
  content. Content is plain text, a parsed mapping (JSON, YAML) or INI sections, and some
  paths are read-only. All nine writers are proved to change only their own path, and to
  change nothing when they fail. The `.env`, JSON and INI updates are proved to
  merge the new values over the old ones. The appending updates (Python, generic) are
  proved idempotent. `setup_config` followed by `load_config` is proved to give back the
  settings.
- `ProjectAnalyzer` (`project_analyzer.dfy`) describes a project by its directory tree,
  its parsed `package.json` and the port numbers the port regular expression finds. Every
  step of `analyze` is a method of the `ProjectAnalyzer` class proved equal to a
  specification function. Lemmas state what those functions mean:
  - type priority;
  - the exact framework, database and port sets;
  - the file-count tallies;
  - one hard-coded issue per file at most;
  - the advice the recommendations contain.
- `FixEngine` (`fix_engine.dfy`) models the project directory as a value: file texts,
  directories, the `package.json` parse and the unwritable paths. Each fix is a function
  from the directory to the new directory, the log entries and whether an exception
  escaped. The `FixEngine` class accumulates `fixes_applied`. Lemmas cover:
  - which file each fix touches, and that it touches nothing else;
  - idempotence of the Django rewrite;
  - that nothing escapes when the created files can be written.
- `Deploy` (`deploy.dfy`) models commands as a function from argument vector and working
  directory to an outcome. `BilmanDeployer.Run` is proved to follow `DeploymentRun`, the
  stage-by-stage account of `main` with its early returns.
- `PyText`, `OrderedDicts`, `DirTree` and `Wrappers` hold the library: Python string
  operations (`strip`, `upper`, `lower`, `readlines`, `os.path`), insertion-ordered
  dictionaries, `os.walk` with in-place pruning, and `Option`.

The code and the design description of the repository disagree in places; the model
follows the code:

- The domain check accepts exactly one label of 3 to 63 characters, then one dot, then a
  top-level part of two or more letters. A name such as `vpn.example.com` is rejected
  (`WebInterface.SubdomainRejected`), and so is a label shorter than three characters.
- There is no e-mail field, no password complexity rule beyond eight characters, no
  confirmation field and no secret generator.
- `test_connection` checks the format of the credentials only; it connects to nothing.
- The logs endpoint returns the last 50 lines of one file; there is no cursor.
- `main` is a fixed chain of steps that stops at the first failure. There is no step
  graph, no retry and no classification of failures beyond that.
- The web page stores a password hash, but `BilmanDeployer.setup_configuration` hands the
  password to the configuration manager as given.

## Model

| member | source | states |
|---|---|---|
| `WebInterface.WithoutFinalNewline` | web_interface.py:174-184 | the text the `$`-anchored patterns must cover is the input, or the input less one final newline |
| `WebInterface.UsernameMatchesPattern` | web_interface.py:180-184 | the username definition (3 to 20 characters from letters, digits and `_`) holds exactly when `re.match` of the pattern succeeds |
| `WebInterface.UsernameWithNewline` | web_interface.py:183-184 | a valid username followed by one newline is also accepted, because `$` matches before a final newline |
| `WebInterface.DomainValidMatches` | web_interface.py:174-178 | every domain the definition accepts is matched by the pattern |
| `WebInterface.DomainMatchValid` | web_interface.py:174-178 | every domain the pattern matches is accepted by the definition |
| `WebInterface.DomainMatchesPattern` | web_interface.py:174-178 | the domain definition holds if and only if the pattern matches |
| `WebInterface.ExampleDomainAccepted` | web_interface.py:177-178 | `example.com` is accepted, with or without a final newline |
| `WebInterface.DomainAtFirstDot` | web_interface.py:177-178 | a name is valid exactly when the part before its first dot is a valid label and the rest a valid top-level part |
| `WebInterface.SubdomainRejected` | web_interface.py:177-178 | a name with a second dot is rejected |
| `WebInterface.ShortLabelRejected` | web_interface.py:177-178 | a label shorter than three characters is rejected |
| `WebInterface.HyphenFirstRejected` | web_interface.py:177-178 | a label that starts with a hyphen is rejected |
| `WebInterface.FirstMissing` | web_interface.py:50-53 | the field reported missing is the first required field that is empty; none is reported exactly when all are filled |
| `WebInterface.ConfigData` | web_interface.py:71-77 | the stored record has the five keys in order, the given domain and username, and the hash in place of the password |
| `WebInterface.PrepareSave` | web_interface.py:49-77 | a save is accepted exactly when all fields are filled, the stripped domain and username are valid and the password has at least 8 characters; what is stored is the stripped values and the password's hash; a refusal carries one of the four validation messages |
| `WebInterface.MissingFieldReportedFirst` | web_interface.py:50-53 | when the k-th required field is the first empty one, the error names that field |
| `WebInterface.FormatChecksInOrder` | web_interface.py:55-68 | with all fields filled, the domain error comes before the username error, which comes before the password-length error |
| `WebInterface.SaveConfig` | web_interface.py:44-90 | a refused request answers with its validation message and writes nothing; an accepted one is saved by `setup_config` into `./bilman` and answers "Configuration saved successfully" |
| `WebInterface.SavedConfigLoadsBack` | web_interface.py:79-90 | in a project without configuration files, the answer is success exactly when the request is accepted, never "Failed to save configuration", and loading afterwards gives back the stored record with the stripped domain and the hashed password |
| `WebInterface.RefusalIsNotSaveFailure` | web_interface.py:50-68 | no validation message is the failed-save answer |
| `WebInterface.TestConnection` | web_interface.py:134-151 | success carries the success message; a failure is either missing or malformed credentials |
| `WebInterface.TestConnectionSucceedsIff` | web_interface.py:138-151 | the test succeeds exactly when all three credentials are present and well-formed |
| `WebInterface.TestConnectionAgreesWithSave` | web_interface.py:138-151 | the test succeeds exactly on the requests a save would accept |
| `WebInterface.RequiredPresent` | web_interface.py:50-53 | the required-field loop passes exactly when domain, username and password are all non-empty |
| `WebInterface.WithoutPassword` | web_interface.py:35 | the filtered record has no password key and agrees with the stored record on every other key |
| `WebInterface.GetConfig` | web_interface.py:28-38 | the answer never contains the password; it holds every other stored setting, or nothing when no configuration exists |
| `WebInterface.GetLogs` | web_interface.py:158-168 | no log file gives no lines; otherwise the answer is the last min(50, n) of the n lines the file has once text mode has turned `\r\n` and `\r` into `\n` |
| `WebInterface.GetLogsIsTail` | web_interface.py:166 | the returned lines, joined, are a suffix of the log text as text mode reads it, and hold no carriage return |
| `WebInterface.CarriageReturnEndsLogLine` | web_interface.py:165-166 | a lone `\r` ends a line: the log `a\rb` is answered with the lines `a\n` and `b` |
| `ConfigManager.FindConfigFiles` | config_manager.py:54-64 | the walk's loop returns exactly the list the specification of the search gives |
| `ConfigManager.FoundAreConfigFiles` | config_manager.py:58-61 | every path found has a supported name or extension |
| `ConfigManager.ConfigFileFound` | config_manager.py:58-61 | every file with a supported name or extension in any walked directory is found |
| `ConfigManager.HandlerConfigJson` | config_manager.py:74-75 | `config.json` goes to the JSON handler |
| `ConfigManager.HandlerConfigYaml` | config_manager.py:76-77 | `config.yaml` goes to the YAML handler |
| `ConfigManager.HandlerConfigYml` | config_manager.py:76-77 | `config.yml` goes to the YAML handler |
| `ConfigManager.HandlerConfigIni` | config_manager.py:78-79 | `config.ini` goes to the INI handler |
| `ConfigManager.HandlerEnv` | config_manager.py:80-81 | `.env` goes to the `.env` handler |
| `ConfigManager.HandlerSettingsPy` | config_manager.py:82-83 | `settings.py` goes to the Python handler |
| `ConfigManager.SelectedFileHandler` | config_manager.py:66-86 | a found path is dispatched by its base name to the handler that name calls for |
| `ConfigManager.ConfigNameHandler` | config_manager.py:69-86 | for every supported name, the dispatch on name and lower-cased extension picks the handler that name calls for |
| `ConfigManager.SupportedNameHandler` | config_manager.py:74-83 | a name with a handler of its own gets that handler |
| `ConfigManager.ConfExtensionIsGeneric` | config_manager.py:84-86 | names ending in `.config` or `.conf` go to the generic handler |
| `ConfigManager.EnvEntry` | config_manager.py:169-173 | blank, comment and `=`-less lines give no entry; any other line is split at its first `=` |
| `ConfigManager.EnvRenamed` | config_manager.py:176-178 | each setting keeps its value and position under its `BILMAN_` upper-case name |
| `ConfigManager.EnvLines` | config_manager.py:183-184 | one `KEY=value` line per variable, in order |
| `ConfigManager.UpdateEnvSpec` | config_manager.py:162-189 | the `.env` update changes only its own file, and changes nothing when it fails |
| `ConfigManager.WriteEnvLines` | config_manager.py:181-184 | the loop writes the header followed by the variables' lines |
| `ConfigManager.ParseEnvLines` | config_manager.py:166-173 | the loop's dictionary is the one the line entries give, later entries overriding earlier ones |
| `ConfigManager.UpdateEnvConfig` | config_manager.py:162-189 | the method does what the `.env` update specification says |
| `ConfigManager.EnvUpdateGet` | config_manager.py:176-178 | after the update, each renamed key holds its new value and every other key its old one |
| `ConfigManager.EnvEntryOfLine` | config_manager.py:169-184 | a written `KEY=value` line parses back to the same key and value |
| `ConfigManager.CommentLineIgnored` | config_manager.py:171 | a comment line gives no entry |
| `ConfigManager.EnvTextReadsBack` | config_manager.py:181-184 | reading the written text line by line gives back the variables, in order |
| `ConfigManager.EnvHeaderIsComment` | config_manager.py:182 | both headers the manager writes are comment lines |
| `ConfigManager.EnvFileReadsBack` | config_manager.py:166-184 | reading the written `.env` file back in text mode and parsing it gives back the variables it was written from, when no key or value holds a line break (`\n` or `\r`) |
| `ConfigManager.CreateEnvFile` | config_manager.py:263-278 | the method writes the runtime `.bilman.env` the specification describes |
| `ConfigManager.UnprefixedLower` | config_manager.py:298-300 | every key `load_config` takes from the runtime file is lower case |
| `ConfigManager.LoadConfig` | config_manager.py:280-306 | the JSON file comes first, then the runtime `.env` file, else no configuration |
| `ConfigManager.UnprefixedRenamed` | config_manager.py:270-300 | stripping `BILMAN_` and lowering the case undoes the renaming of lower-case keys |
| `ConfigManager.RuntimeTextReadsBack` | config_manager.py:268-300 | the runtime file's text reads back as the settings it was written from |
| `ConfigManager.JsonAndEnvPathsDiffer` | config_manager.py:284-290 | the JSON file and the runtime `.env` file are different paths |
| `ConfigManager.EnvRoundTrip` | config_manager.py:263-303 | without a JSON file, loading after writing the runtime file gives back the settings |
| `ConfigManager.PythonLines` | config_manager.py:202-207 | one assignment line per setting, in order |
| `ConfigManager.GenericLines` | config_manager.py:233-234 | one `bilman.<key>=<value>` line per setting, in order |
| `ConfigManager.AppendOnce` | config_manager.py:209-211 | the block is appended only when the marker is absent; the old content is always kept as a prefix |
| `ConfigManager.UpdateAppendSpec` | config_manager.py:209-215 | the appending update changes only its own file, and changes nothing when it fails |
| `ConfigManager.UpdatePythonSpec` | config_manager.py:191-220 | the Python update changes only its own file, and changes nothing when it fails |
| `ConfigManager.UpdateGenericSpec` | config_manager.py:222-247 | the generic update changes only its own file, and changes nothing when it fails |
| `ConfigManager.BuildPythonBlock` | config_manager.py:200-207 | the loop builds the marker header followed by the assignment lines |
| `ConfigManager.UpdatePythonConfig` | config_manager.py:191-220 | the method does what the Python update specification says |
| `ConfigManager.BuildGenericBlock` | config_manager.py:231-234 | the loop builds the marker header followed by the `bilman.<key>=<value>` lines |
| `ConfigManager.UpdateGenericConfig` | config_manager.py:222-247 | the method does what the generic update specification says |
| `ConfigManager.AppendUpdateIdempotent` | config_manager.py:209-215 | a second appending update after a successful one changes nothing |
| `ConfigManager.PythonUpdateIdempotent` | config_manager.py:209-211 | updating a Python file twice is the same as once |
| `ConfigManager.GenericUpdateIdempotent` | config_manager.py:236-238 | updating a generic file twice is the same as once |
| `ConfigManager.MergeInto` | config_manager.py:101-106 | the merging write changes only its own file, and changes nothing when it fails |
| `ConfigManager.UpdateJsonSpec` | config_manager.py:92-111 | the JSON update changes only its own file, and changes nothing when it fails |
| `ConfigManager.UpdateYamlSpec` | config_manager.py:113-135 | the YAML update changes only its own file, and changes nothing when it fails |
| `ConfigManager.CommentedYamlStartsEmpty` | config_manager.py:117-123 | a YAML file holding one comment line loads as `{}`, so the update writes exactly the settings |
| `ConfigManager.MergeUpdate` | config_manager.py:95-106 | the merge succeeds exactly when the old file parses and is writable; then each new key holds its new value and every other key its old one |
| `ConfigManager.LowerKeys` | config_manager.py:150-151 | option names are lower-cased, values and order kept |
| `ConfigManager.UpdateIniSpec` | config_manager.py:137-160 | the INI update changes only its own file, and changes nothing when it fails |
| `ConfigManager.UpdateIniConfig` | config_manager.py:137-160 | the method does what the INI update specification says |
| `ConfigManager.IniUpdate` | config_manager.py:146-155 | the INI update succeeds exactly when the file parses, is writable and every value survives `%` interpolation; it then merges the lower-cased settings into section `bilman` and leaves every other section alone |
| `ConfigManager.KeyReferenceAt` | config_manager.py:151 | the length of the `%(name)s` reference that starts a value: "%(", a non-empty name without ")", then ")s"; None exactly when no such reference starts it |
| `ConfigManager.RemoveKeyReferences` | config_manager.py:151 | removing the references never lengthens a value |
| `ConfigManager.PercentFreePrefixKept` | config_manager.py:151 | text without `%` in front of a value comes through reference removal unchanged |
| `ConfigManager.LeadingReferenceRemoved` | config_manager.py:151 | a leading `%(name)s` reference is removed whole, leaving the rest |
| `ConfigManager.LeadingPercentKept` | config_manager.py:151 | a leading `%` not followed by `(` is kept by reference removal |
| `ConfigManager.PercentFreeInterpolates` | config_manager.py:151 | a value without `%` passes interpolation |
| `ConfigManager.KeyReferenceInterpolates` | config_manager.py:151 | a `%(name)s` reference between texts without `%` passes interpolation |
| `ConfigManager.LonePercentRefused` | config_manager.py:151 | a single `%` that neither escapes a `%` nor starts a reference (as in `100%`) makes `config.set` refuse the value |
| `ConfigManager.EscapedPercentAccepted` | config_manager.py:151 | a `%%` escape between texts without `%` (as in `100%%`) passes interpolation |
| `ConfigManager.BlankIsOnlyComments` | config_manager.py:143-144 | a file of whitespace consists of blank lines only |
| `ConfigManager.UpdateConfigFileSpec` | config_manager.py:66-90 | updating one found file changes only that file, and nothing when it fails |
| `ConfigManager.UpdateConfigFile` | config_manager.py:66-90 | the method does what the per-file specification says |
| `ConfigManager.UpdateAll` | config_manager.py:38-39 | updating the found files changes no other path and no permission |
| `ConfigManager.UpdateFound` | config_manager.py:37-39 | the loop updates the found files in order, as the specification says |
| `ConfigManager.SetupConfig` | config_manager.py:28-52 | setup always reports success and leaves the file system as the specification of setup says |
| `ConfigManager.SetupCreatesJsonOnlyWhenNothingFound` | config_manager.py:36-42 | `bilman_config.json` is left alone when configuration files were found, and is created with the settings when none were |
| `ConfigManager.SetupWritesEnvFile` | config_manager.py:44-45 | setup always writes the runtime `.bilman.env` |
| `ConfigManager.SetupThenLoad` | config_manager.py:28-48 | loading after setup gives back exactly the settings |
| `ProjectAnalyzer.Keyed` | project_analyzer.py:65-72 | a framework is listed exactly when its package is a dependency |
| `ProjectAnalyzer.Mentioned` | project_analyzer.py:93-100 | a framework is listed exactly when the requirements mention it |
| `ProjectAnalyzer.DetectedAmong` | project_analyzer.py:52-129 | a kind is listed exactly when its indicator files are present |
| `ProjectAnalyzer.NoteAllPriority` | project_analyzer.py:84-128 | the first detected kind becomes primary unless one is already set |
| `ProjectAnalyzer.NoteAllTechnologies` | project_analyzer.py:55-129 | every detected kind adds its technology, in detection order |
| `ProjectAnalyzer.ProjectTypePriority` | project_analyzer.py:44-132 | the primary type is the first detected of Node.js, Python, PHP, Go, Ruby, static, else unknown; the technologies are all detected kinds in that order |
| `ProjectAnalyzer.NodeJsWins` | project_analyzer.py:53-54 | a project with `package.json` is a Node.js project |
| `ProjectAnalyzer.PythonPrimary` | project_analyzer.py:79-86 | a project is primarily Python exactly when Python is detected and Node.js is not |
| `ProjectAnalyzer.NodeFrameworksDetected` | project_analyzer.py:61-74 | `nextjs` comes from `next` or `nextjs`, each other framework from its own package; none twice |
| `ProjectAnalyzer.MergedDependencyKeys` | project_analyzer.py:61-62 | the merged dependencies hold a package exactly when the dependencies or the dev-dependencies do |
| `ProjectAnalyzer.PythonFrameworksDetected` | project_analyzer.py:89-100 | a Python framework is listed exactly when the lower-cased requirements contain its name; none twice |
| `ProjectAnalyzer.CountFileFacts` | project_analyzer.py:161-174 | counting one file adds one to the total, the type count and the important list exactly when the file qualifies for each |
| `ProjectAnalyzer.ImportantCounted` | project_analyzer.py:144-165 | every important file is also counted |
| `ProjectAnalyzer.CountFilesFacts` | project_analyzer.py:161-174 | counting a directory's files adds the number of files in each class |
| `ProjectAnalyzer.CountStepFacts` | project_analyzer.py:155-179 | counting one walk step adds its files and its subdirectories, and records the directory unless it is the root |
| `ProjectAnalyzer.CountStepsFacts` | project_analyzer.py:155-179 | over the whole walk, the counters equal the number of qualifying files and directories |
| `ProjectAnalyzer.StructureTallies` | project_analyzer.py:134-182 | the structure's totals are the tallies over the pruned walk; the directory count equals the directories recorded |
| `ProjectAnalyzer.FileTypesBounded` | project_analyzer.py:165-170 | the file-type counts never add up to more than the total file count |
| `ProjectAnalyzer.StructureSkipsPruned` | project_analyzer.py:155-157 | no directory below a hidden directory, `node_modules`, `__pycache__` or `vendor` is walked |
| `ProjectAnalyzer.RequirementsExact` | project_analyzer.py:212-217 | a requirement is listed exactly when it is a non-blank, non-comment line of the file, stripped |
| `ProjectAnalyzer.ListStepsMembers` | project_analyzer.py:252-267 | a path is listed exactly when some walked file passes the test |
| `ProjectAnalyzer.ListStepsEmpty` | project_analyzer.py:252-267 | the list is empty exactly when no walked file passes the test |
| `ProjectAnalyzer.NoteDbsMembers` | project_analyzer.py:297-300 | a database is added exactly when the text mentions one of its indicators; none twice |
| `ProjectAnalyzer.DbsInMembers` | project_analyzer.py:290-302 | a database is detected in a directory exactly when one of its scanned files indicates it |
| `ProjectAnalyzer.DbsInStepsMembers` | project_analyzer.py:287-302 | over the walk, a database is detected exactly when some scanned file indicates it; none twice |
| `ProjectAnalyzer.DatabaseConfigExact` | project_analyzer.py:277-304 | the result is None or a non-empty list without repeats holding exactly the indicated databases |
| `ProjectAnalyzer.ValidPorts` | project_analyzer.py:330-332 | the kept numbers are exactly the matches between 1000 and 65535 |
| `ProjectAnalyzer.Dedup` | project_analyzer.py:338 | the same numbers, each once |
| `ProjectAnalyzer.PortConfigExact` | project_analyzer.py:315-338 | the ports are exactly the valid matches, each once; None exactly when no match is valid |
| `ProjectAnalyzer.FirstPattern` | project_analyzer.py:383-390 | the pattern reported is the first one the text contains |
| `ProjectAnalyzer.HardcodedPerFile` | project_analyzer.py:376-392 | a scanned file gives at most one issue, exactly when it contains a pattern, naming the first pattern found and the file |
| `ProjectAnalyzer.HardcodedAtMostOnePerFile` | project_analyzer.py:376-392 | the hard-coded issues are never more than the files, and are all of kind `hardcoded_config` |
| `ProjectAnalyzer.LargeIssueNamesAtMostFive` | project_analyzer.py:416-421 | there is a large-files issue exactly when some file is too large; it names the first five of them at most |
| `ProjectAnalyzer.FirstAnalysisIssues` | project_analyzer.py:344-403 | on a first analysis no `missing_file` issue is raised and the missing-environment issue always is |
| `ProjectAnalyzer.PortNames` | project_analyzer.py:461 | each port is written in decimal, in order |
| `ProjectAnalyzer.RecommendationsEndWithGeneral` | project_analyzer.py:463-471 | the recommendations always end with the four general items |
| `ProjectAnalyzer.IssueAdviceKinds` | project_analyzer.py:444-449 | issue advice is only the hard-coded or the environment advice |
| `ProjectAnalyzer.HardcodedAdviceGiven` | project_analyzer.py:444-447 | the hard-coded advice is given exactly when some issue is of kind `hardcoded_config` |
| `ProjectAnalyzer.DjangoOrFlask` | project_analyzer.py:437-442 | the Django and the Flask advice are never both given |
| `ProjectAnalyzer.ProjectAnalyzer.constructor` | project_analyzer.py:17-18 | a new analyzer has no analysis result |
| `ProjectAnalyzer.ProjectAnalyzer.Analyze` | project_analyzer.py:20-42 | a missing directory gives None and keeps the old result; otherwise the result is the full analysis, which is also stored |
| `ProjectAnalyzer.ProjectAnalyzer.AnalyzeStructure` | project_analyzer.py:134-182 | the walk's loop computes the structure the specification gives |
| `ProjectAnalyzer.ProjectAnalyzer.CountDirectory` | project_analyzer.py:155-179 | one walk step counted as the specification says |
| `ProjectAnalyzer.ProjectAnalyzer.CountFilesIn` | project_analyzer.py:161-174 | one directory's files counted as the specification says |
| `ProjectAnalyzer.ProjectAnalyzer.CountOneFile` | project_analyzer.py:161-174 | one file counted as the specification says |
| `ProjectAnalyzer.ProjectAnalyzer.TallyFile` | project_analyzer.py:165-174 | one file counted given whether it is counted and whether it is important |
| `ProjectAnalyzer.ProjectAnalyzer.CountFileType` | project_analyzer.py:168-170 | the extension's count goes up by one |
| `ProjectAnalyzer.ProjectAnalyzer.ParseRequirements` | project_analyzer.py:211-217 | the loop lists the requirements the specification gives |
| `ProjectAnalyzer.ProjectAnalyzer.AnalyzeDependencies` | project_analyzer.py:184-234 | the dependencies the specification gives |
| `ProjectAnalyzer.ProjectAnalyzer.AnalyzeConfiguration` | project_analyzer.py:236-275 | the configuration the specification gives |
| `ProjectAnalyzer.ProjectAnalyzer.ConfigurationFilesIn` | project_analyzer.py:253-267 | the environment and Docker files of one directory, as the specification says |
| `ProjectAnalyzer.ProjectAnalyzer.DetectDatabaseConfig` | project_analyzer.py:277-304 | the databases the specification gives |
| `ProjectAnalyzer.ProjectAnalyzer.DatabasesIn` | project_analyzer.py:291-302 | one directory's databases, as the specification says |
| `ProjectAnalyzer.ProjectAnalyzer.NoteDatabases` | project_analyzer.py:297-300 | one file's databases, as the specification says |
| `ProjectAnalyzer.ProjectAnalyzer.DetectPortConfig` | project_analyzer.py:306-338 | the ports the specification gives |
| `ProjectAnalyzer.ProjectAnalyzer.IdentifyPotentialIssues` | project_analyzer.py:340-423 | the issues the specification gives, judged against the stored previous result |
| `ProjectAnalyzer.ProjectAnalyzer.HardcodedWalk` | project_analyzer.py:376-392 | the hard-coded issues of the whole walk, as the specification says |
| `ProjectAnalyzer.ProjectAnalyzer.HardcodedInDirectory` | project_analyzer.py:377-392 | the hard-coded issues of one directory, as the specification says |
| `ProjectAnalyzer.ProjectAnalyzer.HardcodedIssue` | project_analyzer.py:378-392 | the hard-coded issue of one file, as the specification says |
| `ProjectAnalyzer.ProjectAnalyzer.LargeFilesIn` | project_analyzer.py:406-414 | the files over 100 MiB, in walk order |
| `ProjectAnalyzer.ProjectAnalyzer.GenerateRecommendations` | project_analyzer.py:425-471 | the stored result gets the recommendations the specification gives, nothing else changes |
| `ProjectAnalyzer.ProjectAnalyzer.AddIssueAdvice` | project_analyzer.py:444-449 | the issue advice is appended to the recommendations |
| `FixEngine.FirstExisting` | fix_engine.py:84-89 | the index found is the first name that exists; None exactly when none does |
| `FixEngine.StartMain` | fix_engine.py:64-71 | the start script runs the declared main file when it exists below the project (its path resolved part by part), else the first existing candidate, else the declared name |
| `FixEngine.PlainPathExists` | fix_engine.py:66 | a plain file name exists below the project exactly when the project holds it |
| `FixEngine.DotSlashPathExists` | fix_engine.py:66 | `./name` exists exactly when `name` does |
| `FixEngine.UpAndBackPathExists` | fix_engine.py:66 | `d/../name`, for a directory `d`, exists exactly when `name` does |
| `FixEngine.EmptyPathExists` | fix_engine.py:66 | the empty path names the project directory, which exists |
| `FixEngine.TrailingSlashNeedsDirectory` | fix_engine.py:66 | `name/` does not exist when `name` is not a directory |
| `FixEngine.ParentPathOutside` | fix_engine.py:66 | a path starting with `../` leaves the project and is taken not to exist |
| `FixEngine.DotSlashMainKept` | fix_engine.py:64-73 | a declared `./name` that exists is run as written, whatever entry points exist |
| `FixEngine.EmptyMainKept` | fix_engine.py:64-73 | a declared empty `main` names the project directory, so the script is `node ` |
| `FixEngine.PackageFix` | fix_engine.py:53-81 | the `package.json` fix changes no file text, directory or permission and never escapes |
| `FixEngine.NodeMainFix` | fix_engine.py:91-123 | the main-file fix changes at most the text of its own file |
| `FixEngine.NodeFix` | fix_engine.py:48-89 | the Node.js fixes change no directory or permission and never escape |
| `FixEngine.StartScriptKept` | fix_engine.py:63 | an existing start script is kept and nothing is logged |
| `FixEngine.StartScriptAddedWhenMissing` | fix_engine.py:63-74 | a missing start script is added as `node` plus the detected main file, and logged |
| `FixEngine.NodeMainFileOnlyFirst` | fix_engine.py:84-89 | only the first existing main file can be changed |
| `FixEngine.DjangoFix` | fix_engine.py:208-242 | the Django fix changes no directory, permission or manifest and never escapes |
| `FixEngine.DjangoTextClean` | fix_engine.py:216-234 | after the rewrite, neither the empty `ALLOWED_HOSTS` nor `DEBUG = True` remains |
| `FixEngine.DjangoIdempotent` | fix_engine.py:208-239 | rewriting the settings a second time changes nothing and logs nothing |
| `FixEngine.DjangoImportOnlyWithDebug` | fix_engine.py:224-234 | `import os` is added only when `DEBUG = True` was replaced |
| `FixEngine.DjangoFixTwice` | fix_engine.py:208-242 | applying the Django fix to its own result does nothing |
| `FixEngine.FirstFlaskPattern` | fix_engine.py:152-162 | the Flask pattern used is the first that matches; None exactly when none does |
| `FixEngine.FrameworkStep` | fix_engine.py:149-191 | the framework step changes no directory, permission or manifest |
| `FixEngine.PythonMainFix` | fix_engine.py:140-206 | the fix of one main file changes no directory, permission or manifest and never escapes |
| `FixEngine.PythonMainFixes` | fix_engine.py:129-134 | the main-file loop changes no directory, permission or manifest and never escapes |
| `FixEngine.RunScriptFix` | fix_engine.py:490-538 | writing `run.py` changes no directory or permission |
| `FixEngine.PythonFix` | fix_engine.py:125-138 | the Python fixes change no directory or permission; which files they write is `PythonFixByMainFiles` |
| `FixEngine.PythonMainFixesNoneExist` | fix_engine.py:129-134 | where no main file exists, the main-file loop does nothing |
| `FixEngine.PythonFixByMainFiles` | fix_engine.py:125-138 | with a main file present the Python fixes are the main-file fixes and create no `run.py`; with none present they are exactly the creation of `run.py`, which escapes exactly when `run.py` cannot be written and otherwise writes the run script and logs it |
| `FixEngine.FlaskFixedAtMostOnce` | fix_engine.py:158-162 | a Flask main file logs the `app.run` fix at most once |
| `FixEngine.FlaskRewriteFirstOnly` | fix_engine.py:158-162 | only the first matching Flask pattern is substituted; no match leaves the text alone |
| `FixEngine.PhpFix` | fix_engine.py:244-259 | the PHP fix changes no directory or permission |
| `FixEngine.HtaccessOnlyIfAbsent` | fix_engine.py:248-259 | `.htaccess` is written and logged only when absent; the fix escapes exactly when it must write an unwritable `.htaccess` |
| `FixEngine.EnvFix` | fix_engine.py:320-336 | the environment fix changes no directory or permission |
| `FixEngine.EnvOnlyWithoutEnvironmentFiles` | fix_engine.py:324-336 | `.env` is written and logged only when the project has no environment file |
| `FixEngine.HardcodedOf` | fix_engine.py:344 | the filtered issues are all of kind `hardcoded_config` |
| `FixEngine.GuideLines` | fix_engine.py:355-356 | one guide line per issue, in order |
| `FixEngine.HardcodedFix` | fix_engine.py:338-374 | the guide fix changes no directory or permission |
| `FixEngine.HardcodedOfEmpty` | fix_engine.py:344-346 | the filter is empty exactly when no issue is of kind `hardcoded_config` |
| `FixEngine.GuideOnlyWithHardcoded` | fix_engine.py:343-374 | the guide is written only when there is a hard-coded issue, and then lists those issues |
| `FixEngine.GuideListsIssues` | fix_engine.py:355-356 | the guide's issue lines read back one per issue, each a `- ` bullet of its description |
| `FixEngine.StartupFix` | fix_engine.py:376-488 | writing `start.sh` changes no directory or permission; which script is written for each type is `StartupScriptByType` |
| `FixEngine.StartupScriptByType` | fix_engine.py:376-488 | Node.js gets the Node.js `start.sh`, Python the Django, else Flask, else plain Python one, any other type nothing; the write escapes exactly when `start.sh` cannot be written, leaving the files as they were, and otherwise logs the script created |
| `FixEngine.HostBindingFix` | fix_engine.py:261-318 | the host-binding pass changes no directory, permission or manifest and never escapes |
| `FixEngine.HostBindingEntries` | fix_engine.py:315 | one log entry per rewritten file, in order, naming the file as `os.path.relpath` shows it |
| `FixEngine.ShownBelowBilman` | fix_engine.py:315 | below the deployer's `./bilman` a file `app.py` is shown as `bilman/app.py` |
| `FixEngine.HostBindingsAllLogged` | fix_engine.py:311-315 | when every rewritten file can be written, each is logged once, in walk order, under its path relative to the working directory |
| `FixEngine.HostBindingOnlyListed` | fix_engine.py:274-318 | a file the pass does not rewrite keeps its text |
| `FixEngine.TypeFix` | fix_engine.py:26-33 | the type-specific fixes change no directory or permission |
| `FixEngine.CommonFixes` | fix_engine.py:35-39 | the common fixes change no directory or permission |
| `FixEngine.FixesOf` | fix_engine.py:20-46 | all fixes together change no directory or permission |
| `FixEngine.NoEscapeWhenWritable` | fix_engine.py:24-46 | when the files the fixes create can be written, no exception escapes |
| `FixEngine.FixEngine.constructor` | fix_engine.py:17-18 | a new engine has applied no fixes |
| `FixEngine.FixEngine.GetFixesApplied` | fix_engine.py:540-542 | the answer is the fixes applied so far |
| `FixEngine.FixEngine.ApplyFixes` | fix_engine.py:20-46 | the files become what the fixes make of them, the log grows by their entries, and success means no escape and a non-empty log |
| `FixEngine.FixEngine.ApplyTypeFixes` | fix_engine.py:25-33 | the type-specific fixes, as the specification says |
| `FixEngine.FixEngine.ApplyCommonFixes` | fix_engine.py:35-39 | the common fixes, as the specification says |
| `FixEngine.FixEngine.FixNodejsIssues` | fix_engine.py:48-89 | the Node.js fixes, as the specification says |
| `FixEngine.FixEngine.FixPackageJson` | fix_engine.py:52-81 | the `package.json` fix, as the specification says |
| `FixEngine.FixEngine.DetectMainFile` | fix_engine.py:64-71 | the main file, as the specification says |
| `FixEngine.FixEngine.FixNodejsMainFile` | fix_engine.py:91-123 | the main-file fix, as the specification says |
| `FixEngine.FixEngine.FixPythonIssues` | fix_engine.py:125-138 | the Python fixes, as the specification says |
| `FixEngine.FixEngine.FixPythonMainFiles` | fix_engine.py:129-134 | the main-file loop, as the specification says |
| `FixEngine.FixEngine.FixPythonMainFile` | fix_engine.py:140-206 | the fix of one main file, as the specification says |
| `FixEngine.FixEngine.FixForFramework` | fix_engine.py:149-191 | the framework step, as the specification says |
| `FixEngine.FixEngine.AddServerStartup` | fix_engine.py:193-198 | the server-startup step, as the specification says |
| `FixEngine.FixEngine.FixFlaskRun` | fix_engine.py:150-162 | the Flask rewrite, logged exactly when a pattern matches |
| `FixEngine.FixEngine.FixDjangoSettings` | fix_engine.py:208-242 | the Django fix, as the specification says |
| `FixEngine.FixEngine.CreatePythonRunScript` | fix_engine.py:490-538 | the `run.py` fix, as the specification says |
| `FixEngine.FixEngine.FixPhpIssues` | fix_engine.py:244-259 | the PHP fix, as the specification says |
| `FixEngine.FixEngine.FixPortBinding` | fix_engine.py:261-318 | the host-binding pass, as the specification says |
| `FixEngine.FixEngine.FixEnvironmentConfig` | fix_engine.py:320-336 | the environment fix, as the specification says |
| `FixEngine.FixEngine.FixHardcodedConfigs` | fix_engine.py:338-374 | the guide fix, as the specification says |
| `FixEngine.FixEngine.FilterHardcoded` | fix_engine.py:343-344 | the loop keeps the `hardcoded_config` issues, in order |
| `FixEngine.FixEngine.BuildGuide` | fix_engine.py:347-370 | the loop builds the guide the specification gives |
| `FixEngine.FixEngine.CreateStartupScript` | fix_engine.py:376-488 | the startup-script fix, as the specification says |
| `Deploy.RunCommandResult` | deploy.py:45-66 | success is exactly a zero exit code; a timeout or an exception fails with empty output and its message |
| `Deploy.CloneCommandSplit` | deploy.py:78 | splitting the clone command gives `git clone <url> <dir>` |
| `Deploy.CommitArgv` | deploy.py:138 | the commit command passes the message as one argument |
| `Deploy.CommitMessageSplit` | deploy.py:50 | as written, splitting the commit command gives git the message's first word, with its quote, in place of the message |
| `Deploy.CommitMessageHasWords` | deploy.py:122 | the commit message used by the fix step has more than one word |
| `Deploy.StrategyFor` | deploy.py:167-180 | Node.js when `package.json` exists, else Python when `requirements.txt` exists, else the generic copy |
| `Deploy.BilmanDeployer.constructor` | deploy.py:32-43 | a new deployer has the fixed repository and directory, all flags false, and a fresh analyzer and engine |
| `Deploy.BilmanDeployer.Run` | deploy.py:249-303 | the deployment ends with the result, flags and steps `DeploymentRun` gives |
| `Deploy.BilmanDeployer.CloneRepository` | deploy.py:68-86 | `cloned` is set exactly when the clone command succeeds |
| `Deploy.BilmanDeployer.AnalyzeProject` | deploy.py:88-109 | a missing directory gives None; otherwise `analyzed` is set and the analysis returned unless writing the report raises |
| `Deploy.BilmanDeployer.CommitChanges` | deploy.py:128-145 | the commit succeeds exactly when both `git add` and `git commit` succeed |
| `Deploy.BilmanDeployer.FixIssues` | deploy.py:111-126 | the step always succeeds; the files are fixed and `fixed` is set exactly when the engine reports success |
| `Deploy.BilmanDeployer.SetupConfiguration` | deploy.py:147-158 | the four settings are written for the project directory, as the configuration setup specification says |
| `Deploy.BilmanDeployer.DeployProject` | deploy.py:160-188 | the selected strategy runs; `deployed` is set exactly when it succeeds |
| `Deploy.BilmanDeployer.DeployNodejs` | deploy.py:190-201 | succeeds exactly when `npm install` does |
| `Deploy.BilmanDeployer.DeployPython` | deploy.py:203-212 | succeeds exactly when `pip install -r requirements.txt` does |
| `Deploy.DeploymentRun` | deploy.py:249-303 | the steps begun are a prefix of clone, analyze, fix, deploy, report; each flag is set exactly when its step succeeds after all earlier ones; the result is true exactly when the deployment succeeded and the report was written |
| `PyText.Strip` | config_manager.py:170 | the stripped text is the text with its leading and trailing whitespace removed, and neither starts nor ends with whitespace |
| `PyText.Upper` | config_manager.py:177 | each character is upper-cased in place |
| `PyText.Lower` | project_analyzer.py:92 | each character is lower-cased in place |
| `PyText.ReadLines` | web_interface.py:166 | the lines join back to the text, and each but the last ends with a newline |
| `PyText.Basename` | config_manager.py:70 | the base name is the longest ending of the path without `/` |
| `PyText.BasenameOfJoin` | config_manager.py:61 | the base name of a joined path is the name joined |
| `PyText.Suffix` | config_manager.py:69 | a non-empty extension is the ending from the last `.`, which is neither the first nor the last character; an empty one means there is no such `.` |
| `OrderedDicts.PutGet` | project_analyzer.py:170 | after an assignment, the key holds the new value and every other key its old one |
| `OrderedDicts.PutAllGet` | config_manager.py:102 | after `update`, each new key holds its new value and every other key its old one |
| `OrderedDicts.PutAllKeys` | project_analyzer.py:61-62 | after `update`, a key is present exactly when it was in either dictionary |
| `DirTree.WalkTop` | project_analyzer.py:155-157 | the walk starts at the root |
| `DirTree.WalkTopDeeper` | project_analyzer.py:155-157 | the root is reported first and only once: every later step is a sub-directory |
| `DirTree.WalkTopKept` | project_analyzer.py:157 | every directory on a walked path passed the pruning test |

## Findings

| source | as written | input that shows it | evidently intended | confidence | as-written member | corrected member |
|---|---|---|---|---|---|---|
| deploy.py:138 | `commit_changes` builds `git commit -m "<message>"` and `run_command` splits it at whitespace (deploy.py:50), so the quotes are not interpreted | the message "Applied automated deployment fixes" passed from deploy.py:122: git gets `"Applied` as the message and the remaining words as pathspecs | the whole message as one argument | not executed | `Deploy.CommitMessageSplit` | `Deploy.CommitArgv` |

`Deploy.BilmanDeployer.CommitChanges` runs the corrected argument vector. As written, the
commit fails on the stray pathspecs, but `fix_issues` ignores the commit's result, so
nothing in the run's outcome depends on it.

## Left out

- File system, subprocesses, `os.walk`, `open` and `shutil` are inputs. The directory tree, the
  file system map, the workspace and the command runner are given to the model, not
  performed.
- Logging, `print` and the log messages themselves are not modelled.
- The JSON, YAML and INI libraries: files are modelled by their parsed content (an ordered
  mapping, or sections of options); the text `json.dump`, `yaml.dump` and
  `configparser.write` produce is not modelled, and every setting value is a string.
- Regular expressions other than the two validators are inputs given by their effect: the
  `.listen` and `uvicorn.run` substitutions, the host-binding pass, the port-number
  search. Flask patterns are matched as literal text.
- `ProjectAnalyzer.ProjectAnalyzer.AnalyzeDependencies`: the `system` list, which the source
  fills from `apt-get install` lines of the `Dockerfile`, is not modelled.
- `ProjectAnalyzer.ProjectAnalyzer.AnalyzeConfiguration`: the `config_files` list, which the
  source fills with `Path.match` globs, is left empty.
- `ProjectAnalyzer.Dedup`: `list(set(...))` has no defined order in Python; the model keeps
  the first occurrence of each port, in order.
- `IdentifyPotentialIssues` reads the analyzer's previous result, as the source does; on
  a first analysis that result is empty, so the missing-file checks see no structure. The
  model keeps this behaviour.
- `chmod` of the startup scripts, the `date` timestamps and `generate_password_hash` are
  not modelled; the hash and the clock are parameters.
- The text of exception messages (`str(e)`, `Failed to parse ...`) is not modelled; an
  escaped exception is a flag.
- `generate_status_report`, and the writes of `analysis_report.json` and
  `deployment_report.json`, are boolean inputs that say whether the write succeeds.
- The `git config` commands whose results the source ignores, and the generic strategy's
  copy (a boolean input).
- The `os.environ` writes of `save_config`.
- `get_status`, `index`, the error handlers and the Flask start-up of `web_interface.py`,
  and the separate server script, are not part of this model.
- Case mapping covers ASCII letters only.
- The texts the engine writes (start scripts, `.htaccess`, `.env`, the guide, `run.py`) are
  the `FixEngine.Standard` constants, holding the texts `fix_engine.py` writes; no
  property of their wording is proved.
- `main` is the constructor followed by `Run`; `setup_configuration` is never called from
  `main`, so it is modelled on its own.
- The Django fix edits the `settings.py` beside the main file; the main files the engine
  tries are all in the project root, so that is the root's `settings.py`.
- `FixEngine.ShownPath`: `os.path.relpath` is modelled only for a project directory written
  relative to the working directory without `..` or inner `.` components. That covers the
  deployer's `./bilman`; an absolute directory or one with `..` is not modelled.
- `ConfigManager.UpdateYamlSpec`: `yaml.safe_load(f) or {}` also turns the other empty YAML
  documents into `{}`: `null`, `~`, `false`, `[]`, `''`, a bare `---`. Only a file of blank
  and `#` comment lines is modelled as empty. YAML's own whitespace rules (space and tab
  only) are taken to be those of `str.strip`.
- `ConfigManager.UpdateIniSpec`: a file of blank and `#`/`;` comment lines is read as no
  sections, as `configparser` does; INI files that parse are held by their sections, so
  parsing itself is not modelled.
- `WebInterface.SaveConfig`: the `except` answer of `save_config` (web_interface.py:92-94)
  is not modelled. It covers a body that is not a JSON object and non-string fields, which
  the map of strings cannot express. `setup_config` reports success whatever happens to
  the files, so the "Failed to save configuration" answer is never given.
- `Deploy.BilmanDeployer.CommitChanges` runs the corrected `git commit -m <message>` argument
  vector, not the one `deploy.py:138` produces; see Findings for the as-written vector.
- `ConfigManager.SetupConfig`: the walk of the project directory and the file system map are
  two inputs (as are those of `WebInterface.SaveConfig` and
  `Deploy.BilmanDeployer.SetupConfiguration`). Nothing says the walk lists exactly the
  files the map holds.
- `FixEngine.StartMain`: the declared `main` is resolved below the project part by part, as
  `os.stat` does; an absolute path, or one whose `..` climbs out of the project, is taken
  not to exist, since nothing outside the project is modelled, and symbolic links are not
  modelled. A `main` that is not a string, or `scripts` that is not an object (the
  `TypeError` the source catches), cannot be expressed.
- `FixEngine.HostBindingFix`: the rewritten files are given as a list of paths and texts;
  nothing ties that list to the walk of the workspace the pass reads or to the patterns'
  effect on it.
- `Deploy.Environment`: the analyzer's view of the clone (`project`) and the fix engine's
  (`workspace`) are two inputs. Nothing ties them to the same directory tree.
- `Deploy.BilmanDeployer.CloneRepository`: the `shutil.rmtree` of an existing
  `./bilman` before the clone is not modelled; the clone is the runner's outcome.
- `FixEngine.PackageFix`: rewriting `package.json` updates the workspace's parsed manifest
  only. Its text in `texts` is not rewritten; no later fix reads it, since the host-binding
  pass looks at `.py`, `.js`, `.php`, `.rb` and `.go` files only.
- `ProjectAnalyzer.PackageInfo`: a `package.json` whose `dependencies` or `devDependencies`
  is not an object cannot be represented; both are string-to-string dictionaries.
