/**
 * The checks behind the configuration web page: the domain and username validators, the
 * validation chain of the save and test-connection handlers, the password filter on
 * configuration reads, and the tail of the deployment log.
 *
 * Request bodies are maps from field name to string. The Flask routing, the JSON
 * responses and the environment-variable writes are not part of this model; the password
 * hash and the clock are parameters.
 */
module WebInterface {
  import opened Wrappers
  import opened PyText
  import opened OrderedDicts
  import DirTree
  import ConfigManager

  // ---------------------------------------------------------------------------
  // Character classes and the `$` anchor of Python's `re`
  // ---------------------------------------------------------------------------

  predicate IsAsciiLetter(c: char) {
    'a' <= c <= 'z' || 'A' <= c <= 'Z'
  }

  predicate IsAsciiDigit(c: char) {
    '0' <= c <= '9'
  }

  /** `[a-zA-Z0-9]` */
  predicate IsAlnum(c: char) {
    IsAsciiLetter(c) || IsAsciiDigit(c)
  }

  /** `[a-zA-Z0-9_]` */
  predicate IsWordChar(c: char) {
    IsAlnum(c) || c == '_'
  }

  /** `[a-zA-Z0-9-]` */
  predicate IsLabelChar(c: char) {
    IsAlnum(c) || c == '-'
  }

  /** Python's `$` (without MULTILINE) holds at the end of the text and just before a final "\n". */
  predicate DollarAt(s: string, k: int) {
    k == |s| || (k == |s| - 1 && 0 <= k && s[k] == '\n')
  }

  /** The text that a pattern ending in `$` must cover: one final "\n" may be left over. */
  function WithoutFinalNewline(s: string): (b: string)
    ensures b == s || (EndsWith(s, "\n") && b == s[..|s| - 1])
  {
    if s != [] && s[|s| - 1] == '\n' then s[..|s| - 1] else s
  }

  // ---------------------------------------------------------------------------
  // The username validator
  // ---------------------------------------------------------------------------

  /** `_validate_username`: 3 to 20 characters from `[A-Za-z0-9_]` */
  predicate ValidUsername(u: string) {
    var b := WithoutFinalNewline(u);
    3 <= |b| <= 20 && forall i :: 0 <= i < |b| ==> IsWordChar(b[i])
  }

  /** What `re.match(r'^[a-zA-Z0-9_]{3,20}$', u)` succeeds on: some repetition count reaches `$`. */
  ghost predicate UsernamePatternMatches(u: string) {
    exists k :: 3 <= k <= 20 && k <= |u| && (forall i :: 0 <= i < k ==> IsWordChar(u[i])) && DollarAt(u, k)
  }

  lemma UsernameMatchesPattern(u: string)
    ensures ValidUsername(u) <==> UsernamePatternMatches(u)
  {
    var b := WithoutFinalNewline(u);
    if ValidUsername(u) {
      assert forall i :: 0 <= i < |b| ==> u[i] == b[i];
      assert DollarAt(u, |b|);
    }
    if UsernamePatternMatches(u) {
      var k :| 3 <= k <= 20 && k <= |u| && (forall i :: 0 <= i < k ==> IsWordChar(u[i])) && DollarAt(u, k);
      assert b == u[..k] by {
        if k == |u| { assert u[k - 1] != '\n'; assert u[..k] == u; }
      }
    }
  }

  /** The validator also takes a valid name followed by one "\n", since `$` matches before it. */
  lemma UsernameWithNewline(u: string)
    requires ValidUsername(u) && !EndsWith(u, "\n")
    ensures ValidUsername(u + "\n")
  {
    assert (u + "\n")[..|u|] == u;
  }

  // ---------------------------------------------------------------------------
  // The domain validator
  // ---------------------------------------------------------------------------

  /** One label: 3 to 63 characters from `[A-Za-z0-9-]`, alphanumeric at both ends */
  predicate ValidLabel(l: string) {
    && 3 <= |l| <= 63
    && IsAlnum(l[0]) && IsAlnum(l[|l| - 1])
    && forall j :: 0 <= j < |l| ==> IsLabelChar(l[j])
  }

  /** The top-level part: at least two ASCII letters */
  predicate ValidTld(t: string) {
    |t| >= 2 && forall j :: 0 <= j < |t| ==> IsAsciiLetter(t[j])
  }

  /**
   * `_validate_domain`: exactly one label, one ".", then the top-level part. The label
   * admits no ".", so the "." is the first one in the text.
   */
  predicate ValidDomain(d: string) {
    var b := WithoutFinalNewline(d);
    match Find(b, ".")
    case None => false
    case Some(i) => ValidLabel(b[..i]) && ValidTld(b[i + 1..])
  }

  /**
   * `[a-zA-Z0-9][a-zA-Z0-9-]{m}[a-zA-Z0-9]\.[a-zA-Z]{t}` followed by `$`, matched from
   * the start of `d`
   */
  ghost predicate DomainMatchAt(d: string, m: int, t: int) {
    var n := m + 3 + t;
    && 1 <= m && 0 <= t && n <= |d|
    && IsAlnum(d[0])
    && (forall i :: 1 <= i <= m ==> IsLabelChar(d[i]))
    && IsAlnum(d[m + 1])
    && d[m + 2] == '.'
    && (forall i :: m + 3 <= i < n ==> IsAsciiLetter(d[i]))
    && DollarAt(d, n)
  }

  /** What `re.match(pattern, d)` at web_interface.py line 177 succeeds on */
  ghost predicate DomainPatternMatches(d: string) {
    exists m, t :: 1 <= m <= 61 && 2 <= t && DomainMatchAt(d, m, t)
  }

  lemma DomainValidMatches(d: string)
    requires ValidDomain(d)
    ensures DomainPatternMatches(d)
  {
    var b := WithoutFinalNewline(d);
    var i := Find(b, ".").value;
    OccursAtChar(b, '.', i);
    var m, t := i - 2, |b| - i - 1;
    assert b[..i][0] == b[0] == d[0];
    assert b[..i][i - 1] == b[i - 1] == d[m + 1];
    assert d[m + 2] == b[i];
    assert forall j :: 1 <= j <= m ==> IsLabelChar(d[j]) by {
      forall j | 1 <= j <= m ensures IsLabelChar(d[j]) { assert b[..i][j] == b[j] == d[j]; }
    }
    assert forall j :: m + 3 <= j < m + 3 + t ==> IsAsciiLetter(d[j]) by {
      forall j | m + 3 <= j < m + 3 + t ensures IsAsciiLetter(d[j]) { assert b[i + 1..][j - i - 1] == b[j] == d[j]; }
    }
    assert DollarAt(d, |b|);
    assert DomainMatchAt(d, m, t);
  }

  /** The label a match covers holds no "." and is a valid label. */
  lemma LabelOfMatch(d: string, m: int, t: int)
    requires 1 <= m <= 61 && DomainMatchAt(d, m, t)
    ensures '.' !in d[..m + 2] && ValidLabel(d[..m + 2])
  {
    var l := d[..m + 2];
    forall j | 0 <= j < |l| ensures IsLabelChar(l[j]) {
      assert l[j] == d[j];
    }
  }

  /** What a match leaves after the ".", without its final newline, is its top-level part. */
  lemma TldOfMatch(d: string, m: int, t: int)
    requires 2 <= t && DomainMatchAt(d, m, t)
    ensures ValidTld(WithoutFinalNewline(d[m + 3..]))
  {
    var rest := d[m + 3..];
    var tl := d[m + 3..m + 3 + t];
    assert WithoutFinalNewline(rest) == tl by {
      if m + 3 + t == |d| {
        assert rest[|rest| - 1] == d[|d| - 1];
        assert rest == tl;
      } else {
        assert rest[..|rest| - 1] == tl;
      }
    }
    forall j | 0 <= j < |tl| ensures IsAsciiLetter(tl[j]) {
      assert tl[j] == d[m + 3 + j];
    }
  }

  lemma DomainMatchValid(d: string)
    requires DomainPatternMatches(d)
    ensures ValidDomain(d)
  {
    var m, t :| 1 <= m <= 61 && 2 <= t && DomainMatchAt(d, m, t);
    assert d == d[..m + 2] + "." + d[m + 3..];
    LabelOfMatch(d, m, t);
    TldOfMatch(d, m, t);
    DomainAtFirstDot(d[..m + 2], d[m + 3..]);
  }

  /** The computed check and the pattern's meaning agree on every input. */
  lemma DomainMatchesPattern(d: string)
    ensures ValidDomain(d) <==> DomainPatternMatches(d)
  {
    if ValidDomain(d) { DomainValidMatches(d); }
    if DomainPatternMatches(d) { DomainMatchValid(d); }
  }

  lemma ExampleDomainAccepted()
    ensures ValidDomain("example.com")
    ensures ValidDomain("example.com\n")
  {
    var s := "example.com";
    assert DomainMatchAt(s, 5, 3);
    DomainMatchesPattern(s);
    var s' := "example.com\n";
    assert DomainMatchAt(s', 5, 3);
    DomainMatchesPattern(s');
  }

  /**
   * A name is judged by its label before the first "." and by the rest, without the one
   * final newline that `$` lets through.
   */
  lemma DomainAtFirstDot(l: string, t: string)
    requires '.' !in l
    ensures ValidDomain(l + "." + t) <==> ValidLabel(l) && ValidTld(WithoutFinalNewline(t))
  {
    var d := l + "." + t;
    var t' := WithoutFinalNewline(t);
    assert WithoutFinalNewline(d) == l + "." + t' by {
      if t != [] && t[|t| - 1] == '\n' {
        assert d[..|d| - 1] == l + "." + t';
      }
    }
    var b := l + "." + t';
    FindCharAt(l, '.', t');
    assert b[..|l|] == l && b[|l| + 1..] == t';
  }

  /** A name with a second "." is rejected, as the label may not hold one: subdomains are refused. */
  lemma SubdomainRejected(l: string, t: string, i: nat)
    requires '.' !in l && i < |t| && t[i] == '.'
    ensures !ValidDomain(l + "." + t)
  {
    DomainAtFirstDot(l, t);
    var t' := WithoutFinalNewline(t);
    assert i < |t'| && t'[i] == '.';
  }

  /** A label of fewer than three characters is too short. */
  lemma ShortLabelRejected(l: string, t: string)
    requires '.' !in l && |l| < 3
    ensures !ValidDomain(l + "." + t)
  {
    DomainAtFirstDot(l, t);
  }

  /** A label may not start with "-". */
  lemma HyphenFirstRejected(l: string, t: string)
    requires '.' !in l && l != [] && l[0] == '-'
    ensures !ValidDomain(l + "." + t)
  {
    DomainAtFirstDot(l, t);
  }

  // ---------------------------------------------------------------------------
  // The save and test-connection handlers
  // ---------------------------------------------------------------------------

  /** The JSON answer of a handler: `{'success': True, 'message': …}` or `{'success': False, 'error': …}` */
  datatype Response = Ok(message: string) | Failed(error: string)

  const RequiredFields: seq<string> := ["domain", "username", "password"]

  /** `data.get(field, '')` */
  function FieldOf(data: map<string, string>, field: string): string {
    if field in data then data[field] else ""
  }

  /** The first of `fields` that is missing or empty in `data` (`not data.get(field)`) */
  function FirstMissing(data: map<string, string>, fields: seq<string>): (r: Option<string>)
    ensures r.Some? ==> r.value in fields && FieldOf(data, r.value) == ""
    ensures r.Some? ==> exists k :: 0 <= k < |fields| && fields[k] == r.value && forall j :: 0 <= j < k ==> FieldOf(data, fields[j]) != ""
    ensures r.None? <==> forall j :: 0 <= j < |fields| ==> FieldOf(data, fields[j]) != ""
  {
    if fields == [] then None
    else if FieldOf(data, fields[0]) == "" then Some(fields[0])
    else
      var r := FirstMissing(data, fields[1..]);
      if r.Some? then
        var k :| 0 <= k < |fields[1..]| && fields[1..][k] == r.value && forall j :: 0 <= j < k ==> FieldOf(data, fields[1..][j]) != "";
        assert fields[k + 1] == r.value;
        assert forall j :: 0 <= j < k + 1 ==> FieldOf(data, fields[j]) != "" by {
          forall j | 0 <= j < k + 1 ensures FieldOf(data, fields[j]) != "" { if j > 0 { assert fields[j] == fields[1..][j - 1]; } }
        }
        r
      else
        assert forall j :: 0 <= j < |fields| ==> FieldOf(data, fields[j]) != "" by {
          forall j | 0 <= j < |fields| ensures FieldOf(data, fields[j]) != "" { if j > 0 { assert fields[j] == fields[1..][j - 1]; } }
        }
        r
  }

  /** What `save_config` does with a request: refuse it with a message, or store `config_data` */
  datatype SaveStep = Reject(error: string) | Store(configData: Dict<string, string>)

  /** The record written for an accepted request (web_interface.py lines 71-77) */
  function ConfigData(domain: string, username: string, passwordHash: string, timestamp: string): (cfg: Dict<string, string>)
    ensures Keys(cfg) == ["domain", "username", "password", "deployment_timestamp", "configured_by"]
    ensures Get(cfg, "domain") == Some(domain) && Get(cfg, "username") == Some(username)
    ensures Get(cfg, "password") == Some(passwordHash)
  {
    var cfg := [("domain", domain), ("username", username), ("password", passwordHash),
      ("deployment_timestamp", timestamp), ("configured_by", "web_interface")];
    assert IndexOf(cfg, "domain") == Some(0);
    assert IndexOf(cfg, "username") == Some(1);
    assert cfg[1].0[0] != "password"[0];
    assert cfg[0].0 != "password" && cfg[1].0 != "password" && cfg[2].0 == "password";
    assert IndexOf(cfg, "password") == Some(2);
    cfg
  }

  /**
   * The validation chain of `save_config`: required fields first, in order; then the
   * stripped domain, the stripped username and the unstripped password length.
   */
  /** The messages a refused save answers with */
  predicate ValidationMessage(e: string) {
    || StartsWith(e, "Missing required field: ")
    || e == "Invalid domain format"
    || e == "Invalid username format (3-20 alphanumeric characters)"
    || e == "Password must be at least 8 characters long"
  }

  function PrepareSave(data: map<string, string>, hash: string -> string, timestamp: string): (r: SaveStep)
    ensures r.Reject? ==> ValidationMessage(r.error)
    ensures r.Store? <==>
      && (forall j :: 0 <= j < |RequiredFields| ==> FieldOf(data, RequiredFields[j]) != "")
      && ValidDomain(Strip(FieldOf(data, "domain")))
      && ValidUsername(Strip(FieldOf(data, "username")))
      && |FieldOf(data, "password")| >= 8
    ensures r.Store? ==> (r.configData ==
      ConfigData(Strip(FieldOf(data, "domain")), Strip(FieldOf(data, "username")), hash(FieldOf(data, "password")), timestamp))
  {
    match FirstMissing(data, RequiredFields)
    case Some(f) =>
      var e := "Missing required field: " + f;
      assert e[..|"Missing required field: "|] == "Missing required field: ";
      Reject(e)
    case None =>
      var domain := Strip(FieldOf(data, "domain"));
      var username := Strip(FieldOf(data, "username"));
      var password := FieldOf(data, "password");
      if !ValidDomain(domain) then Reject("Invalid domain format")
      else if !ValidUsername(username) then Reject("Invalid username format (3-20 alphanumeric characters)")
      else if |password| < 8 then Reject("Password must be at least 8 characters long")
      else
        Store(ConfigData(domain, username, hash(password), timestamp))
  }

  /** A missing or empty field is reported before any format is checked, the first one in order. */
  lemma MissingFieldReportedFirst(data: map<string, string>, hash: string -> string, timestamp: string, k: nat)
    requires k < |RequiredFields| && FieldOf(data, RequiredFields[k]) == ""
    requires forall j :: 0 <= j < k ==> FieldOf(data, RequiredFields[j]) != ""
    ensures PrepareSave(data, hash, timestamp) == Reject("Missing required field: " + RequiredFields[k])
  {
    var r := FirstMissing(data, RequiredFields);
    var k' :| 0 <= k' < |RequiredFields| && RequiredFields[k'] == r.value && forall j :: 0 <= j < k' ==> FieldOf(data, RequiredFields[j]) != "";
    assert k' == k;
  }

  /** Once every field is present, the first failing format check decides the message. */
  lemma FormatChecksInOrder(data: map<string, string>, hash: string -> string, timestamp: string)
    requires forall j :: 0 <= j < |RequiredFields| ==> FieldOf(data, RequiredFields[j]) != ""
    ensures !ValidDomain(Strip(FieldOf(data, "domain"))) ==> PrepareSave(data, hash, timestamp) == Reject("Invalid domain format")
    ensures ValidDomain(Strip(FieldOf(data, "domain"))) && !ValidUsername(Strip(FieldOf(data, "username"))) ==>
      PrepareSave(data, hash, timestamp) == Reject("Invalid username format (3-20 alphanumeric characters)")
    ensures ValidDomain(Strip(FieldOf(data, "domain"))) && ValidUsername(Strip(FieldOf(data, "username"))) && |FieldOf(data, "password")| < 8 ==>
      PrepareSave(data, hash, timestamp) == Reject("Password must be at least 8 characters long")
  {
    assert FirstMissing(data, RequiredFields) == None;
  }

  /** The directory `save_config` configures */
  const BilmanDir: string := "./bilman"

  /** The answer of `save_config` and the files it leaves */
  datatype SaveOutcome = SaveOutcome(response: Response, fs: ConfigManager.FileSystem)

  /**
   * `save_config` on a project whose directory walk is `steps`: a refused request answers
   * with its message and writes nothing; an accepted one is handed to `setup_config` for
   * `./bilman`, which reports success, so the answer is the success message.
   */
  function SaveConfig(data: map<string, string>, hash: string -> string, timestamp: string,
                      fs: ConfigManager.FileSystem, steps: seq<DirTree.Step>): (r: SaveOutcome)
    ensures PrepareSave(data, hash, timestamp).Reject? ==> r == SaveOutcome(Failed(PrepareSave(data, hash, timestamp).error), fs)
    ensures PrepareSave(data, hash, timestamp).Store? ==>
      && r.response == Ok("Configuration saved successfully")
      && r.fs == ConfigManager.SetupSpec(fs, BilmanDir, ConfigManager.ConfigFilesOf(BilmanDir, steps),
                                         PrepareSave(data, hash, timestamp).configData)
  {
    match PrepareSave(data, hash, timestamp)
    case Reject(e) => SaveOutcome(Failed(e), fs)
    case Store(cfg) =>
      SaveOutcome(Ok("Configuration saved successfully"),
                  ConfigManager.SetupSpec(fs, BilmanDir, ConfigManager.ConfigFilesOf(BilmanDir, steps), cfg))
  }

  /**
   * In a project without configuration files, whose `bilman_config.json` and `.bilman.env`
   * can be written, a request is answered with success exactly when it is accepted, and
   * loading the configuration afterwards gives back the record stored, with the password's
   * hash in place of the password.
   */
  lemma SavedConfigLoadsBack(data: map<string, string>, hash: string -> string, timestamp: string,
                             fs: ConfigManager.FileSystem, steps: seq<DirTree.Step>)
    requires ConfigManager.PlainNames(steps) && ConfigManager.ConfigFilesOf(BilmanDir, steps) == []
    requires JoinPath(BilmanDir, "bilman_config.json") !in fs.readOnly && JoinPath(BilmanDir, ".bilman.env") !in fs.readOnly
    ensures SaveConfig(data, hash, timestamp, fs, steps).response.Ok? <==> PrepareSave(data, hash, timestamp).Store?
    ensures SaveConfig(data, hash, timestamp, fs, steps).response != Failed("Failed to save configuration")
    ensures PrepareSave(data, hash, timestamp).Store? ==>
      var cfg := PrepareSave(data, hash, timestamp).configData;
      && ConfigManager.LoadConfigOf(SaveConfig(data, hash, timestamp, fs, steps).fs, BilmanDir) == Some(cfg)
      && Get(cfg, "domain") == Some(Strip(FieldOf(data, "domain")))
      && Get(cfg, "password") == Some(hash(FieldOf(data, "password")))
  {
    var p := PrepareSave(data, hash, timestamp);
    if p.Store? {
      ConfigManager.SetupThenLoad(fs, BilmanDir, steps, p.configData);
    } else {
      RefusalIsNotSaveFailure(data, hash, timestamp);
    }
  }

  /** No validation message reads as the answer for a failed save. */
  lemma RefusalIsNotSaveFailure(data: map<string, string>, hash: string -> string, timestamp: string)
    ensures PrepareSave(data, hash, timestamp).Reject? ==> PrepareSave(data, hash, timestamp).error != "Failed to save configuration"
  {
    var failure := "Failed to save configuration";
    assert failure[0] == 'F' && failure[..|"Missing required field: "|] != "Missing required field: ";
  }

  /** `test_connection`: format checks only, on the stripped domain and username */
  function TestConnection(data: map<string, string>): (r: Response)
    ensures r.Ok? ==> r.message == "Connection test successful"
    ensures r.Failed? ==> r.error in {"Missing credentials", "Invalid credentials format"}
  {
    var domain := Strip(FieldOf(data, "domain"));
    var username := Strip(FieldOf(data, "username"));
    var password := FieldOf(data, "password");
    if domain == "" || username == "" || password == "" then Failed("Missing credentials")
    else if ValidDomain(domain) && ValidUsername(username) && |password| >= 8 then Ok("Connection test successful")
    else Failed("Invalid credentials format")
  }

  /** The connection test passes exactly when the three values are usable. */
  lemma TestConnectionSucceedsIff(data: map<string, string>)
    ensures TestConnection(data).Ok? <==>
      && Strip(FieldOf(data, "domain")) != "" && Strip(FieldOf(data, "username")) != ""
      && FieldOf(data, "password") != ""
      && ValidDomain(Strip(FieldOf(data, "domain"))) && ValidUsername(Strip(FieldOf(data, "username")))
      && |FieldOf(data, "password")| >= 8
  {
  }

  /**
   * The two handlers agree: a request passes the connection test exactly when
   * `save_config` would store it.
   */
  lemma TestConnectionAgreesWithSave(data: map<string, string>, hash: string -> string, timestamp: string)
    ensures TestConnection(data).Ok? <==> PrepareSave(data, hash, timestamp).Store?
  {
    var d := FieldOf(data, "domain");
    var u := FieldOf(data, "username");
    if ValidDomain(Strip(d)) && ValidUsername(Strip(u)) {
      StripEmpty(d);
      StripEmpty(u);
      assert Strip(d) != "" && Strip(u) != "";
      assert d != "" && u != "";
    }
    RequiredPresent(data);
  }

  /** Every required field is present and non-empty exactly when each of the three is. */
  lemma RequiredPresent(data: map<string, string>)
    ensures (forall j :: 0 <= j < |RequiredFields| ==> FieldOf(data, RequiredFields[j]) != "") <==>
      FieldOf(data, "domain") != "" && FieldOf(data, "username") != "" && FieldOf(data, "password") != ""
  {
    if FieldOf(data, "domain") != "" && FieldOf(data, "username") != "" && FieldOf(data, "password") != "" {
      forall j | 0 <= j < |RequiredFields| ensures FieldOf(data, RequiredFields[j]) != "" {
        assert RequiredFields[j] in {"domain", "username", "password"};
      }
    }
    assert RequiredFields[0] == "domain" && RequiredFields[1] == "username" && RequiredFields[2] == "password";
  }

  // ---------------------------------------------------------------------------
  // Configuration reads and the log tail
  // ---------------------------------------------------------------------------

  /** The entries of a configuration other than `password`, in order */
  function WithoutPassword(config: Dict<string, string>): (r: Dict<string, string>)
    ensures "password" !in Keys(r)
    ensures forall k :: k != "password" ==> Get(r, k) == Get(config, k)
  {
    if config == [] then []
    else
      var rest := WithoutPassword(config[1..]);
      assert config == [config[0]] + config[1..];
      assert forall k :: Get(config, k) == if config[0].0 == k then Some(config[0].1) else Get(config[1..], k) by {
        forall k ensures Get(config, k) == if config[0].0 == k then Some(config[0].1) else Get(config[1..], k) {
          GetCons(config[0], config[1..], k);
        }
      }
      if config[0].0 == "password" then rest
      else
        var r := [config[0]] + rest;
        assert Keys(r) == [config[0].0] + Keys(rest);
        assert forall k :: Get(r, k) == if config[0].0 == k then Some(config[0].1) else Get(rest, k) by {
          forall k ensures Get(r, k) == if config[0].0 == k then Some(config[0].1) else Get(rest, k) {
            GetCons(config[0], rest, k);
          }
        }
        r
  }

  /** `get_config`: the stored configuration without its password; `{}` when none is stored or it is empty */
  function GetConfig(loaded: Option<Dict<string, string>>): (r: Dict<string, string>)
    ensures "password" !in Keys(r)
    ensures loaded.Some? ==> forall k :: k != "password" ==> Get(r, k) == Get(loaded.value, k)
    ensures loaded.None? ==> r == []
  {
    match loaded
    case None => []
    case Some(config) => if config == [] then [] else WithoutPassword(config)
  }

  /**
   * `get_logs`: the last 50 lines of the deployment log, read in text mode, or none when
   * there is no log
   */
  function GetLogs(log: Option<string>): (r: seq<string>)
    ensures log.None? ==> r == []
    ensures log.Some? ==> |r| == if |TextLines(log.value)| < 50 then |TextLines(log.value)| else 50
    ensures log.Some? ==> r == TextLines(log.value)[|TextLines(log.value)| - |r|..]
  {
    match log
    case None => []
    case Some(text) =>
      var lines := TextLines(text);
      if |lines| <= 50 then lines else lines[|lines| - 50..]
  }

  /**
   * The lines returned, put back together, are the end of the log text as text mode reads
   * it, so no carriage return is left in them.
   */
  lemma GetLogsIsTail(text: string)
    ensures EndsWith(TranslateNewlines(text), Concat(GetLogs(Some(text))))
    ensures '\r' !in Concat(GetLogs(Some(text)))
  {
    var t := TranslateNewlines(text);
    var lines := TextLines(text);
    TailOfLines(lines, |lines| - |GetLogs(Some(text))|);
    var tail := Concat(GetLogs(Some(text)));
    assert tail == t[|t| - |tail|..];
  }

  /** A lone carriage return ends a log line, as text mode reads it. */
  lemma CarriageReturnEndsLogLine()
    ensures GetLogs(Some("a\rb")) == ["a\n", "b"]
  {
    CarriageReturnTranslated();
    TwoLinesRead();
  }

  /** Text mode turns the lone "\r" into "\n". */
  lemma CarriageReturnTranslated()
    ensures TranslateNewlines("a\rb") == "a\nb"
  {
    assert "a\rb"[1..] == "\rb" && "\rb"[1..] == "b" && "b"[1..] == [];
  }

  /** "a\nb" reads as a terminated line and an unterminated last line. */
  lemma TwoLinesRead()
    ensures ReadLines("a\nb") == ["a\n", "b"]
  {
    ReadLinesOfConcatLine("a\n", "b");
    assert "a\n" + "b" == "a\nb";
    assert Find("b", "\n") == None;
  }

  /** The last lines of a text, put back together, end it. */
  lemma TailOfLines(lines: seq<string>, k: nat)
    requires k <= |lines|
    ensures EndsWith(Concat(lines), Concat(lines[k..]))
  {
    assert lines == lines[..k] + lines[k..];
    ConcatAppend(lines[..k], lines[k..]);
    EndsWithAppend(Concat(lines[..k]), Concat(lines[k..]));
  }
}
