/**
 * The installation checker: five independent checks (interpreter version,
 * packages, directories, files, the .env file) and a summary that passes
 * only when every check returned True. What the machine reports (the
 * version, which imports succeed, which paths exist, the .env text) comes
 * in as parameters.
 */
module CheckSetup {
  import opened Wrappers
  import Text

  /** `a >= b` for Python tuples of integers: the first difference decides, else the longer is greater. */
  predicate TupleAtLeast(a: seq<int>, b: seq<int>)
    decreases |a|
  {
    if |b| == 0 then true
    else if |a| == 0 then false
    else if a[0] != b[0] then a[0] > b[0]
    else TupleAtLeast(a[1..], b[1..])
  }

  const MIN_VERSION: seq<int> := [3, 8]

  /** `check_python_version` on the numeric part of `sys.version_info`. */
  function CheckPythonVersion(version: seq<int>): (ok: bool)
    ensures |version| >= 2 ==> (ok <==> version[0] > 3 || (version[0] == 3 && version[1] >= 8))
  {
    if |version| >= 2 then
      assert MIN_VERSION[0] == 3 && MIN_VERSION[1..] == [8] && [8][1..] == [];
      assert version[1..][0] == version[1];
      assert TupleAtLeast(version[1..], [8]) <==> version[1] >= 8;
      TupleAtLeast(version, MIN_VERSION)
    else TupleAtLeast(version, MIN_VERSION)
  }

  /** How importing one package ends. */
  datatype Import = Imported | ImportFailed | OtherError(message: string)

  const REQUIRED_PACKAGES: seq<string> := [
    "streamlit", "streamlit_drawable_canvas", "cozepy", "dashscope", "requests",
    "dotenv", "numpy", "PIL", "cv2", "scipy"]

  /**
   * `check_dependencies`: an import error marks the package missing and the
   * loop goes on; any other error escapes the check.
   */
  function CheckPackages(packages: seq<string>, probe: string -> Import): (r: Result<bool>)
    ensures r.Raised? <==> exists i :: 0 <= i < |packages| && probe(packages[i]).OtherError?
    ensures r.Ok? ==> (r.value <==> forall i :: 0 <= i < |packages| ==> probe(packages[i]).Imported?)
    ensures r.Raised? ==> exists i :: 0 <= i < |packages| && probe(packages[i]) == OtherError(r.message)
                                      && forall j :: 0 <= j < i ==> !probe(packages[j]).OtherError?
  {
    if |packages| == 0 then Ok(true)
    else
      var outcome := probe(packages[0]);
      if outcome.OtherError? then Raised(outcome.message)
      else
        var rest := CheckPackages(packages[1..], probe);
        assert forall i :: 1 <= i < |packages| ==> packages[i] == packages[1..][i - 1];
        if rest.Raised? then rest else Ok(outcome.Imported? && rest.value)
  }

  /** `check_dependencies` over the ten required packages. */
  function CheckDependencies(probe: string -> Import): (r: Result<bool>)
    ensures r.Raised? <==> exists i :: 0 <= i < |REQUIRED_PACKAGES| && probe(REQUIRED_PACKAGES[i]).OtherError?
    ensures r.Ok? ==> (r.value <==> forall i :: 0 <= i < |REQUIRED_PACKAGES| ==> probe(REQUIRED_PACKAGES[i]).Imported?)
  {
    CheckPackages(REQUIRED_PACKAGES, probe)
  }

  const REQUIRED_DIRS: seq<string> := [
    "src", "src/pages", "src/services", "src/models", "src/utils", "data", "data/artworks"]

  const REQUIRED_FILES: seq<string> := [
    "src/app.py", "src/pages/1_🎬_应用首页.py", "src/pages/2_🎨_智能画板.py", "src/pages/3_🧚_加工工厂.py",
    "src/pages/5_⚙️_设置中心.py", "src/utils/session_manager.py", "src/utils/config_loader.py",
    "src/utils/file_handler.py", "src/services/multimodal_service.py", "src/services/voice_service.py",
    "src/services/coze_service.py", "src/services/video_service.py", "requirements.txt"]

  /** `check_directories` and `check_main_files`: every listed path exists. */
  function CheckPaths(paths: seq<string>, exists_: string -> bool): (ok: bool)
    ensures ok <==> forall i :: 0 <= i < |paths| ==> exists_(paths[i])
  {
    if |paths| == 0 then true
    else
      assert forall i :: 1 <= i < |paths| ==> paths[i] == paths[1..][i - 1];
      exists_(paths[0]) && CheckPaths(paths[1..], exists_)
  }

  const REQUIRED_KEYS: seq<string> := ["DASHSCOPE_API_KEY", "COZE_API_TOKEN", "COZE_BOT_ID"]

  const PLACEHOLDER_PREFIX := "your_"

  /**
   * `content.split(key + '=')[1].split('\n')[0].strip()`: the text after the
   * first `key=`, up to the next `key=` or the end of the line, stripped.
   */
  function EnvValue(content: string, key: string): (v: Option<string>)
    ensures v.None? <==> !Text.Contains(content, key + "=")
  {
    var sep := key + "=";
    var f := Text.Find(content, sep);
    if f < 0 then None
    else
      var start := f + |sep|;
      var g := Text.FindFrom(content, sep, start);
      var field := content[start..if g < 0 then |content| else g];
      Some(Text.Strip(Text.BeforeFirst(field, '\n')))
  }

  /** What the .env file says about one required key. */
  datatype KeyStatus = Configured | Unfilled | Mentioned | Absent

  function StatusOf(content: string, key: string): (s: KeyStatus)
    ensures s == Absent <==> !Text.Contains(content, key)
    ensures s == Configured <==>
      Text.Contains(content, key) && EnvValue(content, key).Some?
      && EnvValue(content, key).value != "" && !Text.StartsWith(EnvValue(content, key).value, PLACEHOLDER_PREFIX)
  {
    if !Text.Contains(content, key) then Absent
    else match EnvValue(content, key)
      case None => Mentioned
      case Some(value) =>
        if value != "" && !Text.StartsWith(value, PLACEHOLDER_PREFIX) then Configured else Unfilled
  }

  /**
   * `check_env_file` as written: a missing file fails, and so does a key that
   * is absent or has an empty or placeholder value; a key that appears only
   * without `=` raises no complaint.
   */
  function CheckEnvFileAsWritten(content: Option<string>): (ok: bool)
    ensures content.None? ==> !ok
    ensures content.Some? ==> (ok <==> forall i :: 0 <= i < |REQUIRED_KEYS| ==>
                                 StatusOf(content.value, REQUIRED_KEYS[i]) in {Configured, Mentioned})
  {
    match content
    case None => false
    case Some(c) => forall i :: 0 <= i < |REQUIRED_KEYS| ==> StatusOf(c, REQUIRED_KEYS[i]) in {Configured, Mentioned}
  }

  /** `check_env_file` as intended: the file exists and every required key has a real value. */
  function CheckEnvFile(content: Option<string>): (ok: bool)
    ensures ok <==> content.Some? && forall i :: 0 <= i < |REQUIRED_KEYS| ==>
      EnvValue(content.value, REQUIRED_KEYS[i]).Some?
      && EnvValue(content.value, REQUIRED_KEYS[i]).value != ""
      && !Text.StartsWith(EnvValue(content.value, REQUIRED_KEYS[i]).value, PLACEHOLDER_PREFIX)
  {
    match content
    case None => false
    case Some(c) =>
      assert forall i :: 0 <= i < |REQUIRED_KEYS| && EnvValue(c, REQUIRED_KEYS[i]).Some? ==>
        Text.Contains(c, REQUIRED_KEYS[i]) by {
        forall i | 0 <= i < |REQUIRED_KEYS| && EnvValue(c, REQUIRED_KEYS[i]).Some?
          ensures Text.Contains(c, REQUIRED_KEYS[i]) {
          KeyWithEqualsContainsKey(c, REQUIRED_KEYS[i]);
        }
      }
      forall i :: 0 <= i < |REQUIRED_KEYS| ==> StatusOf(c, REQUIRED_KEYS[i]) == Configured
  }

  lemma KeyWithEqualsContainsKey(c: string, key: string)
    requires Text.Contains(c, key + "=")
    ensures Text.Contains(c, key)
  {
    var f := Text.Find(c, key + "=");
    assert Text.OccursAt(c, key, f) by {
      assert c[f..f + |key|] == (key + "=")[..|key|];
    }
  }

  /** The two readings agree except on a key that appears without `=`. */
  lemma EnvReadingsAgree(content: Option<string>)
    requires content.Some? ==> forall i :: 0 <= i < |REQUIRED_KEYS| ==> StatusOf(content.value, REQUIRED_KEYS[i]) != Mentioned
    ensures CheckEnvFileAsWritten(content) == CheckEnvFile(content)
  {
  }

  /** A .env file that names every required key on its own line and assigns none of them. */
  lemma BareKeysPassAsWritten(env: string)
    requires env == "DASHSCOPE_API_KEY\nCOZE_API_TOKEN\nCOZE_BOT_ID"
    ensures CheckEnvFileAsWritten(Some(env))
    ensures !CheckEnvFile(Some(env))
  {
    KeysOnSeparateLines(env);
  }

  /** Keys named but never assigned pass the check as written and fail the intended one. */
  lemma KeysOnSeparateLines(c: string)
    requires c == REQUIRED_KEYS[0] + "\n" + REQUIRED_KEYS[1] + "\n" + REQUIRED_KEYS[2]
    ensures CheckEnvFileAsWritten(Some(c)) && !CheckEnvFile(Some(c))
  {
    var a, b, d := REQUIRED_KEYS[0], REQUIRED_KEYS[1], REQUIRED_KEYS[2];
    assert Text.OccursAt(c, a, 0) by { assert c[..|a|] == a; }
    assert Text.OccursAt(c, b, |a| + 1) by { assert c[|a| + 1..|a| + 1 + |b|] == b; }
    assert Text.OccursAt(c, d, |a| + |b| + 2) by { assert c[|a| + |b| + 2..] == d; }
    OccurrenceIsContained(c, a, 0);
    OccurrenceIsContained(c, b, |a| + 1);
    OccurrenceIsContained(c, d, |a| + |b| + 2);
    assert '=' !in c;
    BareKeysOnly(c);
  }

  /** Text with every required key and no `=` anywhere passes as written and fails as intended. */
  lemma BareKeysOnly(c: string)
    requires '=' !in c
    requires forall i :: 0 <= i < |REQUIRED_KEYS| ==> Text.Contains(c, REQUIRED_KEYS[i])
    ensures CheckEnvFileAsWritten(Some(c)) && !CheckEnvFile(Some(c))
  {
    NoEquals(c, REQUIRED_KEYS[0]);
    assert StatusOf(c, REQUIRED_KEYS[0]) == Mentioned;
    forall i | 0 <= i < |REQUIRED_KEYS| ensures StatusOf(c, REQUIRED_KEYS[i]) == Mentioned {
      NoEquals(c, REQUIRED_KEYS[i]);
    }
  }

  lemma OccurrenceIsContained(s: string, sub: string, i: nat)
    requires Text.OccursAt(s, sub, i)
    ensures Text.Contains(s, sub)
  {
  }

  /** Text without `=` assigns no key. */
  lemma NoEquals(c: string, key: string)
    requires '=' !in c
    ensures !Text.Contains(c, key + "=")
  {
    forall k | 0 <= k && k + |key| + 1 <= |c| ensures !Text.OccursAt(c, key + "=", k) {
      assert c[k + |key|] in c;
    }
  }

  /** `main`: every check runs; one that raises counts as failed; the verdict is `all(results)`. */
  function Summary(results: seq<(string, Result<bool>)>): (r: (seq<(string, bool)>, bool))
    ensures |r.0| == |results|
    ensures forall i :: 0 <= i < |results| ==>
      r.0[i].0 == results[i].0 && (r.0[i].1 <==> results[i].1 == Ok(true))
    ensures r.1 <==> forall i :: 0 <= i < |results| ==> results[i].1 == Ok(true)
  {
    var shown := seq(|results|, i requires 0 <= i < |results| => (results[i].0, results[i].1 == Ok(true)));
    (shown, forall i :: 0 <= i < |shown| ==> shown[i].1)
  }

  /** The five checks in the order `main` runs them, the last being `check_env_file` as written. */
  function RunChecks(version: seq<int>, probe: string -> Import, isDir: string -> bool,
                     isFile: string -> bool, env: Option<string>): (r: seq<(string, Result<bool>)>)
    ensures |r| == 5
    ensures r[0] == ("Python版本", Ok(CheckPythonVersion(version))) && r[1] == ("依赖包", CheckDependencies(probe))
    ensures r[2] == ("目录结构", Ok(CheckPaths(REQUIRED_DIRS, isDir))) && r[3] == ("核心文件", Ok(CheckPaths(REQUIRED_FILES, isFile)))
    ensures r[4] == ("环境变量", Ok(CheckEnvFileAsWritten(env)))
  {
    [("Python版本", Ok(CheckPythonVersion(version))),
     ("依赖包", CheckDependencies(probe)),
     ("目录结构", Ok(CheckPaths(REQUIRED_DIRS, isDir))),
     ("核心文件", Ok(CheckPaths(REQUIRED_FILES, isFile))),
     ("环境变量", Ok(CheckEnvFileAsWritten(env)))]
  }

  /** The same five checks with the corrected reading of the .env file. */
  function RunChecksCorrected(version: seq<int>, probe: string -> Import, isDir: string -> bool,
                              isFile: string -> bool, env: Option<string>): (r: seq<(string, Result<bool>)>)
    ensures |r| == 5 && r[..4] == RunChecks(version, probe, isDir, isFile, env)[..4]
    ensures r[4] == ("环境变量", Ok(CheckEnvFile(env)))
  {
    RunChecks(version, probe, isDir, isFile, env)[..4] + [("环境变量", Ok(CheckEnvFile(env)))]
  }

  /** Without keys that appear only without `=`, `main` reaches the same verdict under either reading. */
  lemma RunChecksAgree(version: seq<int>, probe: string -> Import, isDir: string -> bool,
                       isFile: string -> bool, env: Option<string>)
    requires env.Some? ==> forall i :: 0 <= i < |REQUIRED_KEYS| ==> StatusOf(env.value, REQUIRED_KEYS[i]) != Mentioned
    ensures Summary(RunChecks(version, probe, isDir, isFile, env)) == Summary(RunChecksCorrected(version, probe, isDir, isFile, env))
  {
    EnvReadingsAgree(env);
    var a := RunChecks(version, probe, isDir, isFile, env);
    var b := RunChecksCorrected(version, probe, isDir, isFile, env);
    assert a == b by {
      assert a[..4] == b[..4] && a[4] == b[4];
      assert a == a[..4] + [a[4]] && b == b[..4] + [b[4]];
    }
  }

  /**
   * The finding end to end: on a setup where everything else is in place and
   * the .env file names every key but assigns none (no `=` anywhere), `main` as written passes and the
   * corrected one does not.
   */
  lemma BareKeysPassMain(version: seq<int>, probe: string -> Import, isDir: string -> bool,
                         isFile: string -> bool, env: string)
    requires CheckPythonVersion(version) && CheckDependencies(probe) == Ok(true)
    requires CheckPaths(REQUIRED_DIRS, isDir) && CheckPaths(REQUIRED_FILES, isFile)
    requires '=' !in env
    requires forall i :: 0 <= i < |REQUIRED_KEYS| ==> Text.Contains(env, REQUIRED_KEYS[i])
    ensures Summary(RunChecks(version, probe, isDir, isFile, Some(env))).1
    ensures !Summary(RunChecksCorrected(version, probe, isDir, isFile, Some(env))).1
  {
    BareKeysOnly(env);
    var a := RunChecks(version, probe, isDir, isFile, Some(env));
    var b := RunChecksCorrected(version, probe, isDir, isFile, Some(env));
    assert a[0].1 == Ok(true) && a[1].1 == Ok(true) && a[2].1 == Ok(true) && a[3].1 == Ok(true);
    assert a[4].1 == Ok(true);
    assert forall i :: 0 <= i < |a| ==> a[i].1 == Ok(true) by {
      forall i | 0 <= i < |a| ensures a[i].1 == Ok(true) {
        assert i == 0 || i == 1 || i == 2 || i == 3 || i == 4;
      }
    }
    assert b[4].1 != Ok(true);
  }

  /** Without a .env file the setup never passes; with an unimportable package it never passes either. */
  lemma MissingPiecesFail(version: seq<int>, probe: string -> Import, isDir: string -> bool,
                          isFile: string -> bool, env: Option<string>, i: nat)
    requires env.None? || (i < |REQUIRED_PACKAGES| && !probe(REQUIRED_PACKAGES[i]).Imported?)
    ensures !Summary(RunChecks(version, probe, isDir, isFile, env)).1
  {
    var r := RunChecks(version, probe, isDir, isFile, env);
    if env.None? {
      assert r[4].1 != Ok(true);
    } else {
      assert r[1].1 != Ok(true);
    }
  }
}
