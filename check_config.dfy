/**
 * check_config.py: reports which of the seven settings are still missing.
 * It reads the skill's .env file, adds its variables to the process environment
 * (without overriding what is already set), loads config.json, and for each
 * setting accepts a value from the environment or from the file unless it is
 * empty or starts with a `YOUR_` / `your_` placeholder.
 *
 * The .env file is a sequence of lines (None when it does not exist), the
 * process environment a map, config.json what `json.load` gave; the text
 * printed is returned as lines.
 */
module CheckConfig {
  import opened Wrappers
  import opened PyStr
  import opened ConfigTree


  // ------------------------------------------------------------------------
  // The .env file

  /**
   * One line of .env: after stripping, a non-empty line that is no comment and
   * holds an `=` gives the stripped text before the first `=` and after it.
   */
  function EnvEntry(line: string): Option<(string, string)> {
    var t := Strip(line);
    if t == "" || StartsWith(t, "#") || '=' !in t then None
    else
      var i := IndexOf(t, '=');
      Some((Strip(t[..i]), Strip(t[i + 1..])))
  }

  /** The entry each line gives. */
  function Entries(lines: seq<string>): (entries: seq<Option<(string, string)>>)
    ensures |entries| == |lines|
    ensures forall i :: 0 <= i < |lines| ==> entries[i] == EnvEntry(lines[i])
  {
    seq(|lines|, i requires 0 <= i < |lines| => EnvEntry(lines[i]))
  }

  /** The dictionary built by assigning the entries in order; a later entry for the same key wins. */
  function Assign(entries: seq<Option<(string, string)>>): Env
    decreases |entries|
  {
    if entries == [] then map[]
    else
      var vars := Assign(entries[..|entries| - 1]);
      match entries[|entries| - 1]
      case None => vars
      case Some((k, v)) => vars[k := v]
  }

  /** The variables the .env lines define. */
  function EnvVars(lines: seq<string>): Env {
    Assign(Entries(lines))
  }

  /** Assigning one more entry. */
  lemma AssignNext(entries: seq<Option<(string, string)>>, i: nat)
    requires i < |entries|
    ensures Assign(entries[..i + 1]) ==
            if entries[i].Some? then Assign(entries[..i])[entries[i].value.0 := entries[i].value.1]
            else Assign(entries[..i])
  {
    assert entries[..i + 1][..i] == entries[..i];
  }

  /** The read loop: each line stripped, skipped or split at its first `=`, and assigned in order. */
  method ParseEnv(lines: seq<string>) returns (vars: Env)
    ensures vars == EnvVars(lines)
  {
    ghost var entries := Entries(lines);
    vars := map[];
    var i := 0;
    while i < |lines|
      invariant 0 <= i <= |lines|
      invariant vars == Assign(entries[..i])
    {
      var entry := EnvEntry(lines[i]);
      AssignNext(entries, i);
      if entry.Some? {
        vars := vars[entry.value.0 := entry.value.1];
      }
      i := i + 1;
    }
    assert entries[..i] == entries;
  }

  /** Some entry sets `k`. */
  ghost predicate Sets(entries: seq<Option<(string, string)>>, k: string) {
    exists i :: 0 <= i < |entries| && entries[i].Some? && entries[i].value.0 == k
  }

  /** A key is defined exactly when some line defines it. */
  lemma {:induction false} EnvVarsKeys(entries: seq<Option<(string, string)>>, k: string)
    ensures k in Assign(entries) <==> Sets(entries, k)
    decreases |entries|
  {
    if entries != [] {
      var init := entries[..|entries| - 1];
      EnvVarsKeys(init, k);
      if k in Assign(init) {
        var i :| 0 <= i < |init| && init[i].Some? && init[i].value.0 == k;
        assert entries[i] == init[i];
      }
      if Sets(entries, k) {
        var i :| 0 <= i < |entries| && entries[i].Some? && entries[i].value.0 == k;
        if i < |init| {
          assert init[i] == entries[i];
        }
      }
    }
  }

  /** The value of a key is the one on the last line that defines it. */
  lemma {:induction false} EnvLastWins(entries: seq<Option<(string, string)>>, i: nat)
    requires i < |entries| && entries[i].Some?
    requires forall j :: i < j < |entries| && entries[j].Some? ==> entries[j].value.0 != entries[i].value.0
    ensures entries[i].value.0 in Assign(entries)
    ensures Assign(entries)[entries[i].value.0] == entries[i].value.1
    decreases |entries|
  {
    var init := entries[..|entries| - 1];
    if i < |entries| - 1 {
      assert init[i] == entries[i];
      forall j | i < j < |init| && init[j].Some?
        ensures init[j].value.0 != init[i].value.0
      {
        assert init[j] == entries[j];
      }
      EnvLastWins(init, i);
    }
  }

  /** A line written as `KEY=VALUE` from a clean key and value reads back as that pair. */
  lemma EnvLineRoundTrip(k: string, v: string)
    requires k != [] && !IsSpace(k[0]) && !IsSpace(k[|k| - 1]) && k[0] != '#' && '=' !in k
    requires v != [] ==> !IsSpace(v[0]) && !IsSpace(v[|v| - 1])
    ensures EnvEntry(k + "=" + v) == Some((k, v))
  {
    var line := k + ['='] + v;
    assert k + "=" + v == line;
    assert Strip(line) == line by {
      assert line[0] == k[0];
      assert line[|line| - 1] == if v == [] then '=' else v[|v| - 1];
      StripTrimmed(line);
    }
    assert !StartsWith(line, "#") by {
      assert line[..1] == [k[0]];
    }
    assert '=' in line by {
      assert line[|k|] == '=';
    }
    assert IndexOf(line, '=') == |k| by {
      IndexOfAfter(k, '=', v);
    }
    assert line[..|k|] == k && line[|k| + 1..] == v;
    StripTrimmed(k);
    StripTrimmed(v);
  }

  // ------------------------------------------------------------------------
  // Adding the .env variables to the environment

  /**
   * `os.environ[k] = v` raises for an empty name, for a name holding `=` and for an
   * embedded NUL character.  A name read from .env never holds `=`, since the line
   * is split at its first `=`.
   */
  predicate Settable(k: string, v: string) {
    k != "" && '=' !in k && '\0' !in k && '\0' !in v
  }

  /**
   * The environment once the .env variables are added: those already set keep
   * their value; None when adding one of the others raises.
   */
  function WithEnv(environ: Env, vars: Env): Option<Env> {
    if exists k :: k in vars && k !in environ && !Settable(k, vars[k]) then None
    else Some(vars + environ)
  }

  method MergeEnv(environ: Env, vars: Env) returns (r: Option<Env>)
    ensures r == WithEnv(environ, vars)
  {
    var env := environ;
    var todo := vars.Keys;
    while todo != {}
      invariant todo <= vars.Keys
      invariant env.Keys == environ.Keys + (vars.Keys - todo)
      invariant forall k :: k in environ ==> env[k] == environ[k]
      invariant forall k :: k in vars && k !in todo && k !in environ ==> env[k] == vars[k] && Settable(k, vars[k])
      decreases todo
    {
      var k :| k in todo;
      if k !in env {
        if !Settable(k, vars[k]) {
          return None;
        }
        env := env[k := vars[k]];
      }
      todo := todo - {k};
    }
    assert env == vars + environ;
    return Some(env);
  }

  /** The merged environment keeps every variable already set and adds each .env variable that was not. */
  lemma WithEnvValues(environ: Env, vars: Env, k: string)
    requires WithEnv(environ, vars).Some?
    ensures k in WithEnv(environ, vars).value <==> k in environ || k in vars
    ensures k in environ ==> WithEnv(environ, vars).value[k] == environ[k]
    ensures k in vars && k !in environ ==> WithEnv(environ, vars).value[k] == vars[k]
  {
  }

  // ------------------------------------------------------------------------
  // The checks

  /** One required setting: its environment variable, its dotted key in config.json and its label. */
  datatype Check = Check(envKey: string, configKey: string, description: string)

  const Checks: seq<Check> := [
    Check("TIKHUB_API_KEY", "tikhub.api_key", "TikHub API 密钥"),
    Check("FEISHU_APP_ID", "feishu.app_id", "飞书应用 ID"),
    Check("FEISHU_APP_SECRET", "feishu.app_secret", "飞书应用密钥"),
    Check("DOUYIN_KOL_ID", "douyin.kol_id", "抖音 KOL ID"),
    Check("FEISHU_APP_TOKEN", "feishu.app_token", "飞书多维表格 ID"),
    Check("FEISHU_TABLE_ID", "feishu.table_id", "飞书表格子表 ID"),
    Check("FEISHU_CHAT_ID", "feishu.chat_id", "飞书消息群组 ID")
  ]

  /** A usable text: non-empty and not starting with either placeholder prefix. */
  predicate ValidText(val: string) {
    val != "" && !StartsWith(val, "YOUR_") && !StartsWith(val, "your_")
  }

  /**
   * The test applied to `str(obj) if obj else ''`: a string is tested as text;
   * `str()` of a truthy number, list or dict begins with a digit or `-`, `[` or `{`,
   * so it is usable exactly when it is truthy.
   */
  predicate ValidObject(v: Json) {
    if v.Str? then ValidText(v.s) else Truthy(v)
  }

  /** What the lookup loop finds at the dotted key; '' when the path is missing. */
  function Found(config: Json, key: string): Json {
    match Walk(config, Split(key, '.'))
    case None => Str("")
    case Some(v) => v
  }

  method Lookup(config: Json, key: string) returns (obj: Json)
    ensures obj == Found(config, key)
  {
    var keys := Split(key, '.');
    obj := config;
    var i := 0;
    while i < |keys|
      invariant 0 <= i <= |keys|
      invariant Walk(config, keys) == Walk(obj, keys[i..])
    {
      if obj.Obj? && keys[i] in obj.fields {
        obj := obj.fields[keys[i]];
      } else {
        obj := Str("");
        break;
      }
      i := i + 1;
    }
  }

  /** A setting is in place when its environment variable or its config.json value is usable. */
  predicate Satisfied(env: Env, config: Json, c: Check) {
    (c.envKey in env && ValidText(env[c.envKey])) || ValidObject(Found(config, c.configKey))
  }

  /** The checks that fail, in table order. */
  function Missing(env: Env, config: Json, checks: seq<Check>): seq<Check>
    decreases |checks|
  {
    if checks == [] then []
    else
      var c := checks[|checks| - 1];
      Missing(env, config, checks[..|checks| - 1]) + if Satisfied(env, config, c) then [] else [c]
  }

  /** The loop over the checks. */
  method FindMissing(env: Env, config: Json, checks: seq<Check>) returns (missing: seq<Check>)
    ensures missing == Missing(env, config, checks)
  {
    missing := [];
    var i := 0;
    while i < |checks|
      invariant 0 <= i <= |checks|
      invariant missing == Missing(env, config, checks[..i])
    {
      var c := checks[i];
      assert checks[..i + 1][..i] == checks[..i] && checks[..i + 1][i] == c;
      var envValue := if c.envKey in env then env[c.envKey] else "";
      var obj := Lookup(config, c.configKey);
      var isValid := false;
      if ValidText(envValue) {
        isValid := true;
      } else if ValidObject(obj) {
        isValid := true;
      }
      if !isValid {
        missing := missing + [c];
      }
      i := i + 1;
    }
    assert checks[..i] == checks;
  }

  /** Exactly the failing checks are reported, each at most once per occurrence and in table order. */
  lemma {:induction false} MissingExactly(env: Env, config: Json, checks: seq<Check>)
    ensures |Missing(env, config, checks)| <= |checks|
    ensures forall c :: c in Missing(env, config, checks) <==> c in checks && !Satisfied(env, config, c)
    ensures Missing(env, config, checks) == [] <==> forall i :: 0 <= i < |checks| ==> Satisfied(env, config, checks[i])
    decreases |checks|
  {
    if checks != [] {
      var init := checks[..|checks| - 1];
      MissingExactly(env, config, init);
      assert checks == init + [checks[|checks| - 1]];
      forall i | 0 <= i < |init| ensures init[i] == checks[i] { }
    }
  }

  // ------------------------------------------------------------------------
  // check_config and main

  /** The configuration as loaded: a missing or unreadable config.json counts as `{}`. */
  function ConfigOf(configFile: ConfigFile): Json {
    match configFile
    case Document(doc) => doc
    case _ => Empty
  }

  /** check_config: the missing settings, or None when adding a .env variable raises. */
  function CheckAll(envFile: Option<seq<string>>, environ: Env, configFile: ConfigFile): Option<seq<Check>> {
    var vars := if envFile.Some? then EnvVars(envFile.value) else map[];
    match WithEnv(environ, vars)
    case None => None
    case Some(env) => Some(Missing(env, ConfigOf(configFile), Checks))
  }

  method CheckConfigFiles(envFile: Option<seq<string>>, environ: Env, configFile: ConfigFile)
    returns (missing: Option<seq<Check>>)
    ensures missing == CheckAll(envFile, environ, configFile)
  {
    var vars: Env := map[];
    if envFile.Some? {
      vars := ParseEnv(envFile.value);
    }
    var env := MergeEnv(environ, vars);
    if env.None? {
      return None;
    }
    var config := ConfigOf(configFile);
    var found := FindMissing(env.value, config, Checks);
    return Some(found);
  }

  /** A line of the report: `env_key|config_key|description`. */
  function ReportLine(c: Check): string {
    c.envKey + "|" + c.configKey + "|" + c.description
  }

  function ReportLines(missing: seq<Check>): (lines: seq<string>)
    ensures |lines| == |missing|
    ensures forall i :: 0 <= i < |missing| ==> lines[i] == ReportLine(missing[i])
  {
    if missing == [] then [] else [ReportLine(missing[0])] + ReportLines(missing[1..])
  }

  /** How a run ends: exit status and printed lines (a traceback prints nothing modelled here). */
  datatype Outcome = Outcome(status: int, output: seq<string>)

  /**
   * main: exit status 1 and `MISSING_CONFIG` followed by one line per missing
   * setting, or 0 and `CONFIG_OK`; a raise while adding .env variables exits with 1.
   */
  method CheckMain(envFile: Option<seq<string>>, environ: Env, configFile: ConfigFile) returns (outcome: Outcome)
    ensures CheckAll(envFile, environ, configFile).None? ==> outcome == Outcome(1, [])
    ensures CheckAll(envFile, environ, configFile).Some? ==>
            var missing := CheckAll(envFile, environ, configFile).value;
            if missing == [] then outcome == Outcome(0, ["CONFIG_OK"])
            else outcome == Outcome(1, ["MISSING_CONFIG"] + ReportLines(missing))
  {
    var missing := CheckConfigFiles(envFile, environ, configFile);
    if missing.None? {
      return Outcome(1, []);
    }
    if missing.value != [] {
      var lines := Report(missing.value);
      return Outcome(1, lines);
    }
    return Outcome(0, ["CONFIG_OK"]);
  }

  /** The lines printed for the missing settings. */
  method Report(missing: seq<Check>) returns (lines: seq<string>)
    ensures lines == ["MISSING_CONFIG"] + ReportLines(missing)
  {
    lines := ["MISSING_CONFIG"];
    var i := 0;
    while i < |missing|
      invariant 0 <= i <= |missing|
      invariant lines == ["MISSING_CONFIG"] + ReportLines(missing[..i])
    {
      ReportLinesAppend(missing[..i], missing[i]);
      assert missing[..i + 1] == missing[..i] + [missing[i]];
      lines := lines + [ReportLine(missing[i])];
      i := i + 1;
    }
    assert missing[..i] == missing;
  }

  lemma ReportLinesAppend(missing: seq<Check>, c: Check)
    ensures ReportLines(missing + [c]) == ReportLines(missing) + [ReportLine(c)]
  {
  }

  /** The run succeeds exactly when every setting is in place. */
  lemma CheckMainStatus(envFile: Option<seq<string>>, environ: Env, configFile: ConfigFile)
    requires CheckAll(envFile, environ, configFile).Some?
    ensures var vars := if envFile.Some? then EnvVars(envFile.value) else map[];
            var missing := CheckAll(envFile, environ, configFile).value;
            missing == [] <==>
              forall i :: 0 <= i < |Checks| ==> Satisfied(WithEnv(environ, vars).value, ConfigOf(configFile), Checks[i])
  {
    var vars := if envFile.Some? then EnvVars(envFile.value) else map[];
    MissingExactly(WithEnv(environ, vars).value, ConfigOf(configFile), Checks);
  }
}
