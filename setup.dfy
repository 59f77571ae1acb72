/**
 * setup.py: the configuration wizard.  With no arguments it builds config.json
 * from a template (config.example.json, or a built-in default), merges in the
 * sections of an existing config.json, asks for seven values and saves the result.
 * With `KEY VALUE` it sets one dotted key in config.json and saves; with a single
 * argument it does nothing.
 *
 * The files are parameters (what `json.load` gave, or that the file is absent),
 * the answers typed at the prompts are a sequence of lines, and what is written
 * back is returned.
 */
module Setup {
  import opened Wrappers
  import opened PyStr
  import opened ConfigTree

  /** The dotted keys the wizard asks for, in order. */
  const ConfigKeys: seq<string> := [
    "douyin.kol_id", "tikhub.api_key", "feishu.app_id", "feishu.app_secret",
    "feishu.app_token", "feishu.table_id", "feishu.chat_id"
  ]

  /** The same keys as the paths `key.split('.')` gives. */
  const ConfigPaths: seq<seq<string>> := [
    ["douyin", "kol_id"], ["tikhub", "api_key"], ["feishu", "app_id"], ["feishu", "app_secret"],
    ["feishu", "app_token"], ["feishu", "table_id"], ["feishu", "chat_id"]
  ]

  lemma ConfigKeySplit(i: nat)
    requires i < |ConfigKeys|
    ensures Split(ConfigKeys[i], '.') == ConfigPaths[i]
  {
    var path := ConfigPaths[i];
    if i == 0 { DottedSplit(ConfigKeys[i], path[0], path[1]); }
    else if i == 1 { DottedSplit(ConfigKeys[i], path[0], path[1]); }
    else if i == 2 { DottedSplit(ConfigKeys[i], path[0], path[1]); }
    else if i == 3 { DottedSplit(ConfigKeys[i], path[0], path[1]); }
    else if i == 4 { DottedSplit(ConfigKeys[i], path[0], path[1]); }
    else if i == 5 { DottedSplit(ConfigKeys[i], path[0], path[1]); }
    else { DottedSplit(ConfigKeys[i], path[0], path[1]); }
  }

  /** A key made of two dot-free names around one dot splits back into the two. */
  lemma DottedSplit(key: string, section: string, field: string)
    requires key == section + "." + field && '.' !in section && '.' !in field
    ensures Split(key, '.') == [section, field]
  {
    SplitJoin([section, field], '.');
  }

  /** The template used when config.example.json is absent. */
  const DefaultTemplate: Json := Obj(map[
    "douyin" := Obj(map["kol_id" := Str("")]),
    "tikhub" := Obj(map[
      "api_url" := Str("https://api.tikhub.dev/api/v1/douyin/xingtu/kol_daily_fans_v1"),
      "api_key" := Str("")]),
    "feishu" := Obj(map[
      "app_id" := Str(""), "app_secret" := Str(""), "app_token" := Str(""),
      "table_id" := Str(""), "chat_id" := Str("")]),
    "retry" := Obj(map["max_retry_days" := Int(3)])
  ])

  /** Why a run of setup.py ends with a traceback (exit status 1). */
  datatype SetupError =
    | TemplateUnparsable  // json.load of config.example.json raises
    | ConfigUnparsable    // json.load of config.json raises (non-interactive mode)
    | InputEnded          // input() raises EOFError
    | NotADict            // the path-creating assignment meets a non-dict
    | DisplayFailed       // the current-value display slices a non-string (TypeError)

  // ------------------------------------------------------------------------
  // get_config_value and the current-value display

  /** What get_config_value shows for a value it found: '' for a falsy value or a `YOUR_` placeholder. */
  function Shown(v: Json): Json {
    if Truthy(v) && !(v.Str? && StartsWith(v.s, "YOUR_")) then v else Str("")
  }

  /** get_config_value: the value at the dotted key, or '' when the path is missing. */
  function ConfigValue(config: Json, key: string): Json {
    match Walk(config, Split(key, '.'))
    case None => Str("")
    case Some(v) => Shown(v)
  }

  method GetConfigValue(config: Json, key: string) returns (current: Json)
    ensures current == ConfigValue(config, key)
  {
    var keys := Split(key, '.');
    var obj := config;
    var i := 0;
    while i < |keys|
      invariant 0 <= i <= |keys|
      invariant Walk(config, keys) == Walk(obj, keys[i..])
    {
      if obj.Obj? && keys[i] in obj.fields {
        obj := obj.fields[keys[i]];
      } else {
        return Str("");
      }
      i := i + 1;
    }
    current := if Truthy(obj) && !(obj.Str? && StartsWith(obj.s, "YOUR_")) then obj else Str("");
  }

  /** A value set at a key reads back, unless it is a `YOUR_` placeholder, which reads as ''. */
  lemma SetThenGet(config: Json, key: string, value: string)
    requires SetPath(config, Split(key, '.'), Str(value)).Success?
    ensures ConfigValue(SetPath(config, Split(key, '.'), Str(value)).value, key) ==
            if value != "" && !StartsWith(value, "YOUR_") then Str(value) else Str("")
  {
    SetThenWalk(config, Split(key, '.'), Str(value));
  }

  /** A string current value as displayed: the first 20 characters and "..." when it is longer. */
  function Display(current: string): (shown: string)
    ensures |shown| <= 23
    ensures |current| <= 20 ==> shown == current
    ensures |current| > 20 ==> StartsWith(shown, current[..20]) && |shown| == 23 && shown[20..] == "..."
  {
    if |current| > 20 then current[..20] + "..." else current
  }

  /** 10 to the power `e`. */
  function Pow10(e: nat): nat {
    if e == 0 then 1 else 10 * Pow10(e - 1)
  }

  lemma {:induction false} Pow10Monotone(a: nat, b: nat)
    requires a <= b
    ensures Pow10(a) <= Pow10(b)
    decreases b
  {
    if a < b {
      Pow10Monotone(a, b - 1);
    }
  }

  /** The number of decimal digits of `n`, which is `len(str(n))`. */
  function Digits(n: nat): (d: nat)
    ensures 1 <= d && n < Pow10(d)
    ensures d == 1 || Pow10(d - 1) <= n
  {
    if n < 10 then 1 else 1 + Digits(n / 10)
  }

  /**
   * `len(str(v))` for a current value.  The text of a list or a dict depends on
   * Python's repr of the strings inside it, so its length is the parameter `listLength`.
   */
  function TextLength(v: Json, listLength: Json -> nat): nat {
    match v
    case Str(s) => |s|
    case Int(n) => if n < 0 then 1 + Digits(-n) else Digits(n)
    case _ => listLength(v)
  }

  /**
   * The display line `current[:20] + '...'`, taken when `len(str(current)) > 20`, raises
   * for every non-string: an integer cannot be sliced, a dict cannot be indexed by a
   * slice, and a list slice cannot be added to a string.
   */
  predicate DisplayRaises(current: Json, listLength: Json -> nat) {
    !current.Str? && TextLength(current, listLength) > 20
  }

  /** A number has more than `k` digits exactly when it is at least `10^k`. */
  lemma DigitsAbove(m: nat, k: nat)
    requires k >= 1
    ensures Digits(m) > k <==> Pow10(k) <= m
  {
    var d := Digits(m);
    if d <= k {
      Pow10Monotone(d, k);
    } else {
      Pow10Monotone(k, d - 1);
    }
  }

  /**
   * An integer current value breaks the display exactly when its text, counting the
   * minus sign of a negative one, is longer than 20 characters.
   */
  lemma IntegerDisplayRaises(n: int, listLength: Json -> nat)
    ensures DisplayRaises(Int(n), listLength) <==> Pow10(20) <= n || Pow10(19) <= -n
  {
    if n < 0 {
      assert TextLength(Int(n), listLength) == 1 + Digits(-n);
      DigitsAbove(-n, 19);
      Pow10Monotone(19, 20);
    } else {
      assert TextLength(Int(n), listLength) == Digits(n);
      DigitsAbove(n, 20);
    }
  }

  // ------------------------------------------------------------------------
  // Merging an existing config.json into the template

  /** `target.update(incoming)`; None where it raises (a non-empty string or list, or a number). */
  function Update(target: map<string, Json>, incoming: Json): Option<map<string, Json>> {
    match incoming
    case Obj(fields) => Some(target + fields)
    case Str(s) => if s == "" then Some(target) else None
    case Arr(items) => if items == [] then Some(target) else None
    case Int(_) => None
  }

  /**
   * The merge loop over the sections of config.json in file order (`order`):
   * a section that the template has as a dict is updated with the file's value;
   * the first update that raises ends the loop, keeping what was merged so far.
   */
  function Merge(config: Json, existing: map<string, Json>, order: seq<string>): Json
    decreases |order|
  {
    if order == [] || !config.Obj? then config
    else
      var section := order[0];
      if section in existing && section in config.fields && config.fields[section].Obj? then
        match Update(config.fields[section].fields, existing[section])
        case None => config
        case Some(m) => Merge(Obj(config.fields[section := Obj(m)]), existing, order[1..])
      else Merge(config, existing, order[1..])
  }

  method MergeExisting(template: Json, existing: map<string, Json>, order: seq<string>) returns (config: Json)
    ensures config == Merge(template, existing, order)
  {
    config := template;
    if !config.Obj? {
      // `section in config` and `config[section]` on a non-dict only ever raise into the bare except
      return;
    }
    var i := 0;
    while i < |order|
      invariant 0 <= i <= |order|
      invariant config.Obj?
      invariant Merge(template, existing, order) == Merge(config, existing, order[i..])
    {
      var section := order[i];
      if section in existing && section in config.fields && config.fields[section].Obj? {
        var updated := Update(config.fields[section].fields, existing[section]);
        if updated.None? {
          return;
        }
        config := Obj(config.fields[section := Obj(updated.value)]);
      }
      i := i + 1;
    }
  }

  /**
   * The merge adds no section and removes none; a section stays a dict when it was
   * one, and a section that is not a dict, or that config.json does not name, is kept.
   */
  lemma {:induction false} MergeShape(config: Json, existing: map<string, Json>, order: seq<string>)
    requires config.Obj?
    ensures var merged := Merge(config, existing, order);
            merged.Obj? && merged.fields.Keys == config.fields.Keys &&
            (forall s :: s in config.fields && config.fields[s].Obj? ==> merged.fields[s].Obj?) &&
            (forall s :: s in config.fields && (!config.fields[s].Obj? || s !in order) ==>
                         merged.fields[s] == config.fields[s])
    decreases |order|
  {
    if order != [] {
      var section := order[0];
      assert forall s :: s in order[1..] ==> s in order;
      if section in existing && section in config.fields && config.fields[section].Obj? {
        match Update(config.fields[section].fields, existing[section])
        case None =>
        case Some(m) => MergeShape(Obj(config.fields[section := Obj(m)]), existing, order[1..]);
      } else {
        MergeShape(config, existing, order[1..]);
      }
    }
  }

  /**
   * When every section that config.json shares with a template dict section holds a
   * dict, each template section it names ends up with the file's fields over the
   * template's: existing values take precedence.  Other entries of the file (ones the
   * template lacks or holds as a non-dict) are skipped.
   */
  lemma {:induction false} MergeOverrides(config: Json, existing: map<string, Json>, order: seq<string>, s: string)
    requires config.Obj? && s in order && s in existing && s in config.fields && config.fields[s].Obj?
    requires forall i :: 0 <= i < |order| && order[i] in existing && order[i] in config.fields && config.fields[order[i]].Obj? ==>
                         existing[order[i]].Obj?
    requires forall i, j :: 0 <= i < j < |order| ==> order[i] != order[j]
    ensures var merged := Merge(config, existing, order);
            merged.Obj? && s in merged.fields && merged.fields[s] == Obj(config.fields[s].fields + existing[s].fields)
    decreases |order|
  {
    MergeShape(config, existing, order);
    var section := order[0];
    var rest := order[1..];
    assert forall i :: 0 <= i < |rest| ==> rest[i] == order[i + 1];
    if section == s {
      var c := Obj(config.fields[s := Obj(config.fields[s].fields + existing[s].fields)]);
      assert s !in rest;
      MergeShape(c, existing, rest);
    } else {
      assert s in rest;
      if section in existing && section in config.fields && config.fields[section].Obj? {
        var c := Obj(config.fields[section := Obj(config.fields[section].fields + existing[section].fields)]);
        MergeOverrides(c, existing, rest, s);
      } else {
        MergeOverrides(config, existing, rest, s);
      }
    }
  }

  // ------------------------------------------------------------------------
  // The prompts

  /**
   * The prompt loop: for each key, the current value is displayed (which raises for a
   * long non-string), then the next answer is read and stripped; a non-empty answer is
   * set at the key, an empty one keeps the current value.
   */
  function Ask(config: Json, keys: seq<string>, answers: seq<string>, listLength: Json -> nat): Result<Json, SetupError>
    decreases |keys|
  {
    if keys == [] then Success(config)
    else if DisplayRaises(ConfigValue(config, keys[0]), listLength) then Failure(DisplayFailed)
    else if answers == [] then Failure(InputEnded)
    else
      var value := Strip(answers[0]);
      if value == "" then Ask(config, keys[1..], answers[1..], listLength)
      else
        match SetPath(config, Split(keys[0], '.'), Str(value))
        case Failure(_) => Failure(NotADict)
        case Success(c) => Ask(c, keys[1..], answers[1..], listLength)
  }

  /** The paths of the keys part ways pairwise. */
  ghost predicate Separate(keys: seq<string>) {
    forall i, j :: 0 <= i < j < |keys| ==> Diverge(Split(keys[i], '.'), Split(keys[j], '.'))
  }

  /** What the prompt for `key` leaves at its path. */
  function Answered(config: Json, key: string, answer: string): Option<Json> {
    if Strip(answer) != "" then Some(Str(Strip(answer))) else Walk(config, Split(key, '.'))
  }

  /** The configuration after the prompt for the first key, when it did not raise. */
  function AfterFirst(config: Json, keys: seq<string>, answers: seq<string>): Json
    requires keys != [] && answers != []
  {
    var value := Strip(answers[0]);
    if value == "" then config
    else match SetPath(config, Split(keys[0], '.'), Str(value))
      case Success(c) => c
      case Failure(_) => config
  }

  /** A completed run of the prompts is the first prompt followed by the prompts for the other keys. */
  lemma AskStep(config: Json, keys: seq<string>, answers: seq<string>, listLength: Json -> nat)
    requires keys != [] && Ask(config, keys, answers, listLength).Success?
    ensures answers != []
    ensures Strip(answers[0]) != "" ==> SetPath(config, Split(keys[0], '.'), Str(Strip(answers[0]))).Success?
    ensures Ask(config, keys, answers, listLength) ==
            Ask(AfterFirst(config, keys, answers), keys[1..], answers[1..], listLength)
  {
  }

  /** The prompts need one answer per key. */
  lemma {:induction false} AskNeedsAnswers(config: Json, keys: seq<string>, answers: seq<string>, listLength: Json -> nat)
    requires Ask(config, keys, answers, listLength).Success?
    ensures |keys| <= |answers|
    decreases |keys|
  {
    if keys != [] {
      AskStep(config, keys, answers, listLength);
      AskNeedsAnswers(AfterFirst(config, keys, answers), keys[1..], answers[1..], listLength);
    }
  }

  /** The prompts leave every path that parts ways with all the keys as it was. */
  lemma {:induction false} AskUntouched(config: Json, keys: seq<string>, answers: seq<string>, listLength: Json -> nat, p: seq<string>)
    requires Ask(config, keys, answers, listLength).Success?
    requires forall i :: 0 <= i < |keys| ==> Diverge(Split(keys[i], '.'), p)
    ensures Walk(Ask(config, keys, answers, listLength).value, p) == Walk(config, p)
    decreases |keys|
  {
    if keys != [] {
      var rest := keys[1..];
      forall i | 0 <= i < |rest| ensures Diverge(Split(rest[i], '.'), p) {
        assert rest[i] == keys[i + 1];
      }
      AskStep(config, keys, answers, listLength);
      AskUntouched(AfterFirst(config, keys, answers), rest, answers[1..], listLength, p);
      var value := Strip(answers[0]);
      if value != "" {
        SetPathFrame(config, Split(keys[0], '.'), Str(value), p);
      }
    }
  }

  lemma SeparateTail(keys: seq<string>)
    requires Separate(keys) && keys != []
    ensures Separate(keys[1..])
  {
    forall i, j | 0 <= i < j < |keys[1..]|
      ensures Diverge(Split(keys[1..][i], '.'), Split(keys[1..][j], '.'))
    {
      assert keys[1..][i] == keys[i + 1] && keys[1..][j] == keys[j + 1];
    }
  }

  /** After the prompts each key holds its stripped answer, or its earlier value when the answer was blank. */
  lemma {:induction false} AskFields(config: Json, keys: seq<string>, answers: seq<string>, listLength: Json -> nat, k: nat)
    requires Separate(keys) && k < |keys|
    requires Ask(config, keys, answers, listLength).Success?
    ensures k < |answers|
    ensures Walk(Ask(config, keys, answers, listLength).value, Split(keys[k], '.')) == Answered(config, keys[k], answers[k])
    decreases |keys|
  {
    AskNeedsAnswers(config, keys, answers, listLength);
    AskStep(config, keys, answers, listLength);
    var value := Strip(answers[0]);
    var c := AfterFirst(config, keys, answers);
    var result := Ask(config, keys, answers, listLength).value;
    var first := Split(keys[0], '.');
    if k == 0 {
      forall i | 0 <= i < |keys[1..]| ensures Diverge(Split(keys[1..][i], '.'), first) {
        assert keys[1..][i] == keys[i + 1];
        DivergeSymmetric(first, Split(keys[i + 1], '.'));
      }
      AskUntouched(c, keys[1..], answers[1..], listLength, first);
      assert Walk(result, first) == Walk(c, first);
      if value != "" {
        SetThenWalk(config, first, Str(value));
      }
    } else {
      SeparateTail(keys);
      assert k < |keys| <= |answers|;
      assert keys[1..][k - 1] == keys[k];
      assert answers[1..][k - 1] == answers[k];
      AskFields(c, keys[1..], answers[1..], listLength, k - 1);
      assert Walk(result, Split(keys[k], '.')) == Answered(c, keys[k], answers[k]);
      if value != "" {
        assert Diverge(first, Split(keys[k], '.'));
        SetPathFrame(config, first, Str(value), Split(keys[k], '.'));
      }
    }
  }

  /** Two-key paths that differ part ways. */
  lemma PairsDiverge(a: seq<string>, b: seq<string>)
    requires |a| == 2 && |b| == 2 && a != b
    ensures Diverge(a, b)
  {
    assert a == [a[0], a[1]] && b == [b[0], b[1]];
    if a[0] == b[0] {
      assert Diverge(a[1..], b[1..]);
    }
  }

  lemma PathsDistinct(i: nat, j: nat)
    requires i < j < |ConfigPaths|
    ensures |ConfigPaths[i]| == 2 && |ConfigPaths[j]| == 2 && ConfigPaths[i] != ConfigPaths[j]
  {
    // the field names differ in length or in their first, second or sixth letter
    assert |ConfigPaths[i][1]| != |ConfigPaths[j][1]| || ConfigPaths[i][1][0] != ConfigPaths[j][1][0] ||
           ConfigPaths[i][1][1] != ConfigPaths[j][1][1] || ConfigPaths[i][1][5] != ConfigPaths[j][1][5];
  }

  /** The seven keys are told apart by their paths. */
  lemma ConfigKeysSeparate()
    ensures Separate(ConfigKeys)
  {
    forall i, j | 0 <= i < j < |ConfigKeys|
      ensures Diverge(Split(ConfigKeys[i], '.'), Split(ConfigKeys[j], '.'))
    {
      ConfigKeySplit(i);
      ConfigKeySplit(j);
      PathsDistinct(i, j);
      PairsDiverge(ConfigPaths[i], ConfigPaths[j]);
    }
  }

  /** The sections the seven keys live in. */
  const Sections: set<string> := {"douyin", "tikhub", "feishu"}

  /** Each section is a dict in a dict: no assignment of the prompts can raise. */
  ghost predicate SectionsReady(config: Json) {
    config.Obj? && forall s :: s in Sections ==> s in config.fields && config.fields[s].Obj?
  }

  /** Each key names a field of one of the sections. */
  ghost predicate SectionKeys(keys: seq<string>) {
    forall i :: 0 <= i < |keys| ==> |Split(keys[i], '.')| == 2 && Split(keys[i], '.')[0] in Sections
  }

  lemma ConfigKeysSections()
    ensures SectionKeys(ConfigKeys)
  {
    forall i | 0 <= i < |ConfigKeys| ensures |Split(ConfigKeys[i], '.')| == 2 && Split(ConfigKeys[i], '.')[0] in Sections {
      ConfigKeySplit(i);
    }
  }

  /** Setting a field of a section keeps every section a dict. */
  lemma SetKeepsSections(config: Json, path: seq<string>, x: Json)
    requires SectionsReady(config) && |path| == 2 && path[0] in Sections
    ensures SetPath(config, path, x).Success? && SectionsReady(SetPath(config, path, x).value)
  {
    var c := SetPath(config.fields[path[0]], path[1..], x);
    assert SetPath(config, path, x) == Success(Obj(config.fields[path[0] := c.value]));
  }

  /** No key's current value breaks the display line. */
  ghost predicate Displayable(config: Json, keys: seq<string>, listLength: Json -> nat) {
    forall i :: 0 <= i < |keys| ==> !DisplayRaises(ConfigValue(config, keys[i]), listLength)
  }

  /** Setting a string at one section field keeps every key of the sections displayable. */
  lemma SetKeepsDisplayable(config: Json, keys: seq<string>, path: seq<string>, value: string, listLength: Json -> nat)
    requires SectionsReady(config) && SectionKeys(keys) && |path| == 2 && path[0] in Sections
    requires Displayable(config, keys, listLength)
    ensures SetPath(config, path, Str(value)).Success?
    ensures Displayable(SetPath(config, path, Str(value)).value, keys, listLength)
  {
    SetKeepsSections(config, path, Str(value));
    var c := SetPath(config, path, Str(value)).value;
    forall i | 0 <= i < |keys| ensures !DisplayRaises(ConfigValue(c, keys[i]), listLength) {
      var p := Split(keys[i], '.');
      if p == path {
        SetThenWalk(config, path, Str(value));
      } else {
        PairsDiverge(path, p);
        SetPathFrame(config, path, Str(value), p);
      }
    }
  }

  /**
   * With every section a dict, no current value that breaks the display, and an answer
   * for each key, the prompts complete.
   */
  lemma {:induction false} AskCompletes(config: Json, keys: seq<string>, answers: seq<string>, listLength: Json -> nat)
    requires SectionsReady(config) && SectionKeys(keys) && |keys| <= |answers|
    requires Displayable(config, keys, listLength)
    ensures Ask(config, keys, answers, listLength).Success?
    decreases |keys|
  {
    if keys != [] {
      assert forall i :: 1 <= i < |keys| ==> keys[1..][i - 1] == keys[i];
      assert SectionKeys(keys[1..]);
      var value := Strip(answers[0]);
      if value == "" {
        assert Displayable(config, keys[1..], listLength);
        AskCompletes(config, keys[1..], answers[1..], listLength);
      } else {
        var path := Split(keys[0], '.');
        SetKeepsDisplayable(config, keys, path, value, listLength);
        var c := SetPath(config, path, Str(value)).value;
        assert Displayable(c, keys[1..], listLength);
        AskCompletes(c, keys[1..], answers[1..], listLength);
      }
    }
  }

  /** The prompt loop itself: the current value displayed, then one line read and stripped per key. */
  method AskAll(config: Json, keys: seq<string>, answers: seq<string>, listLength: Json -> nat) returns (r: Result<Json, SetupError>)
    ensures r == Ask(config, keys, answers, listLength)
  {
    var working := config;
    var pending, lines := keys, answers;
    while pending != []
      invariant Ask(config, keys, answers, listLength) == Ask(working, pending, lines, listLength)
      decreases |pending|
    {
      var current := GetConfigValue(working, pending[0]);
      if !current.Str? && TextLength(current, listLength) > 20 {
        return Failure(DisplayFailed);
      }
      if lines == [] {
        return Failure(InputEnded);
      }
      var value := Strip(lines[0]);
      if value != "" {
        match SetPath(working, Split(pending[0], '.'), Str(value)) {
          case Failure(_) => return Failure(NotADict);
          case Success(c) => working := c;
        }
      }
      pending, lines := pending[1..], lines[1..];
    }
    return Success(working);
  }

  // ------------------------------------------------------------------------
  // setup_config

  /** The template: config.example.json when present, the built-in default otherwise. */
  function Template(example: ConfigFile): Result<Json, SetupError> {
    match example
    case Absent => Success(DefaultTemplate)
    case Unparsable => Failure(TemplateUnparsable)
    case Document(doc) => Success(doc)
  }

  /** The template with an existing config.json merged in; an unreadable or non-object file changes nothing. */
  function Merged(template: Json, configFile: ConfigFile, order: seq<string>): Json {
    match configFile
    case Document(Obj(existing)) => Merge(template, existing, order)
    case _ => template
  }

  /** What setup_config saves to config.json, or why it stops. */
  function Wizard(example: ConfigFile, configFile: ConfigFile, order: seq<string>, answers: seq<string>, listLength: Json -> nat): Result<Json, SetupError> {
    match Template(example)
    case Failure(e) => Failure(e)
    case Success(template) => Ask(Merged(template, configFile, order), ConfigKeys, answers, listLength)
  }

  /** `order` names each section of config.json once, as `for section in existing` visits them. */
  ghost predicate FileOrder(configFile: ConfigFile, order: seq<string>) {
    configFile.Document? && configFile.doc.Obj? ==>
      (forall i, j :: 0 <= i < j < |order| ==> order[i] != order[j]) &&
      (forall s :: s in order <==> s in configFile.doc.fields)
  }

  /**
   * setup_config, with `order` the section names of config.json in file order and
   * `answers` the lines typed at the seven prompts.
   */
  method SetupConfig(example: ConfigFile, configFile: ConfigFile, order: seq<string>, answers: seq<string>, listLength: Json -> nat)
    returns (r: Result<Json, SetupError>)
    requires FileOrder(configFile, order)
    ensures r == Wizard(example, configFile, order, answers, listLength)
  {
    var config: Json;
    match example {
      case Absent => config := DefaultTemplate;
      case Unparsable => return Failure(TemplateUnparsable);
      case Document(doc) => config := doc;
    }
    ghost var template := config;
    assert Template(example) == Success(template);
    match configFile {
      case Document(Obj(existing)) => config := MergeExisting(config, existing, order);
      case _ =>
    }
    assert config == Merged(template, configFile, order);
    r := AskAll(config, ConfigKeys, answers, listLength);
  }

  /**
   * What the wizard saves: each of the seven keys holds its stripped answer, or the
   * template-and-file value when the answer was blank; nothing outside them changes.
   */
  lemma WizardFields(example: ConfigFile, configFile: ConfigFile, order: seq<string>, answers: seq<string>, listLength: Json -> nat, k: nat)
    requires Wizard(example, configFile, order, answers, listLength).Success? && k < |ConfigKeys|
    ensures Template(example).Success?
    ensures var before := Merged(Template(example).value, configFile, order);
            k < |answers| &&
            Walk(Wizard(example, configFile, order, answers, listLength).value, ConfigPaths[k]) ==
              Answered(before, ConfigKeys[k], answers[k])
  {
    ConfigKeysSeparate();
    ConfigKeySplit(k);
    AskFields(Merged(Template(example).value, configFile, order), ConfigKeys, answers, listLength, k);
  }

  /** After the merge, a field of a template dict section holds the template's value or config.json's. */
  lemma {:induction false} MergeField(config: Json, existing: map<string, Json>, order: seq<string>, s: string, f: string)
    requires config.Obj? && s in config.fields && config.fields[s].Obj?
    ensures var w := Walk(Merge(config, existing, order), [s, f]);
            w == Walk(config, [s, f]) || w == Walk(Obj(existing), [s, f])
    decreases |order|
  {
    if order != [] && config.Obj? {
      var section := order[0];
      if section in existing && section in config.fields && config.fields[section].Obj? {
        match Update(config.fields[section].fields, existing[section])
        case None =>
        case Some(m) =>
          var c := Obj(config.fields[section := Obj(m)]);
          MergeField(c, existing, order[1..], s, f);
          assert [s, f][1..] == [f];
      } else {
        MergeField(config, existing, order[1..], s, f);
      }
    }
  }

  /** The built-in template leaves each of the seven keys blank. */
  lemma DefaultTemplateBlank(i: nat)
    requires i < |ConfigPaths|
    ensures Walk(DefaultTemplate, ConfigPaths[i]) == Some(Str(""))
  {
    assert ConfigPaths[i][1..] == [ConfigPaths[i][1]];
  }

  /** config.json gives none of the seven keys a value that breaks the display. */
  ghost predicate FileDisplayable(configFile: ConfigFile, listLength: Json -> nat) {
    forall i :: 0 <= i < |ConfigPaths| ==>
      match Walk(if configFile.Document? then configFile.doc else Empty, ConfigPaths[i])
      case None => true
      case Some(v) => !DisplayRaises(Shown(v), listLength)
  }

  /** The merged value at a section field is the template's or config.json's. */
  lemma MergedField(template: Json, configFile: ConfigFile, order: seq<string>, path: seq<string>)
    requires template.Obj? && |path| == 2 && path[0] in template.fields && template.fields[path[0]].Obj?
    ensures var w := Walk(Merged(template, configFile, order), path);
            w == Walk(template, path) || w == Walk(if configFile.Document? then configFile.doc else Empty, path)
  {
    assert path == [path[0], path[1]];
    match configFile {
      case Document(Obj(existing)) =>
        MergeField(template, existing, order, path[0], path[1]);
      case _ =>
    }
  }

  lemma MergedKeyDisplayable(configFile: ConfigFile, order: seq<string>, listLength: Json -> nat, i: nat)
    requires FileDisplayable(configFile, listLength) && i < |ConfigKeys|
    ensures !DisplayRaises(ConfigValue(Merged(DefaultTemplate, configFile, order), ConfigKeys[i]), listLength)
  {
    ConfigKeySplit(i);
    ConfigKeysSections();
    DefaultTemplateBlank(i);
    var path := ConfigPaths[i];
    var doc := if configFile.Document? then configFile.doc else Empty;
    assert SectionsReady(DefaultTemplate);
    assert |path| == 2 && path[0] in Sections;
    MergedField(DefaultTemplate, configFile, order, path);
    var w := Walk(Merged(DefaultTemplate, configFile, order), path);
    assert w == Some(Str("")) || w == Walk(doc, path);
    assert Walk(doc, path).Some? ==> !DisplayRaises(Shown(Walk(doc, path).value), listLength);
  }

  /**
   * Without config.example.json, seven answers lead to a saved configuration whatever
   * config.json holds, unless it gives one of the keys a non-string value whose text is
   * longer than 20 characters.
   */
  lemma DefaultTemplateCompletes(configFile: ConfigFile, order: seq<string>, answers: seq<string>, listLength: Json -> nat)
    requires |answers| >= |ConfigKeys| && FileDisplayable(configFile, listLength)
    ensures Wizard(Absent, configFile, order, answers, listLength).Success?
  {
    var merged := Merged(DefaultTemplate, configFile, order);
    if configFile.Document? && configFile.doc.Obj? {
      MergeShape(DefaultTemplate, configFile.doc.fields, order);
    }
    forall i | 0 <= i < |ConfigKeys| ensures !DisplayRaises(ConfigValue(merged, ConfigKeys[i]), listLength) {
      MergedKeyDisplayable(configFile, order, listLength, i);
    }
    ConfigKeysSections();
    AskCompletes(merged, ConfigKeys, answers, listLength);
  }

  /**
   * When the merged template holds at `douyin.kol_id` a number whose text is longer
   * than 20 characters, the wizard stops at its first prompt, before anything is
   * read or saved.
   */
  lemma LongKolIdStopsWizard(example: ConfigFile, configFile: ConfigFile, order: seq<string>, answers: seq<string>,
                             listLength: Json -> nat, n: int)
    requires Template(example).Success?
    requires Walk(Merged(Template(example).value, configFile, order), ["douyin", "kol_id"]) == Some(Int(n))
    requires Pow10(20) <= n || Pow10(19) <= -n
    ensures Wizard(example, configFile, order, answers, listLength) == Failure(DisplayFailed)
  {
    var merged := Merged(Template(example).value, configFile, order);
    Pow10Monotone(0, 19);
    Pow10Monotone(19, 20);
    KolIdShown(merged, n);
    IntegerDisplayRaises(n, listLength);
    assert Ask(merged, ConfigKeys, answers, listLength) == Failure(DisplayFailed);
  }

  /** Merging a file of one dict section into a template that has it as a dict. */
  lemma MergeOne(config: Json, section: string, fields: map<string, Json>)
    requires config.Obj? && section in config.fields && config.fields[section].Obj?
    ensures Merge(config, map[section := Obj(fields)], [section]) ==
            Obj(config.fields[section := Obj(config.fields[section].fields + fields)])
  {
    assert [section][1..] == [];
  }

  /** Merging `{"douyin": {"kol_id": n}}` into a template with a `douyin` dict puts n at `douyin.kol_id`. */
  lemma MergedKolId(template: Json, n: int)
    requires template.Obj? && "douyin" in template.fields && template.fields["douyin"].Obj?
    ensures var configFile := Document(Obj(map["douyin" := Obj(map["kol_id" := Int(n)])]));
            Walk(Merged(template, configFile, ["douyin"]), ["douyin", "kol_id"]) == Some(Int(n))
  {
    var kol := map["kol_id" := Int(n)];
    MergeOne(template, "douyin", kol);
    var douyin := Obj(template.fields["douyin"].fields + kol);
    var merged := Obj(template.fields["douyin" := douyin]);
    assert Merged(template, Document(Obj(map["douyin" := Obj(kol)])), ["douyin"]) == merged;
    assert ["douyin", "kol_id"][1..] == ["kol_id"] && ["kol_id"][1..] == [];
    assert Walk(merged, ["douyin", "kol_id"]) == Walk(douyin, ["kol_id"]) == Walk(Int(n), []);
  }

  /** A non-zero number at `douyin.kol_id` is what the first prompt shows. */
  lemma KolIdShown(config: Json, n: int)
    requires n != 0 && Walk(config, ["douyin", "kol_id"]) == Some(Int(n))
    ensures ConfigValue(config, ConfigKeys[0]) == Int(n)
  {
    ConfigKeySplit(0);
    assert Split(ConfigKeys[0], '.') == ["douyin", "kol_id"];
    assert Shown(Int(n)) == Int(n);
  }

  // ------------------------------------------------------------------------
  // main

  /** The document the non-interactive mode edits: config.json, else config.example.json, else `{}`. */
  function Base(configFile: ConfigFile, example: ConfigFile): Result<Json, SetupError> {
    match configFile
    case Document(doc) => Success(doc)
    case Unparsable => Failure(ConfigUnparsable)
    case Absent =>
      match example
      case Document(doc) => Success(doc)
      case Unparsable => Failure(TemplateUnparsable)
      case Absent => Success(Empty)
  }

  /** `setup.py KEY VALUE`: the base document with the value set at the dotted key. */
  function SetFromArgs(configFile: ConfigFile, example: ConfigFile, key: string, value: string): Result<Json, SetupError> {
    match Base(configFile, example)
    case Failure(e) => Failure(e)
    case Success(base) =>
      match SetPath(base, Split(key, '.'), Str(value))
      case Failure(_) => Failure(NotADict)
      case Success(c) => Success(c)
  }

  /**
   * The saved document holds the value, unstripped, at the key and agrees with the
   * base document on every path that parts ways with the key.
   */
  lemma SetFromArgsWrites(configFile: ConfigFile, example: ConfigFile, key: string, value: string, p: seq<string>)
    requires SetFromArgs(configFile, example, key, value).Success?
    ensures Base(configFile, example).Success?
    ensures Walk(SetFromArgs(configFile, example, key, value).value, Split(key, '.')) == Some(Str(value))
    ensures Diverge(Split(key, '.'), p) ==>
            Walk(SetFromArgs(configFile, example, key, value).value, p) == Walk(Base(configFile, example).value, p)
  {
    var base := Base(configFile, example).value;
    SetThenWalk(base, Split(key, '.'), Str(value));
    if Diverge(Split(key, '.'), p) {
      SetPathFrame(base, Split(key, '.'), Str(value), p);
    }
  }

  /** With neither file present the result is the bare path to the value, and it never raises. */
  lemma SetFromNothing(key: string, value: string)
    ensures SetFromArgs(Absent, Absent, key, value) == Success(Nest(Split(key, '.'), Str(value)))
  {
    SetPathCreates(Empty, Split(key, '.'), Str(value));
  }

  /** How a run ends: the exit status and what was written to config.json, if anything. */
  datatype Session = Session(status: int, saved: Option<Json>)

  function Outcome(r: Result<Json, SetupError>): Session {
    match r
    case Success(config) => Session(0, Some(config))
    case Failure(_) => Session(1, None)
  }

  /**
   * main, with `args` the command-line arguments after the script name: two or more
   * set one key, exactly one does nothing, none runs the wizard.
   */
  method SetupMain(args: seq<string>, configFile: ConfigFile, example: ConfigFile, order: seq<string>, answers: seq<string>, listLength: Json -> nat)
    returns (session: Session)
    requires FileOrder(configFile, order)
    ensures |args| >= 2 ==> session == Outcome(SetFromArgs(configFile, example, args[0], args[1]))
    ensures |args| == 1 ==> session == Session(0, None)
    ensures args == [] ==> session == Outcome(Wizard(example, configFile, order, answers, listLength))
    ensures session.status == 0 <==> session.saved.Some? || |args| == 1
  {
    if |args| > 0 {
      if |args| >= 2 {
        return Outcome(SetFromArgs(configFile, example, args[0], args[1]));
      }
      // a lone argument falls through main, which returns None: exit status 0
      return Session(0, None);
    }
    var saved := SetupConfig(example, configFile, order, answers, listLength);
    return Outcome(saved);
  }
}
