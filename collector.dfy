/**
 * collector.py: the DouyinDataCollector.  It loads config.json with environment
 * overrides and validates it, obtains a Feishu tenant token, sweeps a window of
 * dates back from the target day asking TikHub for the follower series, keeps the
 * latest entry, and writes it into the Feishu table unless a record for that date
 * already exists, then posts a notification.
 *
 * Every network exchange is a parameter (a reply per request), and every request
 * the collector sends is returned as a `Call`, so the order of the exchanges can be
 * stated and proved.
 */
module Collector {
  import opened Wrappers
  import opened PyStr
  import opened ConfigTree


  /** `os.environ.get(name)` when it is set and non-empty (the truthy case). */
  function EnvValue(env: Env, name: string): Option<string> {
    if name in env && env[name] != "" then Some(env[name]) else None
  }

  // ------------------------------------------------------------------------
  // load_config: the environment overlay

  /** One line `if os.environ.get(name): config[section][field] = os.environ[name]`. */
  datatype Override = Override(name: string, section: string, field: string) {
    function Target(): seq<string> {
      [section, field]
    }
  }

  const ApiKeyOverride := Override("TIKHUB_API_KEY", "tikhub", "api_key")
  const AppIdOverride := Override("FEISHU_APP_ID", "feishu", "app_id")
  const AppSecretOverride := Override("FEISHU_APP_SECRET", "feishu", "app_secret")
  const KolIdOverride := Override("DOUYIN_KOL_ID", "douyin", "kol_id")
  const AppTokenOverride := Override("FEISHU_APP_TOKEN", "feishu", "app_token")
  const TableIdOverride := Override("FEISHU_TABLE_ID", "feishu", "table_id")
  const ChatIdOverride := Override("FEISHU_CHAT_ID", "feishu", "chat_id")

  /** The seven overrides, in the order load_config applies them. */
  const Overrides: seq<Override> :=
    [ApiKeyOverride, AppIdOverride, AppSecretOverride, KolIdOverride,
     AppTokenOverride, TableIdOverride, ChatIdOverride]

  /** A field that `_validate_config` insists on, with its config.example.json placeholder. */
  datatype Required = Required(section: string, field: string, placeholder: string)

  const ApiKeyField := Required("tikhub", "api_key", "YOUR_TIKHUB_API_KEY")
  const AppIdField := Required("feishu", "app_id", "YOUR_FEISHU_APP_ID")
  const AppSecretField := Required("feishu", "app_secret", "YOUR_FEISHU_APP_SECRET")
  const KolIdField := Required("douyin", "kol_id", "YOUR_DOUYIN_KOL_ID")

  /** The fields _validate_config checks, in the order it reports them. */
  const RequiredFields: seq<Required> := [ApiKeyField, AppIdField, AppSecretField, KolIdField]

  /** Why the collector cannot be constructed; every case ends the process with status 1. */
  datatype LoadError =
    | FileMissing                  // FileNotFoundError, reported and sys.exit(1)
    | FileMalformed                // json.JSONDecodeError, reported and sys.exit(1)
    | Crashed                      // an uncaught KeyError, TypeError or AttributeError
    | Invalid(bad: seq<Required>)  // the errors list of _validate_config, then sys.exit(1)

  /** `config[section]` exists and is a dict, so `config[section][field] = x` can assign. */
  predicate Assignable(config: Json, section: string) {
    config.Obj? && section in config.fields && config.fields[section].Obj?
  }

  /** One override line; it raises when its variable is set but the section cannot take it. */
  function Apply(config: Json, env: Env, o: Override): (r: Result<Json, LoadError>)
  {
    match EnvValue(env, o.name)
    case None => Success(config)
    case Some(x) =>
      if Assignable(config, o.section) then Success(SetPath(config, o.Target(), Str(x)).value)
      else Failure(Crashed)
  }

  /** The overrides applied in order, stopping at the first that raises. */
  function Overlay(config: Json, env: Env, os: seq<Override>): Result<Json, LoadError>
    decreases |os|
  {
    if os == [] then Success(config)
    else
      match Apply(config, env, os[0])
      case Success(c) => Overlay(c, env, os[1..])
      case Failure(e) => Failure(e)
  }

  /** No two overrides write the same field. */
  ghost predicate DistinctTargets(os: seq<Override>) {
    forall i, j :: 0 <= i < j < |os| ==> os[i].Target() != os[j].Target()
  }

  /** The field an override writes, for the overrides whose variable is unset. */
  function Expected(config: Json, env: Env, o: Override): Option<Json> {
    match EnvValue(env, o.name)
    case Some(x) => Some(Str(x))
    case None => Walk(config, o.Target())
  }

  lemma ApplyKeepsAssignable(config: Json, env: Env, o: Override, section: string)
    requires Apply(config, env, o).Success? && Assignable(config, section)
    ensures Assignable(Apply(config, env, o).value, section)
  {
  }

  lemma ApplyFrame(config: Json, env: Env, o: Override, p: seq<string>)
    requires Apply(config, env, o).Success? && Diverge(o.Target(), p)
    ensures Walk(Apply(config, env, o).value, p) == Walk(config, p)
  {
    if EnvValue(env, o.name).Some? {
      SetPathFrame(config, o.Target(), Str(EnvValue(env, o.name).value), p);
    }
  }

  /** Two distinct two-key targets part ways. */
  lemma TargetsDiverge(a: Override, b: Override)
    requires a.Target() != b.Target()
    ensures Diverge(a.Target(), b.Target())
  {
  }

  /**
   * After a successful overlay, every overridden field holds its variable's value
   * when that variable is set and non-empty, and its file value otherwise.
   */
  lemma {:induction false} OverlayFields(config: Json, env: Env, os: seq<Override>, k: nat)
    requires DistinctTargets(os) && k < |os|
    requires Overlay(config, env, os).Success?
    ensures Walk(Overlay(config, env, os).value, os[k].Target()) == Expected(config, env, os[k])
    decreases |os|
  {
    var c := Apply(config, env, os[0]).value;
    if k == 0 {
      if EnvValue(env, os[0].name).Some? {
        SetThenWalk(config, os[0].Target(), Str(EnvValue(env, os[0].name).value));
      }
      OverlayUntouched(c, env, os[1..], os[0].Target());
    } else {
      OverlayFields(c, env, os[1..], k - 1);
      TargetsDiverge(os[0], os[k]);
      ApplyFrame(config, env, os[0], os[k].Target());
    }
  }

  /** The overlay leaves every path that parts ways with all its targets as it was. */
  lemma {:induction false} OverlayUntouched(config: Json, env: Env, os: seq<Override>, p: seq<string>)
    requires Overlay(config, env, os).Success?
    requires forall i :: 0 <= i < |os| ==> Diverge(os[i].Target(), p)
    ensures Walk(Overlay(config, env, os).value, p) == Walk(config, p)
    decreases |os|
  {
    if os != [] {
      ApplyFrame(config, env, os[0], p);
      OverlayUntouched(Apply(config, env, os[0]).value, env, os[1..], p);
    }
  }

  /** The overlay raises exactly when a set variable names a section that is not a dict. */
  lemma {:induction false} OverlayFails(config: Json, env: Env, os: seq<Override>)
    ensures Overlay(config, env, os).Failure? <==>
            exists i :: 0 <= i < |os| && EnvValue(env, os[i].name).Some? && !Assignable(config, os[i].section)
    decreases |os|
  {
    if os != [] {
      match Apply(config, env, os[0])
      case Failure(_) =>
      case Success(c) =>
        OverlayFails(c, env, os[1..]);
        forall s | Assignable(config, s) ensures Assignable(c, s) {
          ApplyKeepsAssignable(config, env, os[0], s);
        }
        forall s | Assignable(c, s) ensures Assignable(config, s) {
          if !Assignable(config, s) {
            assert c.fields.Keys == config.fields.Keys + {os[0].section};
          }
        }
        assert forall i :: 1 <= i < |os| ==> os[1..][i - 1] == os[i];
    }
  }

  // ------------------------------------------------------------------------
  // _validate_config

  /** `config.get(section, {}).get(field, '')`; a Failure where Python raises AttributeError. */
  function GetField(config: Json, section: string, field: string): Result<Json, LoadError>
  {
    if !config.Obj? then Failure(Crashed)
    else if section !in config.fields then Success(Str(""))
    else
      match config.fields[section]
      case Obj(m) => Success(if field in m then m[field] else Str(""))
      case _ => Failure(Crashed)
  }

  /** `not value or value == placeholder`, for a lookup that returned a value. */
  predicate Unusable(config: Json, q: Required) {
    match GetField(config, q.section, q.field)
    case Success(v) => !Truthy(v) || v == Str(q.placeholder)
    case Failure(_) => false
  }

  /** The error a required field contributes: itself when unusable, nothing otherwise. */
  function FieldError(config: Json, q: Required): seq<Required> {
    if Unusable(config, q) then [q] else []
  }

  /** `errors` in front of the errors still to come, unless a later lookup raises. */
  function Prepend(errors: seq<Required>, later: Result<seq<Required>, LoadError>): Result<seq<Required>, LoadError> {
    match later
    case Success(rest) => Success(errors + rest)
    case Failure(e) => Failure(e)
  }

  /** The verdict of _validate_config over `reqs`: the unusable fields in order, or the lookup that raises. */
  function Validate(config: Json, reqs: seq<Required>): Result<seq<Required>, LoadError>
  {
    if reqs == [] then Success([])
    else
      match GetField(config, reqs[0].section, reqs[0].field)
      case Failure(e) => Failure(e)
      case Success(_) => Prepend(FieldError(config, reqs[0]), Validate(config, reqs[1..]))
  }

  /** Validation raises exactly when one of the lookups does. */
  lemma {:induction false} ValidateRaises(config: Json, reqs: seq<Required>)
    ensures Validate(config, reqs).Failure? <==>
            exists i :: 0 <= i < |reqs| && GetField(config, reqs[i].section, reqs[i].field).Failure?
    ensures Validate(config, reqs).Failure? ==> Validate(config, reqs).error == Crashed
  {
    if reqs != [] {
      ValidateRaises(config, reqs[1..]);
      assert forall i :: 1 <= i < |reqs| ==> reqs[1..][i - 1] == reqs[i];
      if GetField(config, reqs[0].section, reqs[0].field).Failure? {
        assert 0 < |reqs|;
      } else if Validate(config, reqs[1..]).Failure? {
        var i :| 0 <= i < |reqs[1..]| && GetField(config, reqs[1..][i].section, reqs[1..][i].field).Failure?;
        assert GetField(config, reqs[i + 1].section, reqs[i + 1].field).Failure?;
      }
    }
  }

  /** Validation reports a field exactly when it is one of `reqs` and unusable. */
  lemma {:induction false} ValidateReports(config: Json, reqs: seq<Required>, q: Required)
    requires Validate(config, reqs).Success?
    ensures q in Validate(config, reqs).value <==> q in reqs && Unusable(config, q)
  {
    if reqs != [] {
      ValidateReports(config, reqs[1..], q);
      assert reqs == [reqs[0]] + reqs[1..];
    }
  }

  lemma PrependNothing(later: Result<seq<Required>, LoadError>)
    ensures Prepend([], later) == later
  {
    match later
    case Success(rest) => assert [] + rest == rest;
    case Failure(_) =>
  }

  /** One more lookup of validation: its error joins the ones before it. */
  lemma ValidateStep(config: Json, errors: seq<Required>, reqs: seq<Required>)
    requires reqs != [] && GetField(config, reqs[0].section, reqs[0].field).Success?
    ensures Prepend(errors, Validate(config, reqs)) ==
            Prepend(if Unusable(config, reqs[0]) then errors + [reqs[0]] else errors, Validate(config, reqs[1..]))
  {
    match Validate(config, reqs[1..])
    case Success(later) =>
      assert errors + (FieldError(config, reqs[0]) + later) == errors + FieldError(config, reqs[0]) + later;
      assert errors + [] == errors;
    case Failure(_) =>
  }

  /** _validate_config collects one error per unusable required field, in the fixed order. */
  method ValidateConfig(config: Json) returns (r: Result<seq<Required>, LoadError>)
    ensures r == Validate(config, RequiredFields)
  {
    ghost var rest := RequiredFields;
    var errors: seq<Required> := [];
    PrependNothing(Validate(config, rest));
    var apiKey :- GetField(config, "tikhub", "api_key");
    assert rest[0] == ApiKeyField;
    ValidateStep(config, errors, rest);
    if !Truthy(apiKey) || apiKey == Str("YOUR_TIKHUB_API_KEY") {
      errors := errors + [ApiKeyField];
    }
    rest := rest[1..];
    assert Validate(config, RequiredFields) == Prepend(errors, Validate(config, rest));
    var appId :- GetField(config, "feishu", "app_id");
    assert rest[0] == AppIdField;
    ValidateStep(config, errors, rest);
    if !Truthy(appId) || appId == Str("YOUR_FEISHU_APP_ID") {
      errors := errors + [AppIdField];
    }
    rest := rest[1..];
    assert Validate(config, RequiredFields) == Prepend(errors, Validate(config, rest));
    var appSecret :- GetField(config, "feishu", "app_secret");
    assert rest[0] == AppSecretField;
    ValidateStep(config, errors, rest);
    if !Truthy(appSecret) || appSecret == Str("YOUR_FEISHU_APP_SECRET") {
      errors := errors + [AppSecretField];
    }
    rest := rest[1..];
    assert Validate(config, RequiredFields) == Prepend(errors, Validate(config, rest));
    var kolId :- GetField(config, "douyin", "kol_id");
    assert rest[0] == KolIdField;
    ValidateStep(config, errors, rest);
    if !Truthy(kolId) || kolId == Str("YOUR_DOUYIN_KOL_ID") {
      errors := errors + [KolIdField];
    }
    rest := rest[1..];
    assert rest == [] && errors + [] == errors;
    return Success(errors);
  }

  /** What loading config.json with the environment gives: the config, or why it stops. */
  function Load(file: ConfigFile, env: Env): Result<Json, LoadError>
  {
    match file
    case Absent => Failure(FileMissing)
    case Unparsable => Failure(FileMalformed)
    case Document(doc) =>
      match Overlay(doc, env, Overrides)
      case Failure(e) => Failure(e)
      case Success(config) =>
        match Validate(config, RequiredFields)
        case Failure(e) => Failure(e)
        case Success(errors) => if errors != [] then Failure(Invalid(errors)) else Success(config)
  }

  /** load_config: read the file, apply the seven overrides in order, validate. */
  method LoadConfig(file: ConfigFile, env: Env) returns (r: Result<Json, LoadError>)
    ensures r == Load(file, env)
  {
    var config: Json;
    match file {
      case Absent => return Failure(FileMissing);
      case Unparsable => return Failure(FileMalformed);
      case Document(doc) => config := doc;
    }
    ghost var doc := config;
    ghost var rest := Overrides;
    config :- Apply(config, env, ApiKeyOverride);
    rest := rest[1..];
    assert Overlay(doc, env, Overrides) == Overlay(config, env, rest);
    config :- Apply(config, env, AppIdOverride);
    rest := rest[1..];
    assert Overlay(doc, env, Overrides) == Overlay(config, env, rest);
    config :- Apply(config, env, AppSecretOverride);
    rest := rest[1..];
    assert Overlay(doc, env, Overrides) == Overlay(config, env, rest);
    config :- Apply(config, env, KolIdOverride);
    rest := rest[1..];
    assert Overlay(doc, env, Overrides) == Overlay(config, env, rest);
    config :- Apply(config, env, AppTokenOverride);
    rest := rest[1..];
    assert Overlay(doc, env, Overrides) == Overlay(config, env, rest);
    config :- Apply(config, env, TableIdOverride);
    rest := rest[1..];
    assert Overlay(doc, env, Overrides) == Overlay(config, env, rest);
    config :- Apply(config, env, ChatIdOverride);
    rest := rest[1..];
    assert rest == [];
    assert Overlay(doc, env, Overrides) == Success(config);
    var errors :- ValidateConfig(config);
    if errors != [] {
      return Failure(Invalid(errors));
    }
    return Success(config);
  }

  /** A configuration that loading accepted: the four required fields are usable. */
  predicate Loaded(config: Json) {
    Validate(config, RequiredFields) == Success([])
  }

  /**
   * What a successful load promises: every overridden field carries its variable
   * when that is set and non-empty, or the file value otherwise, and the four
   * required fields are non-empty and not their placeholders.
   */
  lemma LoadSucceeds(doc: Json, env: Env, k: nat)
    requires Load(Document(doc), env).Success? && k < |Overrides|
    ensures Loaded(Load(Document(doc), env).value)
    ensures Walk(Load(Document(doc), env).value, Overrides[k].Target()) == Expected(doc, env, Overrides[k])
  {
    OverlayFields(doc, env, Overrides, k);
  }

  /** A loaded configuration has the three sections as dicts. */
  lemma LoadedSections(config: Json)
    requires Loaded(config)
    ensures config.Obj? && HasTikhub(config)
    ensures forall s :: s in {"tikhub", "feishu", "douyin"} ==> s in config.fields && config.fields[s].Obj?
  {
    ValidateRaises(config, RequiredFields);
    ValidateReports(config, RequiredFields, ApiKeyField);
    ValidateReports(config, RequiredFields, AppIdField);
    ValidateReports(config, RequiredFields, KolIdField);
    assert GetField(config, RequiredFields[0].section, RequiredFields[0].field).Success?;
    assert GetField(config, RequiredFields[1].section, RequiredFields[1].field).Success?;
    assert GetField(config, RequiredFields[3].section, RequiredFields[3].field).Success?;
  }

  // ------------------------------------------------------------------------
  // fetch_douyin_data

  /** One entry of `data.daily` or `data.delta`. */
  datatype Entry = Entry(date: string, fansCnt: int)

  /** The two series of a TikHub reply (an absent or falsy list is empty). */
  datatype Series = Series(daily: seq<Entry>, delta: seq<Entry>)

  /** What one GET to a candidate URL yields: an exception of any kind, or a JSON body. */
  datatype Response = Failed | Received(series: Series)

  /** The acceptance test: both `data.daily` and `data.delta` are non-empty. */
  predicate Accepted(r: Response) {
    r.Received? && r.series.daily != [] && r.series.delta != []
  }

  /** The candidate URL list of `fetch_douyin_data`. */
  datatype UrlList =
    | Listed(urls: seq<Json>)   // tried in this order
    | NoAddress                 // "missing API address": None without any request
    | NotIterable               // `enumerate` raises TypeError on a number

  /**
   * `api_urls` when truthy (a string is iterated character by character),
   * else `[api_url]` when that is truthy, else no address.
   */
  function Urls(tikhub: Json): UrlList
    requires tikhub.Obj?
  {
    var listed := if "api_urls" in tikhub.fields then tikhub.fields["api_urls"] else Arr([]);
    if Truthy(listed) then
      match listed
      case Arr(items) => Listed(items)
      case Str(s) => Listed(seq(|s|, i requires 0 <= i < |s| => Str([s[i]])))
      case _ => NotIterable
    else if "api_url" in tikhub.fields && Truthy(tikhub.fields["api_url"]) then Listed([tikhub.fields["api_url"]])
    else NoAddress
  }

  /** The first accepted response among URLs `from` to `n - 1`. */
  function FirstAccepted(reply: nat -> Response, n: nat, from: nat): (k: Option<nat>)
    ensures k.Some? ==> from <= k.value < n && Accepted(reply(k.value)) &&
                        forall i :: from <= i < k.value ==> !Accepted(reply(i))
    ensures k.None? ==> forall i :: from <= i < n ==> !Accepted(reply(i))
    decreases n - from
  {
    if from >= n then None
    else if Accepted(reply(from)) then Some(from)
    else FirstAccepted(reply, n, from + 1)
  }

  /** A request the collector sends. */
  datatype Call =
    | TokenRequest                                 // POST tenant_access_token/internal
    | Fetch(url: Json, start: string, end: string)  // GET a TikHub candidate URL
    | Search(date: string)                          // POST records/search
    | Create(record: Parsed)                        // POST records
    | Notify(record: Parsed)                        // POST im/v1/messages

  function FetchCalls(urls: seq<Json>, start: string, end: string): (calls: seq<Call>)
  {
    seq(|urls|, i requires 0 <= i < |urls| => Fetch(urls[i], start, end))
  }

  datatype Fetched = Found(series: Series) | NotFound | Raised

  /** The result and the requests of `fetch_douyin_data` with the replies given by index. */
  function FetchOutcome(tikhub: Json, start: string, end: string, reply: nat -> Response): (Fetched, seq<Call>)
    requires tikhub.Obj?
  {
    match Urls(tikhub)
    case NotIterable => (Raised, [])
    case NoAddress => (NotFound, [])
    case Listed(urls) =>
      match FirstAccepted(reply, |urls|, 0)
      case Some(k) => (Found(reply(k).series), FetchCalls(urls[..k + 1], start, end))
      case None => (NotFound, FetchCalls(urls, start, end))
  }

  // ------------------------------------------------------------------------
  // parse_data

  /** The record parse_data builds. */
  datatype Parsed = Parsed(date: string, fansCount: int, fansDelta: int)

  /**
   * `k` is the position of `sorted(entries, key=date, reverse=True)[0]`: its date
   * is not below any other, and every earlier entry has a strictly smaller date
   * (the sort is stable, so among equal dates the first in input order wins).
   */
  ghost predicate IsLatest(entries: seq<Entry>, k: int) {
    0 <= k < |entries| &&
    (forall j :: 0 <= j < |entries| ==> !Less(entries[k].date, entries[j].date)) &&
    (forall j :: 0 <= j < k ==> Less(entries[j].date, entries[k].date))
  }

  function Latest(entries: seq<Entry>): (k: nat)
    requires entries != []
    ensures IsLatest(entries, k)
  {
    if |entries| == 1 then
      LessIrreflexive(entries[0].date);
      0
    else
      var n := |entries| - 1;
      var init := entries[..n];
      var k := Latest(init);
      assert forall j :: 0 <= j < n ==> init[j] == entries[j];
      if Less(entries[k].date, entries[n].date) then
        assert forall j :: 0 <= j < n ==> Less(entries[j].date, entries[n].date) by {
          forall j | 0 <= j < n ensures Less(entries[j].date, entries[n].date) {
            LessTotal(entries[j].date, entries[k].date);
            if Less(entries[j].date, entries[k].date) {
              LessTransitive(entries[j].date, entries[k].date, entries[n].date);
            }
          }
        }
        forall j | 0 <= j <= n ensures !Less(entries[n].date, entries[j].date) {
          if j < n {
            LessAsymmetric(entries[j].date, entries[n].date);
          } else {
            LessIrreflexive(entries[n].date);
          }
        }
        n
      else
        k
  }

  /** There is only one such position: parse_data's choice is determined. */
  lemma LatestUnique(entries: seq<Entry>, a: int, b: int)
    requires IsLatest(entries, a) && IsLatest(entries, b)
    ensures a == b
  {
    assert !Less(entries[a].date, entries[b].date);
    assert !Less(entries[b].date, entries[a].date);
  }

  /** The record is made of the latest daily entry and the latest delta entry. */
  lemma ParseDataLatest(s: Series)
    requires s.daily != [] && s.delta != []
    ensures exists k :: IsLatest(s.daily, k) && ParseData(s).date == s.daily[k].date && ParseData(s).fansCount == s.daily[k].fansCnt
    ensures exists k :: IsLatest(s.delta, k) && ParseData(s).fansDelta == s.delta[k].fansCnt
  {
    var a, b := Latest(s.daily), Latest(s.delta);
    assert IsLatest(s.daily, a) && IsLatest(s.delta, b);
  }

  /** parse_data never reports a date that is below the date of some daily entry. */
  lemma ParsedNotBelow(s: Series, j: nat, d: string)
    requires s.daily != [] && s.delta != [] && j < |s.daily| && Less(d, s.daily[j].date)
    ensures ParseData(s).date != d
  {
    var m := Latest(s.daily);
    assert ParseData(s).date == s.daily[m].date;
    assert !Less(s.daily[m].date, s.daily[j].date);
  }

  /**
   * parse_data: the date and `fans_cnt` of the latest `daily` entry and the
   * `fans_cnt` of the latest `delta` entry.
   */
  function ParseData(s: Series): Parsed
    requires s.daily != [] && s.delta != []
  {
    var latestDay := Latest(s.daily);
    var latestDelta := Latest(s.delta);
    Parsed(s.daily[latestDay].date, s.daily[latestDay].fansCnt, s.delta[latestDelta].fansCnt)
  }

  // ------------------------------------------------------------------------
  // Feishu replies and the effect of a write

  datatype TokenReply = Granted(token: string) | Refused | Unreachable
  datatype SearchReply = Matches(count: nat) | SearchRefused | SearchUnreachable
  datatype CreateReply = Created | CreateRefused | CreateUnreachable

  /** `len(items) > 0` on a reply with `code == 0`; any other reply or an exception is False. */
  predicate RecordFound(reply: SearchReply) {
    reply.Matches? && reply.count > 0
  }

  /** The requests of a write with a token: the search, and the create unless a record was found. */
  function WriteCalls(record: Parsed, search: SearchReply): seq<Call> {
    if RecordFound(search) then [Search(record.date)] else [Search(record.date), Create(record)]
  }

  /**
   * `config['feishu'][key]` can be read: the table URLs need `app_token` and
   * `table_id`, the notification needs `chat_id`, and each lookup is made
   * outside the `try` of its method, so a missing key raises KeyError.
   */
  predicate FeishuHas(config: Json, key: string) {
    config.Obj? && "feishu" in config.fields && config.fields["feishu"].Obj? && key in config.fields["feishu"].fields
  }

  predicate TableNamed(config: Json) {
    FeishuHas(config, "app_token") && FeishuHas(config, "table_id")
  }

  /** An exception that no method of the collector catches. */
  datatype Uncaught = KeyMissing

  /** Whether a write with a token reports success. */
  predicate WriteSucceeds(search: SearchReply, create: CreateReply) {
    RecordFound(search) || create == Created
  }

  // ------------------------------------------------------------------------
  // collect_with_retry

  /** The window `[start, end]` of one attempt, as day numbers. */
  datatype Window = Window(start: int, end: int)

  /** The `success`/`message` result of collect_with_retry. */
  datatype Report =
    | Collected(data: Parsed)   // written (or already present) and notified
    | TokenFailed               // no usable tenant token
    | WriteFailed               // the record could not be created
    | Exhausted(attempts: int)  // "after max_retry + 1 attempts"
    | RunCrashed                // an uncaught exception

  /** The replies the network gives during one run. */
  datatype Replies = Replies(
    token: TokenReply,
    fetch: (int, int, nat) -> Response,  // window start, window end, URL index
    search: SearchReply,
    create: CreateReply)

  /** The replies to the candidate URLs of the window `[start, end]`, by URL index. */
  function WindowReplies(net: Replies, start: int, end: int): nat -> Response {
    (i: nat) => net.fetch(start, end, i)
  }

  datatype Run = Run(report: Report, windows: seq<Window>, calls: seq<Call>)

  /** The configuration has a `tikhub` section that is a dict. */
  predicate HasTikhub(config: Json) {
    config.Obj? && "tikhub" in config.fields && config.fields["tikhub"].Obj?
  }

  /** A usable fetch result: a found reply carries both series. */
  predicate Usable(fetched: Fetched) {
    fetched.Found? ==> fetched.series.daily != [] && fetched.series.delta != []
  }

  /**
   * What follows the fetch of a window starting on `startDay`: a record dated on the
   * window start is written and notified, anything else but an error tries the next one.
   */
  function Decide(config: Json, fetched: Fetched, startDay: string, net: Replies): (Option<Report>, seq<Call>)
    requires Usable(fetched)
  {
    match fetched
    case Raised => (Some(RunCrashed), [])
    case NotFound => (None, [])
    case Found(series) =>
      var parsed := ParseData(series);
      if parsed.date != startDay then (None, [])
      else
        var delivered := Deliver(config, parsed, net);
        (Some(delivered.0), delivered.1)
  }

  /** fetch_douyin_data only hands over a reply that passed the acceptance test. */
  lemma FetchOutcomeUsable(tikhub: Json, start: string, end: string, reply: nat -> Response)
    requires tikhub.Obj?
    ensures Usable(FetchOutcome(tikhub, start, end, reply).0)
  {
  }

  /**
   * Attempt `r` of the sweep: query `[target - r - 1, target - r]` and, when the
   * latest date is the window start, write and notify.  None means "try the next one".
   */
  function Attempt(config: Json, target: int, r: nat, day: int -> string, net: Replies): (Option<Report>, seq<Call>)
    requires HasTikhub(config)
  {
    var start, end := target - r - 1, target - r;
    var fetched := FetchOutcome(config.fields["tikhub"], day(start), day(end), WindowReplies(net, start, end));
    FetchOutcomeUsable(config.fields["tikhub"], day(start), day(end), WindowReplies(net, start, end));
    var decided := Decide(config, fetched.0, day(start), net);
    (decided.0, fetched.1 + decided.1)
  }

  /** A matching record: write it, then notify; the report and the Feishu requests made. */
  function Deliver(config: Json, parsed: Parsed, net: Replies): (Report, seq<Call>) {
    if !TableNamed(config) then (RunCrashed, [])
    else if !WriteSucceeds(net.search, net.create) then (WriteFailed, WriteCalls(parsed, net.search))
    else if !FeishuHas(config, "chat_id") then (RunCrashed, WriteCalls(parsed, net.search))
    else (Collected(parsed), WriteCalls(parsed, net.search) + [Notify(parsed)])
  }

  /** Attempts `r` to `maxRetry`, stopping at the first that decides the run. */
  function SweepFrom(config: Json, target: int, maxRetry: int, r: nat, day: int -> string, net: Replies): Run
    requires HasTikhub(config)
    decreases maxRetry + 1 - r
  {
    if r > maxRetry then Run(Exhausted(maxRetry + 1), [], [])
    else
      var attempt := Attempt(config, target, r, day, net);
      var w := Window(target - r - 1, target - r);
      if attempt.0.Some? then Run(attempt.0.value, [w], attempt.1)
      else
        var rest := SweepFrom(config, target, maxRetry, r + 1, day, net);
        Run(rest.report, [w] + rest.windows, attempt.1 + rest.calls)
  }

  /** One attempt of the sweep, unfolded. */
  lemma SweepUnfold(config: Json, target: int, maxRetry: int, r: nat, day: int -> string, net: Replies)
    requires HasTikhub(config) && r <= maxRetry
    ensures var attempt := Attempt(config, target, r, day, net);
            var rest := SweepFrom(config, target, maxRetry, r + 1, day, net);
            SweepFrom(config, target, maxRetry, r, day, net) ==
              if attempt.0.Some? then Run(attempt.0.value, [Window(target - r - 1, target - r)], attempt.1)
              else Run(rest.report, [Window(target - r - 1, target - r)] + rest.windows, attempt.1 + rest.calls)
  {
  }

  /** `config['retry']['max_retry_days']` when it is an integer; anything else raises. */
  function MaxRetry(config: Json): Option<int> {
    match Walk(config, ["retry", "max_retry_days"])
    case Some(Int(n)) => Some(n)
    case _ => None
  }

  /** A tenant token reply that collect_with_retry accepts (the token is truthy). */
  predicate TokenUsable(reply: TokenReply) {
    reply.Granted? && reply.token != ""
  }

  /** collect_with_retry: token first, then the date sweep. */
  function Collect(config: Json, target: int, day: int -> string, net: Replies): Run
    requires HasTikhub(config)
  {
    if !TokenUsable(net.token) then Run(TokenFailed, [], [TokenRequest])
    else
      match MaxRetry(config)
      case None => Run(RunCrashed, [], [TokenRequest])
      case Some(m) =>
        var run := SweepFrom(config, target, m, 0, day, net);
        Run(run.report, run.windows, [TokenRequest] + run.calls)
  }

  function Max0(n: int): nat {
    if n < 0 then 0 else n
  }

  /** Window `i` of the sweep is `[target - i - 1, target - i]`. */
  ghost predicate SweepWindows(windows: seq<Window>, target: int, from: nat) {
    forall i :: 0 <= i < |windows| ==> windows[i] == Window(target - (from + i) - 1, target - (from + i))
  }

  /**
   * The sweep queries the windows `[T-1, T]`, `[T-2, T-1]`, ... in this order, at
   * most `max_retry + 1` of them, and it reports exhaustion only after all of them.
   */
  lemma {:induction false} SweepBounds(config: Json, target: int, maxRetry: int, r: nat, day: int -> string, net: Replies)
    requires HasTikhub(config)
    ensures var run := SweepFrom(config, target, maxRetry, r, day, net);
            SweepWindows(run.windows, target, r) &&
            |run.windows| <= Max0(maxRetry + 1 - r) &&
            (run.report.Exhausted? ==> |run.windows| == Max0(maxRetry + 1 - r) && run.report.attempts == maxRetry + 1) &&
            (!run.report.Exhausted? ==> run.windows != [])
    decreases maxRetry + 1 - r
  {
    if r <= maxRetry {
      if Attempt(config, target, r, day, net).0.None? {
        SweepBounds(config, target, maxRetry, r + 1, day, net);
      }
    }
  }

  /**
   * A run that is not exhausted was decided by the attempt on its last window, and
   * every earlier window was passed over.
   */
  lemma {:induction false} SweepDecidedByLast(config: Json, target: int, maxRetry: int, r: nat, day: int -> string, net: Replies)
    requires HasTikhub(config)
    ensures var run := SweepFrom(config, target, maxRetry, r, day, net);
            (forall i :: r <= i < r + |run.windows| - 1 ==> Attempt(config, target, i, day, net).0.None?) &&
            (!run.report.Exhausted? ==>
               run.windows != [] && Attempt(config, target, r + |run.windows| - 1, day, net).0 == Some(run.report))
    decreases maxRetry + 1 - r
  {
    if r <= maxRetry {
      SweepUnfold(config, target, maxRetry, r, day, net);
      if Attempt(config, target, r, day, net).0.None? {
        SweepDecidedByLast(config, target, maxRetry, r + 1, day, net);
      }
    }
  }

  /**
   * An attempt collects only a record dated on its window start, only after a
   * successful write and only with the table and the chat named in the configuration.
   */
  lemma AttemptCollectsWindowStart(config: Json, target: int, r: nat, day: int -> string, net: Replies)
    requires HasTikhub(config)
    requires Attempt(config, target, r, day, net).0.Some? && Attempt(config, target, r, day, net).0.value.Collected?
    ensures Attempt(config, target, r, day, net).0.value.data.date == day(target - r - 1)
    ensures WriteSucceeds(net.search, net.create)
    ensures TableNamed(config) && FeishuHas(config, "chat_id")
  {
  }

  /**
   * When a window's reply carries entries for both of its days (the end day being
   * the later string), parse_data keeps the end day and the attempt is passed over.
   */
  lemma BothDaysRejected(config: Json, target: int, r: nat, day: int -> string, net: Replies, k: nat)
    requires HasTikhub(config) && Urls(config.fields["tikhub"]).Listed?
    requires var start, end := target - r - 1, target - r;
             var reply := WindowReplies(net, start, end);
             Less(day(start), day(end)) &&
             FirstAccepted(reply, |Urls(config.fields["tikhub"]).urls|, 0) == Some(k) &&
             exists j :: 0 <= j < |reply(k).series.daily| && reply(k).series.daily[j].date == day(end)
    ensures Attempt(config, target, r, day, net).0 == None
  {
    var start, end := target - r - 1, target - r;
    var reply := WindowReplies(net, start, end);
    var s := reply(k).series;
    assert FetchOutcome(config.fields["tikhub"], day(start), day(end), reply).0 == Found(s);
    var j :| 0 <= j < |s.daily| && s.daily[j].date == day(end);
    ParsedNotBelow(s, j, day(start));
  }

  /** A run that follows the windows and requests of earlier attempts. */
  function Resume(windows: seq<Window>, calls: seq<Call>, run: Run): Run {
    Run(run.report, windows + run.windows, calls + run.calls)
  }

  lemma ResumeNothing(run: Run)
    ensures Resume([], [], run) == run
  {
    assert [] + run.windows == run.windows;
    assert [] + run.calls == run.calls;
  }

  /** One turn of the retry loop, after the windows and requests of the earlier turns. */
  lemma SweepStep(config: Json, target: int, maxRetry: int, r: nat, day: int -> string, net: Replies,
                  windows: seq<Window>, calls: seq<Call>)
    requires HasTikhub(config)
    ensures var attempt := Attempt(config, target, r, day, net);
            var w := Window(target - r - 1, target - r);
            Resume(windows, calls, SweepFrom(config, target, maxRetry, r, day, net)) ==
              if r > maxRetry then Run(Exhausted(maxRetry + 1), windows, calls)
              else if attempt.0.Some? then Run(attempt.0.value, windows + [w], calls + attempt.1)
              else Resume(windows + [w], calls + attempt.1, SweepFrom(config, target, maxRetry, r + 1, day, net))
  {
    if r > maxRetry {
      assert windows + [] == windows;
      assert calls + [] == calls;
    } else {
      SweepUnfold(config, target, maxRetry, r, day, net);
      var attempt := Attempt(config, target, r, day, net);
      var rest := SweepFrom(config, target, maxRetry, r + 1, day, net);
      if attempt.0.None? {
        ConcatAssoc(windows, [Window(target - r - 1, target - r)], rest.windows);
        ConcatAssoc(calls, attempt.1, rest.calls);
      }
    }
  }

  lemma ConcatAssoc<T>(a: seq<T>, b: seq<T>, c: seq<T>)
    ensures a + (b + c) == (a + b) + c
  {
  }

  /** `calls` is a run of fetches followed by `tail`. */
  ghost predicate FetchesThen(calls: seq<Call>, tail: seq<Call>) {
    |tail| <= |calls| && calls[|calls| - |tail|..] == tail &&
    forall i :: 0 <= i < |calls| - |tail| ==> calls[i].Fetch?
  }

  lemma FetchesBefore(pre: seq<Call>, calls: seq<Call>, tail: seq<Call>)
    requires FetchesThen(pre, []) && FetchesThen(calls, tail)
    ensures FetchesThen(pre + calls, tail)
  {
    var all := pre + calls;
    assert all[|all| - |tail|..] == calls[|calls| - |tail|..];
    forall i | 0 <= i < |all| - |tail| ensures all[i].Fetch? {
      if i >= |pre| {
        assert all[i] == calls[i - |pre|];
      }
    }
  }

  /** The requests an attempt or a sweep ends with, given how it was decided. */
  ghost predicate EndsAsReported(report: Report, calls: seq<Call>, net: Replies) {
    match report
    case Collected(p) =>
      FetchesThen(calls, WriteCalls(p, net.search) + [Notify(p)]) && WriteSucceeds(net.search, net.create)
    case WriteFailed =>
      !WriteSucceeds(net.search, net.create) &&
      exists p :: FetchesThen(calls, WriteCalls(p, net.search))
    case RunCrashed =>
      FetchesThen(calls, []) || exists p :: FetchesThen(calls, WriteCalls(p, net.search))
    case _ => FetchesThen(calls, [])
  }

  /** After the fetches, the write and the notification end the requests as the report says. */
  lemma DeliverCalls(config: Json, parsed: Parsed, net: Replies, fetches: seq<Call>)
    requires FetchesThen(fetches, [])
    ensures EndsAsReported(Deliver(config, parsed, net).0, fetches + Deliver(config, parsed, net).1, net)
  {
    var delivered := Deliver(config, parsed, net);
    var writes := delivered.1;
    var calls := fetches + writes;
    assert calls[|calls| - |writes|..] == writes;
    assert FetchesThen(calls, writes);
    if delivered.0.RunCrashed? && !TableNamed(config) {
      assert calls == fetches;
    }
  }

  /** fetch_douyin_data sends nothing but fetches. */
  lemma FetchOutcomeCalls(tikhub: Json, start: string, end: string, reply: nat -> Response)
    requires tikhub.Obj?
    ensures FetchesThen(FetchOutcome(tikhub, start, end, reply).1, [])
  {
  }

  /** After the fetches, the requests that follow them end as the decision says. */
  lemma DecideCalls(config: Json, fetched: Fetched, startDay: string, net: Replies, fetches: seq<Call>)
    requires Usable(fetched) && FetchesThen(fetches, [])
    ensures var decided := Decide(config, fetched, startDay, net);
            match decided.0
            case Some(report) => EndsAsReported(report, fetches + decided.1, net)
            case None => decided.1 == []
  {
    if fetched.Found? && ParseData(fetched.series).date == startDay {
      DeliverCalls(config, ParseData(fetched.series), net, fetches);
    } else if fetched.Raised? {
      assert fetches + [] == fetches;
    }
  }

  lemma AttemptCalls(config: Json, target: int, r: nat, day: int -> string, net: Replies)
    requires HasTikhub(config)
    ensures var attempt := Attempt(config, target, r, day, net);
            match attempt.0
            case Some(report) => EndsAsReported(report, attempt.1, net)
            case None => FetchesThen(attempt.1, [])
  {
    var start, end := target - r - 1, target - r;
    var fetched := FetchOutcome(config.fields["tikhub"], day(start), day(end), WindowReplies(net, start, end));
    FetchOutcomeCalls(config.fields["tikhub"], day(start), day(end), WindowReplies(net, start, end));
    FetchOutcomeUsable(config.fields["tikhub"], day(start), day(end), WindowReplies(net, start, end));
    DecideCalls(config, fetched.0, day(start), net, fetched.1);
    var decided := Decide(config, fetched.0, day(start), net);
    assert Attempt(config, target, r, day, net) == (decided.0, fetched.1 + decided.1);
    if decided.0.None? {
      assert fetched.1 + decided.1 == fetched.1;
    }
  }

  /**
   * The requests of a sweep are fetches, except when a write decided it: then they
   * end with the search, the create when no record exists, and the notification,
   * which is sent only after a successful write.
   */
  lemma {:induction false} SweepCalls(config: Json, target: int, maxRetry: int, r: nat, day: int -> string, net: Replies)
    requires HasTikhub(config)
    ensures var run := SweepFrom(config, target, maxRetry, r, day, net);
            EndsAsReported(run.report, run.calls, net)
    decreases maxRetry + 1 - r
  {
    if r <= maxRetry {
      AttemptCalls(config, target, r, day, net);
      var calls := Attempt(config, target, r, day, net).1;
      if Attempt(config, target, r, day, net).0.None? {
        SweepCalls(config, target, maxRetry, r + 1, day, net);
        var rest := SweepFrom(config, target, maxRetry, r + 1, day, net);
        match rest.report
        case Collected(p) =>
          FetchesBefore(calls, rest.calls, WriteCalls(p, net.search) + [Notify(p)]);
        case WriteFailed =>
          var p :| FetchesThen(rest.calls, WriteCalls(p, net.search));
          FetchesBefore(calls, rest.calls, WriteCalls(p, net.search));
        case RunCrashed =>
          if FetchesThen(rest.calls, []) {
            FetchesBefore(calls, rest.calls, []);
          } else {
            var p :| FetchesThen(rest.calls, WriteCalls(p, net.search));
            FetchesBefore(calls, rest.calls, WriteCalls(p, net.search));
          }
        case _ =>
          FetchesBefore(calls, rest.calls, []);
      }
    }
  }

  // ------------------------------------------------------------------------
  // The collector object

  class DouyinDataCollector {
    /** The loaded configuration, assigned once by `__init__`. */
    const config: Json
    /** `self.feishu_token`: None until a token reply grants one. */
    var feishuToken: Option<string>

    constructor (config: Json)
      requires Loaded(config)
      ensures this.config == config && feishuToken == None
    {
      this.config := config;
      feishuToken := None;
    }

    /** `if not self.feishu_token` fails: the token is absent or empty. */
    predicate HasToken()
      reads this
    {
      feishuToken.Some? && feishuToken.value != ""
    }

    /** get_feishu_tenant_token: a granted token is stored and returned; otherwise None and nothing changes. */
    method GetFeishuTenantToken(reply: TokenReply) returns (token: Option<string>)
      modifies this
      ensures reply.Granted? ==> feishuToken == Some(reply.token) && token == feishuToken
      ensures !reply.Granted? ==> feishuToken == old(feishuToken) && token == None
    {
      match reply {
        case Granted(t) =>
          feishuToken := Some(t);
          token := feishuToken;
        case _ =>
          token := None;
      }
    }

    /**
     * fetch_douyin_data: the first response, in URL order, with both series non-empty.
     *
     * This method, `TryWindow` and `Sweep` ask only for the `tikhub` section, to keep
     * their proofs small.  Every collector holds a configuration that passed `Loaded`
     * (the constructor demands it and `config` is constant), so `douyin.kol_id`, which
     * collector.py:144 reads, is always present.
     */
    method FetchDouyinData(start: string, end: string, reply: nat -> Response) returns (fetched: Fetched, calls: seq<Call>)
      requires HasTikhub(config)
      ensures fetched.Found? ==> exists k :: Accepted(reply(k)) && fetched.series == reply(k).series
      ensures match Urls(config.fields["tikhub"])
              case NotIterable => fetched == Raised && calls == []
              case NoAddress => fetched == NotFound && calls == []
              case Listed(urls) =>
                match FirstAccepted(reply, |urls|, 0)
                case Some(k) => fetched == Found(reply(k).series) && calls == FetchCalls(urls[..k + 1], start, end)
                case None => fetched == NotFound && calls == FetchCalls(urls, start, end)
      ensures (fetched, calls) == FetchOutcome(config.fields["tikhub"], start, end, reply)
    {
      var urls: seq<Json>;
      match Urls(config.fields["tikhub"]) {
        case NotIterable => return Raised, [];
        case NoAddress => return NotFound, [];
        case Listed(us) => urls := us;
      }
      calls := [];
      var idx := 0;
      while idx < |urls|
        invariant 0 <= idx <= |urls|
        invariant calls == FetchCalls(urls[..idx], start, end)
        invariant FirstAccepted(reply, |urls|, 0) == FirstAccepted(reply, |urls|, idx)
      {
        calls := calls + [Fetch(urls[idx], start, end)];
        assert urls[..idx + 1] == urls[..idx] + [urls[idx]];
        var response := reply(idx);
        if Accepted(response) {
          return Found(response.series), calls;
        } else if response.Received? {
          // the reply carried an empty series: try the next URL, or give up on the last one
          if idx < |urls| - 1 {
            idx := idx + 1;
            continue;
          }
          return NotFound, calls;
        } else {
          // a timeout, a request error or any other exception
          if idx < |urls| - 1 {
            idx := idx + 1;
            continue;
          }
        }
        idx := idx + 1;
      }
      assert urls[..idx] == urls;
      return NotFound, calls;
    }

    /**
     * check_record_exists: False without a token and on any failed search; the
     * table URL is built before the request, so a missing table key raises.
     */
    method CheckRecordExists(date: string, reply: SearchReply) returns (found: Result<bool, Uncaught>, calls: seq<Call>)
      ensures !HasToken() ==> found == Success(false) && calls == []
      ensures HasToken() && !TableNamed(config) ==> found == Failure(KeyMissing) && calls == []
      ensures HasToken() && TableNamed(config) ==> found == Success(RecordFound(reply)) && calls == [Search(date)]
    {
      if !HasToken() {
        return Success(false), [];
      }
      if !TableNamed(config) {
        return Failure(KeyMissing), [];
      }
      calls := [Search(date)];
      match reply {
        case Matches(count) => found := Success(count > 0);
        case _ => found := Success(false);
      }
    }

    /**
     * write_to_feishu: False without a token; True and no create when the record
     * already exists; otherwise True exactly when the create succeeds.
     */
    method WriteToFeishu(record: Parsed, search: SearchReply, create: CreateReply) returns (ok: Result<bool, Uncaught>, calls: seq<Call>)
      ensures !HasToken() ==> ok == Success(false) && calls == []
      ensures HasToken() && !TableNamed(config) ==> ok == Failure(KeyMissing) && calls == []
      ensures HasToken() && TableNamed(config) ==>
                ok == Success(WriteSucceeds(search, create)) && calls == WriteCalls(record, search)
    {
      if !HasToken() {
        return Success(false), [];
      }
      var found;
      found, calls := CheckRecordExists(record.date, search);
      if found.Failure? {
        return Failure(found.error), calls;
      }
      if found.value {
        return Success(true), calls;
      }
      calls := calls + [Create(record)];
      ok := Success(create == Created);
    }

    /** send_feishu_message: posted only with a token; its reply never matters, a missing chat key raises. */
    method SendFeishuMessage(record: Parsed) returns (sent: Result<(), Uncaught>, calls: seq<Call>)
      ensures !HasToken() ==> sent.Success? && calls == []
      ensures HasToken() && !FeishuHas(config, "chat_id") ==> sent == Failure(KeyMissing) && calls == []
      ensures HasToken() && FeishuHas(config, "chat_id") ==> sent.Success? && calls == [Notify(record)]
    {
      if !HasToken() {
        return Success(()), [];
      }
      if !FeishuHas(config, "chat_id") {
        return Failure(KeyMissing), [];
      }
      return Success(()), [Notify(record)];
    }

    /** A record dated as expected: write it and, when that succeeds, notify. */
    method DeliverRecord(parsed: Parsed, net: Replies) returns (report: Report, calls: seq<Call>)
      requires HasToken()
      ensures (report, calls) == Deliver(config, parsed, net)
    {
      var ok;
      ok, calls := WriteToFeishu(parsed, net.search, net.create);
      if ok.Failure? {
        return RunCrashed, calls;
      }
      if !ok.value {
        return WriteFailed, calls;
      }
      var sent, notifyCalls := SendFeishuMessage(parsed);
      if sent.Failure? {
        return RunCrashed, calls;
      }
      return Collected(parsed), calls + notifyCalls;
    }

    /** The body of the retry loop for attempt `retry`: fetch the window, and write and notify on a match. */
    method TryWindow(target: int, retry: nat, day: int -> string, net: Replies) returns (decision: Option<Report>, calls: seq<Call>)
      requires HasTikhub(config) && HasToken()
      ensures (decision, calls) == Attempt(config, target, retry, day, net)
    {
      var start, end := target - retry - 1, target - retry;
      var fetched;
      fetched, calls := FetchDouyinData(day(start), day(end), WindowReplies(net, start, end));
      assert calls + [] == calls;
      match fetched {
        case Raised => return Some(RunCrashed), calls;
        case NotFound => return None, calls;
        case Found(series) =>
          var parsed := ParseData(series);
          if parsed.date != day(start) {
            return None, calls;
          }
          var report, writes := DeliverRecord(parsed, net);
          return Some(report), calls + writes;
      }
    }

    /** The retry loop of collect_with_retry: attempts `0` to `maxRetry`, until one decides the run. */
    method Sweep(target: int, maxRetry: int, day: int -> string, net: Replies) returns (run: Run)
      requires HasTikhub(config) && HasToken()
      ensures run == SweepFrom(config, target, maxRetry, 0, day, net)
    {
      ResumeNothing(SweepFrom(config, target, maxRetry, 0, day, net));
      var windows: seq<Window> := [];
      var calls: seq<Call> := [];
      var retry := 0;
      while retry <= maxRetry
        invariant 0 <= retry && (retry == 0 || retry <= maxRetry + 1)
        invariant SweepFrom(config, target, maxRetry, 0, day, net) ==
                  Resume(windows, calls, SweepFrom(config, target, maxRetry, retry, day, net))
        decreases maxRetry + 1 - retry
      {
        var decision, attemptCalls := TryWindow(target, retry, day, net);
        var w := Window(target - retry - 1, target - retry);
        SweepStep(config, target, maxRetry, retry, day, net, windows, calls);
        if decision.Some? {
          return Run(decision.value, windows + [w], calls + attemptCalls);
        }
        windows := windows + [w];
        calls := calls + attemptCalls;
        retry := retry + 1;
      }
      SweepStep(config, target, maxRetry, retry, day, net, windows, calls);
      return Run(Exhausted(maxRetry + 1), windows, calls);
    }

    /** collect_with_retry for the target day `target`; `day` formats a day number as `YYYY-MM-DD`. */
    method CollectWithRetry(target: int, day: int -> string, net: Replies) returns (report: Report, windows: seq<Window>, calls: seq<Call>)
      requires Loaded(config)
      modifies this
      ensures HasTikhub(config)
      ensures Run(report, windows, calls) == Collect(config, target, day, net)
      ensures feishuToken == if net.token.Granted? then Some(net.token.token) else old(feishuToken)
    {
      LoadedSections(config);
      var token := GetFeishuTenantToken(net.token);
      if token.None? || token.value == "" {
        return TokenFailed, [], [TokenRequest];
      }
      match MaxRetry(config) {
        case None => return RunCrashed, [], [TokenRequest];
        case Some(maxRetry) =>
          var run := Sweep(target, maxRetry, day, net);
          return run.report, run.windows, [TokenRequest] + run.calls;
      }
    }
  }

  /** DouyinDataCollector(): load the configuration, or stop with the loader's error. */
  method Open(file: ConfigFile, env: Env) returns (r: Result<DouyinDataCollector, LoadError>)
    ensures r.Failure? <==> Load(file, env).Failure?
    ensures r.Failure? ==> r.error == Load(file, env).error
    ensures r.Success? ==> fresh(r.value) && r.value.config == Load(file, env).value && r.value.feishuToken == None
  {
    var config :- LoadConfig(file, env);
    var collector := new DouyinDataCollector(config);
    return Success(collector);
  }

  /** main: status 0 exactly when the configuration loads and the run collects a record. */
  method CollectorMain(file: ConfigFile, env: Env, target: int, day: int -> string, net: Replies) returns (status: int)
    ensures status == 0 || status == 1
    ensures status == 0 <==>
            Load(file, env).Success? && HasTikhub(Load(file, env).value) &&
            Collect(Load(file, env).value, target, day, net).report.Collected?
  {
    var loaded := Open(file, env);
    if loaded.Failure? {
      return 1;
    }
    var collector := loaded.value;
    var report, windows, calls := collector.CollectWithRetry(target, day, net);
    status := if report.Collected? then 0 else 1;
  }
}
