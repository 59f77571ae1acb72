# Douyin data collector — a Dafny model

The douyin-data-collector skill fetches the daily follower figures of one Douyin
account from the TikHub analytics API and writes them into a Feishu (Lark)
multi-dimensional table, then posts a notification to a Feishu chat. Three
scripts make up its core:

- `collector.py` — the `DouyinDataCollector` class. It loads `config.json`, lets
  seven environment variables override fields of it, and rejects a configuration
  whose API key, Feishu app id, app secret or KOL id is empty or a placeholder.
  It then obtains a Feishu tenant token. It sweeps back day by day from the target
  day: each attempt asks the candidate TikHub URLs in order for the window
  `[day - 1, day]`, keeps the latest `daily` and `delta` entries, and accepts them
  only when the latest daily entry is dated on the window start. It skips the write when a record for
  that date already exists, and notifies after a successful write.
- `setup.py` — the configuration wizard. It builds `config.json` from a template
  and merges an existing file into it. It asks for seven values; a blank answer
  keeps the current one. With `KEY VALUE` arguments it sets one dotted key instead.
- `check_config.py` — reports which of seven settings are missing. It looks in the
  environment, extended by the skill's `.env` file, and then in `config.json`.

## How the model is built

- `wrappers.dfy` — `Option` and `Result` (usable with `:-`).
- `pystr.dfy` — the Python `str` behaviour the scripts rely on: `startswith`,
  `strip` (with Python's white-space set), `split` on one character (proved to be
  undone by `join`), and the code-point order `<` that `sorted` uses on date strings.
- `config_tree.dfy` — the JSON document (`Json`: strings, integers, lists,
  objects), what opening a file gave (`ConfigFile`), the lookup walk shared by all
  three scripts (`Walk`), and the path-creating assignment of `setup.py`
  (`SetPath`). For `SetPath` it proves when it raises, that the value can be read
  back, that other paths are left alone, and what it builds below missing keys.
- `collector.dfy` — module `Collector`. Loading is a specification function
  (`Load`) and a method (`LoadConfig`) proved equal to it. The collector is a class
  with its `config` and the mutable `feishuToken`. The URL fallback loop and the
  retry loop are `while` loops proved against the functions `FetchOutcome` and
  `SweepFrom`. One attempt of the sweep (`Attempt`) is the fetch of its window
  followed by `Decide`: parse, compare the date, then write and notify (`Deliver`). Every request the collector sends is returned as a `Call`, so the
  order of requests is part of what is proved.
- `setup.dfy` — module `Setup`: the lookup, merge and prompt loops as methods,
  each proved equal to a recursive function, with lemmas about those functions.
- `check_config.dfy` — module `CheckConfig`: `.env` parsing, the environment
  merge, the lookup and the check loop, each a method proved against a function.

Everything outside the process is a parameter:

- file contents are a `ConfigFile`, or the `.env` lines;
- the environment is a map;
- network replies are `Replies` values, one reply per request;
- the lines typed at the prompts are a sequence;
- the length of `str(v)` for a list or dict `v` at a prompted key is `listLength(v)`;
- the target day is a day number, and `day` formats a day number as `YYYY-MM-DD`.

Uncaught Python exceptions are error results: `LoadError.Crashed`,
`Report.RunCrashed`, `Uncaught.KeyMissing` and the `SetupError` cases.

Three behaviours of collector.py are worth stating plainly:

- It makes `max_retry_days + 1` attempts, one day apart (collector.py:349).
- Each attempt takes the latest entry of the reply and compares its date with the
  window start (collector.py:356-361). A reply that holds both days of its window
  is therefore passed over (`BothDaysRejected`).
- A missing `chat_id` raises after the record is written (collector.py:312).

## Model

| member | source | states |
|---|---|---|
| Collector.LoadConfig | skills/douyin-data-collector/scripts/collector.py:28-76 | loading gives the specification `Load`: a missing file, a malformed file, a raising override or lookup, or the list of invalid fields stop it; otherwise the overridden configuration is returned |
| Collector.ApplyFrame | skills/douyin-data-collector/scripts/collector.py:54-55 | one override changes nothing outside the field it writes |
| Collector.OverlayFields | skills/douyin-data-collector/scripts/collector.py:52-71 | after the seven overrides, each overridden field holds its environment variable when that is set and non-empty, and its file value otherwise |
| Collector.OverlayUntouched | skills/douyin-data-collector/scripts/collector.py:52-71 | the overrides leave every other path of the document as it was |
| Collector.OverlayFails | skills/douyin-data-collector/scripts/collector.py:52-71 | the overrides raise exactly when a set variable names a section that is missing or not a dict |
| Collector.ValidateRaises | skills/douyin-data-collector/scripts/collector.py:78-99 | validation raises exactly when one of the `config.get(section, {}).get(field, '')` lookups does, and that is a crash |
| Collector.ValidateReports | skills/douyin-data-collector/scripts/collector.py:78-105 | a required field is reported exactly when it is empty, falsy or equal to its placeholder |
| Collector.ValidateConfig | skills/douyin-data-collector/scripts/collector.py:78-105 | the four checks in source order give the errors of the specification `Validate`, or the crash of a failing lookup |
| Collector.LoadSucceeds | skills/douyin-data-collector/scripts/collector.py:28-105 | a loaded configuration passes validation, and each overridden field holds the variable's value or the file's |
| Collector.LoadedSections | skills/douyin-data-collector/scripts/collector.py:78-99 | a configuration that passed validation has `tikhub`, `feishu` and `douyin` as dicts, so looking up those sections cannot raise; the unvalidated fields `app_token`, `table_id`, `chat_id` and `retry.max_retry_days` can still be missing |
| Collector.FirstAccepted | skills/douyin-data-collector/scripts/collector.py:154-193 | the chosen URL index has a reply with both series non-empty, and every earlier index does not; None means no URL gave one |
| Collector.DouyinDataCollector.FetchDouyinData | skills/douyin-data-collector/scripts/collector.py:130-193 | the loop returns the series of the first accepted reply and has requested exactly the URLs up to it, or all of them when none is accepted; no address means no request, and a number for `api_urls` raises |
| Collector.Latest | skills/douyin-data-collector/scripts/collector.py:197-203 | the position chosen is the head of the date-descending stable sort: no entry has a later date, and every earlier entry has an earlier date |
| Collector.LatestUnique | skills/douyin-data-collector/scripts/collector.py:197-203 | only one position satisfies that, so the entry taken is determined |
| Collector.ParseDataLatest | skills/douyin-data-collector/scripts/collector.py:195-209 | the record carries the date and count of the latest daily entry and the count of the latest delta entry |
| Collector.ParsedNotBelow | skills/douyin-data-collector/scripts/collector.py:195-209 | the parsed date is never a date below that of some daily entry |
| Collector.DouyinDataCollector.GetFeishuTenantToken | skills/douyin-data-collector/scripts/collector.py:107-128 | a granted token is stored in the object and returned; any other reply returns None and leaves the stored token unchanged |
| Collector.DouyinDataCollector.CheckRecordExists | skills/douyin-data-collector/scripts/collector.py:211-250 | False without a token; a missing table key raises before any request; otherwise one search, and True exactly when it returns matches |
| Collector.DouyinDataCollector.WriteToFeishu | skills/douyin-data-collector/scripts/collector.py:252-295 | False without a token; the search alone when a record exists, reporting success; otherwise the search then the create, succeeding exactly when the create does |
| Collector.DouyinDataCollector.SendFeishuMessage | skills/douyin-data-collector/scripts/collector.py:297-333 | one notification when there is a token and a chat key; nothing without a token; a missing chat key raises |
| Collector.DouyinDataCollector.DeliverRecord | skills/douyin-data-collector/scripts/collector.py:361-376 | writing then notifying a matching record gives the report and requests of `Deliver` |
| Collector.DeliverCalls | skills/douyin-data-collector/scripts/collector.py:361-376 | the requests after the fetches are the write requests, followed by the notification only when the record was collected |
| Collector.DouyinDataCollector.TryWindow | skills/douyin-data-collector/scripts/collector.py:349-378 | one attempt queries the window ending `retry` days before the target and decides the run only when the parsed date is the window start |
| Collector.AttemptCollectsWindowStart | skills/douyin-data-collector/scripts/collector.py:356-371 | an attempt collects only a record dated on its window start, after a successful write, with the table and chat keys present |
| Collector.BothDaysRejected | skills/douyin-data-collector/scripts/collector.py:356-378 | when the accepted reply holds an entry for the window end, later than its start, the attempt is passed over |
| Collector.AttemptCalls | skills/douyin-data-collector/scripts/collector.py:349-378 | the requests of an attempt are fetches, then write and notification requests matching its report |
| Collector.SweepBounds | skills/douyin-data-collector/scripts/collector.py:349-386 | the sweep queries `[T-1, T]`, `[T-2, T-1]`, … in order, at most `max_retry + 1` windows, and reports exhaustion with `max_retry + 1` attempts only after all of them |
| Collector.SweepDecidedByLast | skills/douyin-data-collector/scripts/collector.py:349-386 | every window before the last was passed over, and the last one decided the report |
| Collector.SweepCalls | skills/douyin-data-collector/scripts/collector.py:335-386 | a sweep sends only fetches until a write decides it; the notification comes after a successful write, never otherwise |
| Collector.DouyinDataCollector.Sweep | skills/douyin-data-collector/scripts/collector.py:349-386 | the retry loop tries the windows from the target backwards and gives exactly the run of `SweepFrom`: the report of the first attempt that decides, or exhaustion after `max_retry + 1` attempts, with every window queried and every request sent |
| Collector.DouyinDataCollector.CollectWithRetry | skills/douyin-data-collector/scripts/collector.py:335-386 | the token request comes first and an unusable token ends the run; the loop then gives the report, windows and requests of `Collect` and keeps the granted token |
| Collector.DouyinDataCollector.constructor | skills/douyin-data-collector/scripts/collector.py:20-26 | a collector holds a configuration that passed validation and starts without a token |
| Collector.Open | skills/douyin-data-collector/scripts/collector.py:20-26 | construction fails exactly when loading does, with the same error; otherwise a fresh collector with the loaded configuration and no token |
| Collector.CollectorMain | skills/douyin-data-collector/scripts/collector.py:389-409 | the exit status is 0 exactly when the configuration loads and the run collects a record, and 1 otherwise |
| ConfigTree.SetPath | skills/douyin-data-collector/scripts/setup.py:116-124 | the path-creating assignment succeeds exactly when every node it indexes into is a dict, and the result keeps the top-level keys and adds the first key |
| ConfigTree.SetThenWalk | skills/douyin-data-collector/scripts/setup.py:116-124 | after a successful set the path leads to the value set |
| ConfigTree.SetPathFrame | skills/douyin-data-collector/scripts/setup.py:116-124 | a set leaves every path that parts ways with the written one unchanged |
| ConfigTree.SetPathCreates | skills/douyin-data-collector/scripts/setup.py:120-124 | below a missing key the set creates dicts that hold only the new path |
| Setup.ConfigKeySplit | skills/douyin-data-collector/scripts/setup.py:60-103 | each of the seven dotted keys splits into its section and field |
| Setup.ConfigKeysSeparate | skills/douyin-data-collector/scripts/setup.py:60-103 | the seven keys lead to pairwise different places in the document |
| Setup.GetConfigValue | skills/douyin-data-collector/scripts/setup.py:105-114 | the lookup loop gives the value at the key, or '' when the path is missing, the value is falsy or it starts with `YOUR_` |
| Setup.SetThenGet | skills/douyin-data-collector/scripts/setup.py:105-124 | after setting a key, the lookup shows the value set, or '' for an empty value or a `YOUR_` placeholder |
| Setup.Display | skills/douyin-data-collector/scripts/setup.py:130 | a string current value is shown whole up to 20 characters; a longer one is shown as its first 20 characters followed by `...` |
| Setup.MergeExisting | skills/douyin-data-collector/scripts/setup.py:48-57 | the merge loop gives the specification `Merge`: sections of the file in order, the first raising update ending it with what was merged so far |
| Setup.MergeShape | skills/douyin-data-collector/scripts/setup.py:53-55 | merging adds and removes no section, a dict section stays a dict, and sections that are not dicts or that the file does not name are unchanged |
| Setup.MergeOverrides | skills/douyin-data-collector/scripts/setup.py:53-55 | when each section config.json shares with a template dict section is itself a dict, each template section it names becomes the template's fields overridden by the file's; other entries of the file, such as a top-level number, are skipped |
| Setup.AskNeedsAnswers | skills/douyin-data-collector/scripts/setup.py:128-140 | completing the prompts takes at least one typed line per key |
| Setup.AskUntouched | skills/douyin-data-collector/scripts/setup.py:128-140 | the prompts change nothing outside the seven keys |
| Setup.AskFields | skills/douyin-data-collector/scripts/setup.py:128-140 | after the prompts each key holds its stripped answer, or its earlier value when the answer was blank |
| Setup.SetKeepsSections | skills/douyin-data-collector/scripts/setup.py:116-124 | setting a field of an existing dict section cannot raise and keeps every section a dict |
| Setup.AskCompletes | skills/douyin-data-collector/scripts/setup.py:116-140 | with every section a dict, no current value that breaks the display, and an answer per key, the prompts complete |
| Setup.AskAll | skills/douyin-data-collector/scripts/setup.py:105-140 | the prompt loop gives the specification `Ask`: a long non-string current value raises at the display, input ending stops it, and an assignment into a non-dict raises |
| Setup.SetupConfig | skills/douyin-data-collector/scripts/setup.py:14-155 | the wizard uses the example file or the built-in template, merges config.json into it and runs the prompts, as the specification `Wizard` says, including the raise at the display |
| Setup.WizardFields | skills/douyin-data-collector/scripts/setup.py:14-155 | what the wizard saves has each key set to its stripped answer, or to the merged template's value when the answer was blank |
| Setup.DefaultTemplateCompletes | skills/douyin-data-collector/scripts/setup.py:27-145 | without an example file, seven typed lines lead to a saved configuration whatever config.json holds, unless it gives one of the seven keys a non-string value longer than 20 characters when printed |
| Setup.Digits | skills/douyin-data-collector/scripts/setup.py:130 | the number of decimal digits `d` of `n`, the length of `str(n)`: `10^(d-1) <= n < 10^d`, or `d == 1` |
| Setup.DigitsAbove | skills/douyin-data-collector/scripts/setup.py:130 | for `k >= 1`, a number has more than `k` digits exactly when it is at least `10^k` |
| Setup.IntegerDisplayRaises | skills/douyin-data-collector/scripts/setup.py:130 | an integer current value makes the display raise exactly when its text, minus sign included, is longer than 20 characters: `n >= 10^20` or `n <= -10^19` |
| Setup.SetKeepsDisplayable | skills/douyin-data-collector/scripts/setup.py:116-140 | setting a string at one of the keys leaves no key with a current value that breaks the display |
| Setup.MergeField | skills/douyin-data-collector/scripts/setup.py:48-57 | after the merge, a field of a template dict section holds the template's value or config.json's |
| Setup.LongKolIdStopsWizard | skills/douyin-data-collector/scripts/setup.py:128-131 | whenever the merged template holds at `douyin.kol_id` an integer whose text is longer than 20 characters, the wizard stops at the first prompt, before any line is read or anything saved |
| Setup.MergedKolId | skills/douyin-data-collector/scripts/setup.py:48-57 | merging the file `{"douyin": {"kol_id": n}}` into a template with a `douyin` dict leaves n at `douyin.kol_id` |
| Setup.SetFromArgsWrites | skills/douyin-data-collector/scripts/setup.py:163-192 | `KEY VALUE` saves the base document with the unstripped value at the key and every other path unchanged |
| Setup.SetFromNothing | skills/douyin-data-collector/scripts/setup.py:178-188 | with neither file present, the saved document is the bare nested path to the value |
| Setup.SetupMain | skills/douyin-data-collector/scripts/setup.py:158-198 | two or more arguments set one key, exactly one does nothing with status 0, none runs the wizard (status 1 when its display raises); the status is 0 exactly when something is saved or there is one argument |
| CheckConfig.EnvLineRoundTrip | skills/douyin-data-collector/scripts/check_config.py:27-30 | a line `KEY=VALUE` with a clean key and value parses back to that key and value |
| CheckConfig.ParseEnv | skills/douyin-data-collector/scripts/check_config.py:23-30 | the read loop builds the dictionary of the lines' entries, assigned in order: a blank line, a comment or a line without `=` gives none, any other the stripped key and value around its first `=` |
| CheckConfig.EnvVarsKeys | skills/douyin-data-collector/scripts/check_config.py:26-30 | a key is defined exactly when some line defines it |
| CheckConfig.EnvLastWins | skills/douyin-data-collector/scripts/check_config.py:26-30 | a key's value comes from the last line that defines it |
| CheckConfig.MergeEnv | skills/douyin-data-collector/scripts/check_config.py:33-35 | adding the `.env` variables gives the specification `WithEnv`: variables already set win, and adding an illegal name or value raises |
| CheckConfig.WithEnvValues | skills/douyin-data-collector/scripts/check_config.py:33-35 | the merged environment has every old variable with its old value, and each new one with its `.env` value |
| CheckConfig.Lookup | skills/douyin-data-collector/scripts/check_config.py:62-71 | the lookup loop with `break` finds the value at the dotted key, or '' when the path is missing |
| CheckConfig.FindMissing | skills/douyin-data-collector/scripts/check_config.py:57-87 | the check loop collects the specification `Missing`: the checks neither of whose values is usable, in table order |
| CheckConfig.MissingExactly | skills/douyin-data-collector/scripts/check_config.py:57-89 | a check is reported exactly when it is in the table and neither the environment nor config.json has a usable value for it; none reported means all are satisfied |
| CheckConfig.CheckConfigFiles | skills/douyin-data-collector/scripts/check_config.py:14-89 | check_config parses `.env`, merges it into the environment, loads config.json (absent or unreadable as `{}`) and runs the checks |
| CheckConfig.ReportLines | skills/douyin-data-collector/scripts/check_config.py:98-99 | one `env_key|config_key|description` line per missing setting, in order |
| CheckConfig.Report | skills/douyin-data-collector/scripts/check_config.py:96-100 | `MISSING_CONFIG` followed by those lines |
| CheckConfig.CheckMain | skills/douyin-data-collector/scripts/check_config.py:92-103 | status 1 with the missing list, or status 0 with `CONFIG_OK`; a raise while merging `.env` exits with 1 |
| CheckConfig.CheckMainStatus | skills/douyin-data-collector/scripts/check_config.py:92-103 | nothing is reported missing exactly when all seven settings are satisfied |

## Left out

- Network I/O: each HTTP exchange is one reply parameter. Request headers, query
  parameters, payload bodies and timeouts are not modelled; only which requests
  are sent, and in what order, is.
- File I/O and JSON parsing: a file is given as what `json.load` produced, or as
  absent or unparsable. The key order and indentation of `json.dump` are not
  modelled. The section order of an existing config.json is a parameter of the
  setup merge. `SetupConfig` and `SetupMain` require it to name each section of
  the file once (`FileOrder`); the function `Wizard` and its lemmas hold for any
  order.
- Console output: the progress and error messages of all three scripts are left
  out. check_config.py's report is modelled, because it is its result.
- Clocks: `datetime.now()` becomes the target day number. The `strftime` and
  `strptime` calls of collector.py:345-360 that step back from the target day
  become the `day` parameter. Nothing is assumed of `day`: the lemmas hold for
  every `day`, and `BothDaysRejected` takes the order of the two formatted days as
  a hypothesis.
- The millisecond timestamp of the written record (collector.py:269-270) is not
  modelled. The record is modelled by its date and counts.
- Collector.DouyinDataCollector.WriteToFeishu: `strptime` of the record's date at
  collector.py:269 runs outside the `try`, so a date not in `YYYY-MM-DD` form
  raises a ValueError after the search and before the create. That raise is not
  represented: the only caller passes a record dated on a day formatted by `day`.
- The `int(...)` formatting of the counts in collector.py's `main` is left out.
- JSON booleans, `null` and floating-point numbers are not part of `Json`.
  `max_retry_days` that is not an integer is treated as a crash.
- Collector.Urls: `api_urls` given as a non-empty object is iterated by its keys
  in Python. The model treats it as not iterable (a crash).
- Collector.FetchDouyinData: a reply whose `data` is not a dict, or whose entries
  lack `date` or `fans_cnt`, raises in the source. Such replies are modelled as
  `Failed` (caught) or are not representable.
- Setup.Display: only the display of a string is computed. A non-string current
  value longer than 20 characters when printed raises, and that raise is modelled
  (`DisplayRaises`); how a shorter one is printed is console output. The printed
  length of a list or a dict depends on Python's repr of the strings inside it, so
  it is the parameter `listLength` rather than computed.
- Setup.MergeExisting: `dict.update` with a non-empty list of key/value pairs
  succeeds in Python. The model treats any non-dict other than `""` and `[]` as
  raising.
- CheckConfig.MergeEnv: names or values that Python cannot encode for the
  environment (lone surrogates) are not modelled. Only an empty name, a name
  holding `=` and an embedded NUL raise.
- CheckConfig.ValidObject: `str()` of a non-string value is not computed. The
  model relies on such text never starting with `YOUR_` or `your_`, so it is
  usable exactly when the value is truthy.
