# HEX automation hub, modelled in Dafny

HEX automation hub is a set of automation runners:
- an HTTP/API poller;
- a web scraper, with static, asynchronous and JavaScript modes;
- a browser scripter;
- a local RPA task runner (files, spreadsheets, e-mail, shell commands);
- Telegram, Twitter and Discord bots.

Each runner reads a configuration, iterates over a list of configured operations and calls an external system for each. This project models the deterministic logic under those calls:

- **Retry loop** (`retry.dfy`, module `Retry`). This is the loop shared by `make_request`, `scrape_static` and the `fetch` inside `scrape_async`:
  - at most `retry_count` attempts;
  - an optional pacing delay from `delay_range` before every attempt;
  - a backoff of `2**a` seconds after a failed attempt `a` that is not the last;
  - an immediate return on the first success.

  The operation is a function from attempt index to outcome. The sleeps are returned as a log, one record per attempt. `Execute` is the loop as written, proved equal to the recursive specification `Retried`. The lemmas state what the loop promises.
- **API runner** (`api_automation.dfy`). `make_request` on top of the retry loop, and the order-preserving processing of `run_async`.
- **Storage row preparation** (`storage.dfy`), shared by `save_to_csv` and `save_to_sqlite` of both the API runner and the scraper:
  - keep the dicts without an `'error'` key, in order;
  - take the union of their keys as columns;
  - project each kept record onto the columns, with `''` for a missing key.
- **Web scraper** (`web_scraper.dfy`). `handle_pagination`, `scrape_static`, the asynchronous `fetch`, the JS mode loop, and the mode dispatch of `run`.
- **RPA runner** (`rpa_tasks.dfy`):
  - `check_condition`;
  - the handlers' result records;
  - the dispatch of `execute_task`, with the skip on a false condition;
  - the stop-on-error loop of `run`. That loop lives in `task_loop.dfy` as a generic method.
- **Browser runner** (`browser_automation.dfy`):
  - the Chrome argument list, as a small class grown by `AddArgument`;
  - the result records of `execute_task`;
  - the driver life cycle and the task loop of `run`, as a `Runner` class whose `driver` field `init_driver` sets and `run` closes.
- **Social bots** (`social_bots.dfy`):
  - `load_message_templates`: the lines of a file, stripped, with blank lines dropped;
  - `select_random_message`: the random choice and the `{key}` substitution loop;
  - the three platform task loops;
  - `run`, which chains them.
- **Utilities** (`utils.dfy`). `format_error_message`, with its inverse, and `validate_config`.
- **Python values** (`values.dfy`):
  - dicts as ordered key/value lists;
  - `dict.get`, truthiness and `str()` of the values the runners handle;
  - decimal rendering of integers, with its inverse;
  - substring search.

The outside world is a set of parameters: a function from attempt (or task) index to what the transport, the file system, the browser or the platform SDK answers, and the random draws and the index `random.choice` picks. An exception that Python would raise out of a modelled function is an `Err` result, except for the ill-typed configuration values and the write failures listed under "## Left out".

Three facts about the retry loop and the batch runners that the model keeps as the code has them:
- `retry_count <= 0` is not rejected up front. The loop body never runs and `make_request` returns `None`.
- An exception collected by `run_async` becomes `{'error': str(exc)}` at its index, not a separate outcome kind.
- Only `make_request` paces its attempts. `scrape_static` and `fetch` do not.

## Model

| member | source | states |
|---|---|---|
| Retry.Execute | automation/api_automation.py:78-132 | The retry loop as written yields exactly the outcome and attempt log of the specification `Retried`. |
| Retry.RetriedFromShape | automation/api_automation.py:78-132 | From attempt a on, attempts run in order and every one but the last failed. A backoff of 2**j follows attempt j exactly when another attempt follows, and each attempt is paced by its own draw. A success reports its attempt count and payload; exhaustion happens only at retry_count, with the last failure. |
| Retry.AttemptsBounded | automation/api_automation.py:78 | At most retry_count attempts. No attempt at all exactly when retry_count <= 0. Otherwise the outcome counts the attempts made. |
| Retry.StopsAtFirstSuccess | automation/api_automation.py:84-119 | On success, the last attempt made is the successful one and every earlier attempt failed, so no attempt follows a success. |
| Retry.ExhaustedIffAllFail | automation/api_automation.py:123-132 | The loop is exhausted exactly when retry_count > 0 and all retry_count attempts fail. It then reports the last attempt's failure after retry_count attempts. |
| Retry.BackoffSchedule | automation/api_automation.py:125-126 | Attempt j is followed by a backoff of exactly 2**j when another attempt follows it. The final attempt is followed by none. |
| Retry.PacingBeforeEveryAttempt | automation/api_automation.py:80-82 | When the loop paces, every attempt, the first included, is preceded by a delay within delay_range. When it does not pace, no attempt is. |
| Retry.UniformWithin | automation/api_automation.py:81 | random.uniform(lo, hi) with a draw in [0, 1] lies within [lo, hi]. |
| Retry.RetriedFromFailure | automation/api_automation.py:123-126 | A failed attempt that is not the last records its pacing and a 2**a backoff, then hands over to the next attempt. |
| Retry.FailTwiceThenSucceed | automation/api_automation.py:78-126 | Three attempts allowed, with two failures and then a success: it succeeds after three attempts, with backoffs of 1 and 2 seconds and none after the third. |
| ApiAutomation.MakeRequest | automation/api_automation.py:70-132 | make_request as written equals the specification Request: the url and method are read, then the retry loop runs over the method's transport call. |
| ApiAutomation.RequestSchedule | automation/api_automation.py:78-126 | One request makes at most retry_count attempts. Each is paced by a delay within delay_range, and a backoff of 2**j follows attempt j exactly when another attempt follows. |
| ApiAutomation.RequestNeverRaises | automation/api_automation.py:72-132 | Once url and method are read, make_request never raises. It returns None exactly when retry_count <= 0. Otherwise it returns a dict carrying the endpoint's url, with an 'error' key exactly when every attempt failed. |
| ApiAutomation.FirstSuccessReturned | automation/api_automation.py:73-117 | For any method whose upper-cased name is GET, POST, PUT or DELETE: when attempt k is the first success, the request returns that response's {'url', 'status', 'headers', 'data'} record after exactly k + 1 attempts. |
| ApiAutomation.UnsupportedMethodIsErrorRecord | automation/api_automation.py:120-132 | An unsupported upper-cased method fails every attempt inside the try block. The request ends, after retry_count attempts, as {'url', 'error': 'Unsupported HTTP method: M'}. |
| ApiAutomation.ProcessResults | automation/api_automation.py:150-158 | One entry per gathered result, at the same index. An exception becomes {'error': str(exc)}; any other result is kept as it is. |
| ApiAutomation.RunAsync | automation/api_automation.py:134-158 | One entry per endpoint, in endpoint order: entry i is make_request of endpoint i, with an escaping exception turned into an error record. |
| ApiAutomation.Run | automation/api_automation.py:224-234 | A dry run gives [] and makes no request. Otherwise one processed entry per endpoint, in order. |
| ApiAutomation.RecordSurvives | automation/api_automation.py:87-92 | A response record has exactly the keys url, status, headers and data, and storage keeps it. |
| ApiAutomation.ErrorRecordDropped | automation/api_automation.py:129-132 | The error record of an exhausted request is dropped by storage. |
| Storage.Kept | automation/api_automation.py:166-169 | The kept records are no more than the input, and every one is a dict without an 'error' key. |
| Storage.KeptAppend | automation/api_automation.py:166-169 | Filtering distributes over concatenation, so the kept records stay in their original order. |
| Storage.KeptMembers | automation/api_automation.py:166-169 | A value is kept exactly when it is in the input and is a dict without an 'error' key. |
| Storage.KeptAll | automation/api_automation.py:166-169 | When every record survives, nothing is dropped. |
| Storage.FilterRecords | automation/api_automation.py:166-169 | The filter loop appends exactly the kept records. |
| Storage.ColumnsUnion | automation/api_automation.py:174-177 | A key is a column exactly when some record has it. |
| Storage.CollectKeys | automation/api_automation.py:174-177 | The keys.update loop yields the union of the records' keys. |
| Storage.RowsProject | automation/api_automation.py:216-218 | Row i is record i projected onto the columns, with '' for a missing key. |
| Storage.ProjectRows | automation/api_automation.py:216-218 | The row loop yields one projected row per kept record, in order. |
| Storage.Prepare | automation/api_automation.py:160-219 | What save_to_csv and save_to_sqlite do before opening their file (filter, key union, row loop) yields the table `Prepared` describes, for a given cell conversion: none for both writers of the scraper and for the API runner's save_to_csv, str() for the API runner's save_to_sqlite. |
| Storage.PreparedTable | automation/web_scraper.py:175-234 | No table is prepared, and the writer returns before opening its file, for empty input or when no record survives; otherwise a table is prepared. The columns are the keys of some surviving record, with one row per survivor. Each row has exactly the columns, and the cell for k is the conversion of item.get(k, ''). |
| WebScraper.PageRange | automation/web_scraper.py:166 | range(start, stop) gives max(0, stop - start) URLs. |
| WebScraper.PageLoop | automation/web_scraper.py:166-171 | The append loop yields one URL per page of range(start, stop), in order. |
| WebScraper.HandlePagination | automation/web_scraper.py:153-173 | handle_pagination as written equals the specification PaginationUrls, raising where Python does. |
| WebScraper.PageOfPageUrl | automation/web_scraper.py:167-170 | The page number can be read back from the URL built for it. |
| WebScraper.PaginationPages | automation/web_scraper.py:162-171 | With integer bounds (defaults: param 'page', start 1, end 10), there are max(0, end - start + 1) URLs. URL i is base_url + ('&' if base_url has '?' else '?') + param + '=' + (start + i), and no two URLs are equal. |
| WebScraper.NoPaginationIsBaseUrl | automation/web_scraper.py:159-160 | Without a pagination config, the result is exactly [base_url]. |
| WebScraper.TwoPages | tests/test_web_scraper.py:65-73 | The test's pagination (pages 1 to 2 under 'page') on a base URL without '?' yields exactly base_url?page=1 and base_url?page=2. |
| WebScraper.Extract | automation/web_scraper.py:84-86 | Extraction adds exactly one key per selector to the record. |
| WebScraper.ScrapeStaticLoop | automation/web_scraper.py:66-96 | The scrape_static loop as written equals the specification ScrapeStatic. |
| WebScraper.ScrapeStaticOutcome | automation/web_scraper.py:68-96 | scrape_static raises exactly when all retry_count attempts fail, and then raises the last attempt's exception. Otherwise its record holds exactly the selector keys. |
| WebScraper.FetchRecord | automation/web_scraper.py:100-123 | The async fetch never raises and its record always carries 'url'. It carries 'error' exactly when every attempt failed. |
| WebScraper.AsyncResults | automation/web_scraper.py:125-128 | One record per URL, in URL order: record i is the fetch of URL i. |
| WebScraper.ScrapeAsync | automation/web_scraper.py:98-128 | The sequential batch yields AsyncResults. |
| WebScraper.JsResultsOkIff | automation/web_scraper.py:259-267 | The js branch succeeds exactly when every page loads and every pause after a page is non-negative; a negative pause makes time.sleep raise ValueError. |
| WebScraper.JsResultsValues | automation/web_scraper.py:259-267 | When the js branch succeeds, there is one record per URL, in order. Record i holds what the selectors extract from page i. |
| WebScraper.JsResultsPerUrl | automation/web_scraper.py:259-267 | The two facts above together. |
| WebScraper.JsAbort | automation/web_scraper.py:260-267 | Once the browser raises for a URL, or the pause after it is negative, the branch raises that exception after the turns before it. |
| WebScraper.JsStopsAtFirstFailure | automation/web_scraper.py:260-267 | The completed turns form a prefix that succeeds. All turns complete exactly when the branch succeeds; otherwise the next turn raises the branch's exception. |
| WebScraper.ScrapeJsLoop | automation/web_scraper.py:260-267 | The js loop, with its record appended before the pause, yields JsResults and sleeps exactly the pauses of the completed turns, in order. |
| WebScraper.Run | automation/web_scraper.py:239-269 | A dry run gives [] and sleeps nothing. Otherwise it first sleeps a pause drawn from delay_range, and a negative one raises ValueError. Static mode scrapes a single URL with scrape_static and several with scrape_async; js mode scrapes every URL in order, with a pause after each. Any other mode raises ValueError('Unsupported mode: ...'). The rate-limit pauses run takes itself are handed back in order. |
| RpaTasks.ConditionFalseCases | automation/rpa_tasks.py:328-353 | check_condition is false for an unknown condition type, for directory_empty on a non-directory, and for file_contains when the file cannot be read. |
| RpaTasks.ConditionRaises | automation/rpa_tasks.py:328-353 | check_condition raises AttributeError for a condition that is not a dict, and otherwise exactly what os.path.exists (file_exists), or os.path.isdir and then listdir (directory_empty), raise; file_contains and unknown types never raise. |
| RpaTasks.FileContainsIff | automation/rpa_tasks.py:335-343 | file_contains holds exactly when the file is read and the text occurs in it at some position. |
| RpaTasks.SkippedWhenConditionFails | automation/rpa_tasks.py:359-367 | A truthy condition that is false gives {'task', 'status': 'skipped', 'reason': 'Condition not met'}, and no handler runs. |
| RpaTasks.UnknownTypeIsError | automation/rpa_tasks.py:400-406 | An unknown type gives {'task', 'status': 'error', 'error': 'Unknown task type: T'} and no side effect. |
| RpaTasks.CsvWriteEmptyWritesNothing | automation/rpa_tasks.py:209-233 | csv_write with empty data reports 'No data to write' as an error and writes nothing. |
| RpaTasks.ReportKeys | automation/rpa_tasks.py:60-79 | A handler record has status 'success' or 'error' as the action did, and an 'error' key exactly on failure. |
| RpaTasks.EffectHandlerReports | automation/rpa_tasks.py:60-138 | file_copy, file_move, file_delete and directory_create report success, or an error with its message. |
| RpaTasks.ReadHandlerReports | automation/rpa_tasks.py:140-207 | excel_read and csv_read report success, or an error with its message. |
| RpaTasks.CsvWriteReports | automation/rpa_tasks.py:209-233 | csv_write reports success, or an error with its message. |
| RpaTasks.SendEmailReports | automation/rpa_tasks.py:235-289 | send_email reports success, or an error with its message. |
| RpaTasks.RunCommandReports | automation/rpa_tasks.py:291-326 | run_command reports success, or an error with its message, a timeout included. |
| RpaTasks.DispatchReports | automation/rpa_tasks.py:369-406 | Whatever the task type, the dispatched record has status 'success' or 'error'. An error record carries 'error'. |
| RpaTasks.RecordStatus | automation/rpa_tasks.py:355-406 | Every record execute_task returns is 'skipped', 'success' or 'error', and an error record carries 'error'. |
| TaskLoop.RunUntilStop | automation/rpa_tasks.py:416-427 | One result per executed task, in order, each what executing that task gave. The loop stops right after the first result that asks to stop, that result included, and otherwise runs every task. A raised exception propagates; the tasks completed before it are handed back, each having run without asking to stop. |
| RpaTasks.LoopRecords | automation/rpa_tasks.py:418-425 | The loop's facts, read back in terms of execute_task and stop_on_error, with the side effects of the executed tasks. |
| RpaTasks.LoopRaised | automation/rpa_tasks.py:418-420 | An exception that ends the loop is raised by execute_task on some task k reached without a stop, and the side effects of tasks 0 to k - 1 have happened. |
| RpaTasks.LoopActions | automation/rpa_tasks.py:418-420 | Every task the loop executed returned normally, and the side effects are those of those tasks, in order. |
| RpaTasks.PerformedIsActionsOf | automation/rpa_tasks.py:418-420 | The side effects of a run are those of the executed tasks, in order. |
| RpaTasks.Run | automation/rpa_tasks.py:408-427 | A dry run gives [] and runs nothing. Otherwise the tasks run in list order with one record each, and the run stops right after the first error record of a task with stop_on_error. An error without it does not stop the run. Only the executed tasks' side effects happen. An exception from execute_task on task k propagates after the side effects of tasks 0 to k - 1. |
| BrowserAutomation.ChromeOptions.constructor | automation/browser_automation.py:88 | A new options object has no arguments. |
| BrowserAutomation.ChromeOptions.AddArgument | automation/browser_automation.py:90-94 | add_argument appends one argument. |
| BrowserAutomation.GetChromeOptions | automation/browser_automation.py:86-95 | get_chrome_options yields a fresh options object holding ChromeArguments of the headless flag's truthiness. |
| BrowserAutomation.ChromeArgumentsContents | automation/browser_automation.py:86-95 | '--headless' is present exactly when headless. '--no-sandbox', '--disable-dev-shm-usage', '--disable-gpu' and '--window-size=1920,1080' are always present, and nothing else is. That is 5 arguments when headless and 4 otherwise. |
| BrowserAutomation.HeadlessOptions | tests/test_browser.py:44-51 | A headless runner passes '--headless' and '--no-sandbox'. |
| BrowserAutomation.TaskRaises | automation/browser_automation.py:106-171 | execute_task raises AttributeError for a task that is not a dict. For a dict task it raises exactly when the try block fails and the screenshot its handler takes fails too, and then it raises the screenshot's exception. Every other failure becomes a record. |
| BrowserAutomation.UnsupportedTypeIsErrorRecord | automation/browser_automation.py:148-171 | An unsupported type gives {'type', 'status': 'error', 'error': 'Unsupported task type: T'}, not an exception, unless the handler's screenshot raises. |
| BrowserAutomation.TaskRecordShapes | automation/browser_automation.py:114-171 | A record is returned exactly when the try block succeeds or the screenshot does. A successful extract gives {'type': 'extract', 'selector', 'value'} with the element's text and no status. Other successes give {'type', 'status': 'success'}. A failure gives {'type', 'status': 'error', 'error'}, with 'Timeout: ' before a timeout's message. The status is 'error' exactly when the try block failed. |
| BrowserAutomation.Loop | automation/browser_automation.py:186-193 | The task loop yields at most one result per task. |
| BrowserAutomation.LoopHaltsAt | automation/browser_automation.py:190-193 | Once the loop halts, later tasks are not executed. |
| BrowserAutomation.LoopNext | automation/browser_automation.py:186-193 | One more turn of a running loop: the next task's exception ends it; otherwise its record is appended and a stop-on-error record breaks the loop. |
| BrowserAutomation.LoopSteps | automation/browser_automation.py:186-188 | Result i is what task i yields. The loop crashes at a task that raises, and otherwise ends with every task done or at a break. |
| BrowserAutomation.LoopStops | automation/browser_automation.py:190-193 | The loop breaks exactly after the first error record of a task with stop_on_error. |
| BrowserAutomation.RunRecords | automation/browser_automation.py:183-197 | In a run, result i is the record of dict task i. The loop breaks right after the first stop-on-error record and is ended by a task that is not a dict or whose failure screenshot raises; otherwise every task has a result. |
| BrowserAutomation.Runner.constructor | automation/browser_automation.py:40-64 | A new runner keeps its configuration and has no driver. |
| BrowserAutomation.Runner.InitDriver | automation/browser_automation.py:66-84 | The driver field is set, remote when remote_url is truthy, as soon as the driver is created. A failure to create or configure it is returned to be raised. |
| BrowserAutomation.Runner.RunTasks | automation/browser_automation.py:186-193 | The append-and-break loop yields Loop's results and reports whether a task raised. |
| BrowserAutomation.Runner.Run | automation/browser_automation.py:173-202 | A dry run gives [] and starts no driver. A driver that was never created gives [] without raising. When the driver was created but configuring it or a task raised, the handler's fatal_error screenshot decides: its exception escapes run, otherwise the results so far are returned. After a good start the results are the task loop's. A created driver is quit at the end. |
| SocialBots.Strip | automation/social_bots.py:180 | strip() yields a slice of the line with no whitespace at either end and only whitespace around it. It is empty exactly when the line is all whitespace. |
| SocialBots.StripExact | automation/social_bots.py:180 | A slice without whitespace at its ends, between whitespace, is exactly what strip() returns. |
| SocialBots.StripIdempotent | automation/social_bots.py:180 | Stripping twice is stripping once. |
| SocialBots.LinesHaveNoBreak | automation/social_bots.py:179-180 | No line of a file holds a line break. |
| SocialBots.LinesOfLine | automation/social_bots.py:179-180 | A text without line breaks is one line. |
| SocialBots.LinesSplit | automation/social_bots.py:179-180 | Splitting a text at a line break splits its lines. |
| SocialBots.NonBlank | automation/social_bots.py:180 | The kept lines are stripped and non-empty, and there are no more of them than lines. |
| SocialBots.NonBlankAppend | automation/social_bots.py:180 | Filtering lines preserves their order. |
| SocialBots.TemplatesSplit | automation/social_bots.py:179-180 | The templates of two texts joined at a line break are those of the first, then those of the second. |
| SocialBots.TemplatesOfLine | automation/social_bots.py:180 | A line gives its stripped text, or nothing when it is blank. |
| SocialBots.LoadTemplates | automation/social_bots.py:176-184 | A file that cannot be read gives []. Every template is stripped and non-empty. |
| SocialBots.ThreeTemplates | automation/social_bots.py:176-181 | Three stripped, non-blank lines give themselves, in order. |
| SocialBots.ThreeLineFile | tests/test_social_bots.py:51-70 | The test's three-line file gives its three lines, the first being 'Hello {name}!'. |
| SocialBots.ReplaceAbsent | automation/social_bots.py:196 | replace leaves a text without the pattern unchanged. |
| SocialBots.ReplaceRendered | automation/social_bots.py:196 | Replacing {key} in a template of plain text and placeholders fills every placeholder of key. |
| SocialBots.FillWellFormed | automation/social_bots.py:194-196 | Filling a key keeps the template well formed and removes exactly that key's placeholders. |
| SocialBots.SubstituteRendered | automation/social_bots.py:194-196 | The substitution loop fills the placeholders of every data key, in the data's order. The placeholders left are those of keys not in the data. |
| SocialBots.NoPlaceholderLeft | automation/social_bots.py:194-196 | When every placeholder's key is in the data and no key or value holds a brace, no placeholder of any key remains. |
| SocialBots.NestedBracesLeavePlaceholder | automation/social_bots.py:194-196 | Without that condition a placeholder can remain: '{{name}}' with name = 'name' gives '{name}'. |
| SocialBots.SelectRandomMessage | automation/social_bots.py:186-198 | Empty templates give 'Default message'. Falsy data gives the chosen template unchanged, a member of templates. Otherwise each item replaces its placeholder in turn. |
| SocialBots.NameFilled | automation/social_bots.py:194-196 | A brace-free template with one {name}, filled with John, names John and holds no {name}. |
| SocialBots.GreetingTemplates | tests/test_social_bots.py:72-90 | Whichever of the test's templates is picked, the result is that template with John in place of {name}. It contains 'John' and no '{name}'. |
| SocialBots.ErrorRecord | automation/social_bots.py:226-230 | An error record is tagged with its platform, has status 'error' and carries its message. |
| SocialBots.SendRecord | automation/social_bots.py:107-174 | A send's record is tagged with its platform. Its status is 'success' exactly when the client is ready, the send was delivered and the platform is not Discord, so Discord always reports an error. |
| SocialBots.Handled | automation/social_bots.py:200-232 | A loop that does not raise gives one record per task. One that raises gives fewer. |
| SocialBots.RunPlatformTasks | automation/social_bots.py:200-232 | The append loop of run_telegram_tasks, run_twitter_tasks and run_discord_tasks yields Handled. |
| SocialBots.HandledPerTask | automation/social_bots.py:204-230 | Result i is task i's record, in order. An exception that ends the loop is the one of the task after the last result. |
| SocialBots.HandledStopsAt | automation/social_bots.py:204-230 | Once a task raises, later tasks are not executed. |
| SocialBots.UnknownTypeTagged | automation/social_bots.py:225-230 | An unknown type gives an error record tagged with the platform, 'Unknown task type: T', and sends nothing. |
| SocialBots.HandledTagged | automation/social_bots.py:204-230 | Every record a platform's loop appends is tagged with that platform. |
| SocialBots.NothingSentWithoutClient | automation/social_bots.py:166-174 | Nothing reaches an SDK whose client is not initialised, and nothing ever reaches Discord. |
| SocialBots.RunSection | automation/social_bots.py:312-315 | One platform's part of run yields Contribution. |
| SocialBots.ContributionTagged | automation/social_bots.py:312-315 | A platform contributes only records tagged with it, and nothing when its task list is falsy. |
| SocialBots.Run | automation/social_bots.py:301-329 | A dry run gives [] and sends nothing. Otherwise the Telegram, Twitter and Discord batches are chained, and an exception from any of them propagates. The Twitter batch follows the corrected post_tweet of the Findings table, so a missing client gives a record, not an exception. |
| SocialBots.RunGroupedByPlatform | automation/social_bots.py:309-329 | A run's results are Telegram's block, then Twitter's, then Discord's, each tagged with its platform. A platform with no tasks contributes an empty block. |
| SocialBots.PostTweetAsWritten | automation/social_bots.py:141-148 | post_tweet as written raises exactly when no Twitter client was built. |
| SocialBots.PostTweetWithoutClientRaises | automation/social_bots.py:141-148 | Without a client, post_tweet as written raises where the 'Twitter API not initialized' record was meant. |
| SocialBots.TweetWithoutClientRecorded | automation/social_bots.py:238-256 | In the corrected model, a post_tweet task without a client yields the 'Twitter API not initialized' record, sends nothing, and the loop goes on. |
| Utils.FormatErrorMessage | automation/utils.py:71-73 | The message is the exception's type name, then ': ', then its message. |
| Utils.FormatErrorMessageRoundTrip | automation/utils.py:71-73 | For a type name without ':', the type name and the message can be read back from the formatted message. |
| Utils.FormatErrorMessageInjective | automation/utils.py:71-73 | Two exceptions whose type names hold no ':' format alike only when they are equal. |
| Utils.Member | automation/utils.py:80 | For a dict, `section in config` is key membership. It raises exactly for a value that is not a container. |
| Utils.ValidateConfig | automation/utils.py:75-83 | The scan over the five required sections, with early return, equals the specification Checked. |
| Utils.CheckedDict | automation/utils.py:75-83 | For a dict, the result is true exactly when every required section is a key. |
| Utils.MissingSectionRejected | automation/utils.py:79-81 | Any single missing required section makes it false. |
| Utils.ExtraSectionsIgnored | automation/utils.py:77-83 | Keys beyond the five never change an accepted configuration's result. |
| Utils.NotContainerRaises | automation/utils.py:80 | A configuration that is not a dict, list or string raises TypeError on the first section. |
| Values.Upper | automation/api_automation.py:73 | upper() on ASCII letters: it keeps the length, maps each of a-z to its capital and leaves every other character as it is, so no a-z is left. |
| Values.DecimalRoundTrip | automation/web_scraper.py:168-170 | The decimal text of a page number, as the f-string writes it, parses back to that number. |
| Values.DecimalInjective | automation/web_scraper.py:168-170 | Different page numbers have different decimal texts. |
| Values.ContainsAt | automation/rpa_tasks.py:341 | `text in content` holds exactly when the text occurs in the content at some position. |

## Left out

- I/O and the libraries behind it are parameters, not models:
  - HTTP sessions (aiohttp, requests), HTML parsing and CSS selection (BeautifulSoup), and Selenium;
  - SMTP, subprocess, shutil and os file operations;
  - pandas, csv and sqlite3, and the Telegram and Twitter SDKs.

  What each call answers is an input indexed by attempt or task.
- Writing the CSV, JSON, JSON Lines and SQLite files: only the table a writer prepares, and so the rows it would try to insert, is modelled. The order of the columns is Python set order and unspecified, so the columns are a set.
- `save_to_json` and `save_to_jsonl`: pure serialisation I/O.
- Sleeping and randomness: `time.sleep`, `asyncio.sleep`, `random.uniform` and `random.choice` become returned delays and given draws or indices. Delays are reals, not floats. A negative delay given to `time.sleep` raises ValueError as Python does; `delay_range` is taken to hold two numbers, so the TypeError of a malformed range is not modelled.
- The concurrency of `run_async` and `scrape_async` (`asyncio.Semaphore`, `asyncio.gather`): the batch is run one item after another, which gives the same order-aligned results for a positive `concurrency`. `concurrency` is taken to be a positive int: the ValueError `asyncio.Semaphore` raises for a negative value, and the hang of a value of 0, are not modelled.
- Logging, signal handling, `load_config`, `setup_logging`, `get_current_timestamp`, `create_data_directory`, and the command-line entry point `cli.py`.
- `take_screenshot`: the file name built from the current time and the screenshot directory are not modelled. Whether `save_screenshot` raises is an input (`TaskIo.screenshot` for a task's handler, `fatalShot` for the handler of `run`).
- BrowserAutomation.Runner.Run: `driver.quit()` in the `finally` block is taken to succeed; an exception from it is not modelled.
- Client initialisation in `init_bots` (Telegram and Twitter): it is one flag per platform, `ready`, in the environment a loop meets.
- Floats do not exist in the model's values. `str()` of a container renders its strings in single quotes without escaping quotes or backslashes inside them. `str()` of an exception is its message.
- Text decoding: a template file's contents are given as text. Both `\n` and `\r` end a line, so `\r\n` yields an extra blank line. `load_message_templates` drops blank lines, so its templates are the same.
- Configuration fields are taken to have the types the code expects: `retry` an int, `base_url` a str and `selectors` a dict. The TypeErrors that `range(retry_count)`, `'?' in base_url` and `selectors.items()` raise for other types are not modelled.
- RpaTasks.Run, BrowserAutomation.Runner.constructor, ApiAutomation.RunAsync and ApiAutomation.Run: `tasks` and `endpoints` are taken to be lists. For a value that is not iterable, Python raises a TypeError: `for task in self.tasks` in the RPA runner's `run` and `len(self.endpoints)` in `run_async` raise it out of `run`, and in the browser runner it is caught by `run`'s handler. A dict or a str would be iterated by its keys or characters. None of this is modelled. (The social bots' task lists are `Value`s and do model it.)
- Failures of the write itself: the scraper's `save_to_sqlite` passes each field unconverted to `cursor.execute`, and every selector field of a scraped record is a list, which sqlite3 cannot bind, so the insert raises for any record with a selector and no row is stored. When every kept record is `{}`, both SQLite writers issue `CREATE TABLE ... ()`, which SQLite rejects. The model states the table prepared, not whether the database accepts it.
- WebScraper.Run: `pauses` holds only the rate-limit pauses `run` takes itself. The retry backoffs of `scrape_static` (`time.sleep(2 ** attempt)`) and of the asynchronous `fetch` (`asyncio.sleep(2 ** attempt)`), and the fixed `time.sleep(3)` of `scrape_js_heavy`, are not returned: `ScrapeStatic` and `Fetch` give only their result.
- ApiAutomation.Run: `async with self` opening and closing the HTTP session is not modelled.
- BrowserAutomation.Runner.Run: it requires a runner whose driver has not been started, as every runner built by the constructor is. A second run on the same object is not modelled.
- Values.Upper: it upper-cases ASCII a-z only. Python's `str.upper` also maps other letters (for example 'ß' to 'SS', which changes the length); HTTP method names are ASCII, so `ApiAutomation.MakeRequest` is affected only for non-ASCII method names.
- ApiAutomation.MakeRequest: it upper-cases the method with Values.Upper, so a method name with non-ASCII letters is not upper-cased as Python would. Python maps 'poſt' (with a long s) to 'POST' and sends a POST; the model keeps 'POſT' and reports it as an unsupported method.
- SocialBots.NoPlaceholderLeft: it proves "no `{key}` remains" only when no data key or value holds a brace and every placeholder's key is in the data. The unconditional claim is false, as NestedBracesLeavePlaceholder shows.

## Findings

| source | as written | input that shows it | evidently intended | confidence | as-written member | corrected member |
|---|---|---|---|---|---|---|
| automation/social_bots.py:141-148 | `post_tweet` reads `self.twitter_client`. That field is assigned only once `tweepy.Client(...)` succeeds; `__init__` sets `twitter_api` instead. | Through `run`: a `twitter` section with credentials for which `tweepy.Client(...)` raises, and a `post_tweet` task; the read raises AttributeError, which ends `run_twitter_tasks` and `run`. A configuration without a `twitter` section never reaches it through `run`, since `run` calls `run_twitter_tasks` only for a truthy twitter section (social_bots.py:318-319); a direct call of `post_tweet` on such a bot raises the same way. | Return the `{'platform': 'twitter', 'status': 'error', 'error': 'Twitter API not initialized'}` record and go on with the next task. | medium, not executed | SocialBots.PostTweetWithoutClientRaises | SocialBots.TweetWithoutClientRecorded |
