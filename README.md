# stock-analyzer: a Dafny model of its decision logic

stock-analyzer fetches stock time series from the Alpha Vantage HTTP API and has
a hosted OpenAI assistant analyse them. Under the network glue sit a few pieces of
decision logic, and this project models them and proves what they promise:

- **Run poller** (`iterate_run`). It sorts run statuses into three lists (ongoing,
  returnable, failure). It sleeps one second and retrieves the run again while the
  status is ongoing. It returns the run on a returnable status and raises on a
  failure status. A status in none of the lists falls through the `match`, so the
  function returns `None`. The remote run is modelled as the sequence of statuses
  that successive retrievals observe.
- **Assistant provisioner** (`get_or_create_assistant`). It finds the first
  assistant with exactly the requested name and then reuses it, deletes and
  recreates it, or creates a new one. The remote collection is a class,
  `AssistantsApi`, whose list, delete and create methods change it and record
  each call.
- **Time-series fetcher** (`retrieve_time_series`). It maps the interval to a
  function code, builds the query URL, checks the HTTP status and returns the
  decoded body. The tenacity decorator wraps all of this: at most 3 attempts, and
  each wait is clamped to [4, 10] seconds. The HTTP server is a function from
  request number to a response, or to the failure `requests.get` raises.
- **Tool-call dispatcher** (`process_tool_calls`). For each call, in order, it
  decodes the JSON arguments and calls the registered function with them. It
  serialises the value under the second key of the response. The registry and
  `json.loads`/`json.dumps` are parameters. A tool function is also given its
  call's position in the batch, so a repeated request can get a different answer.
  The dispatcher reports which tool functions it ran.
- **Configuration**. `get_config` validates three settings in order and parses
  `DELETE_IF_EXISTS` case-insensitively. The other loader, `load_configs`, which
  main.py does not call, validates only the OpenAI key and treats any non-empty
  `DELETE_ASSISTANT_IF_EXISTS` as true.
- **Tool declaration**. `available_tools` is modelled as a constant JSON value.

Modules follow the source files: `Assistants`, `StocksService`, `Management`,
`Config`, `ConfigTools` and `Definitions`. Two helper modules support them:
`Wrappers` (Option, Result) and `Json`, an abstract JSON value whose objects keep
their keys in insertion order.

Behaviour of the code that a reader might not expect, and that the model keeps:

- The fetcher retries on every exception, an invalid interval and an HTTP 404
  included (stocks_service.py:11 passes no `retry=` condition).
- The waits are `clamp(2^(n-1), 4, 10)` seconds after attempt `n`, so three
  attempts wait 4 seconds and then 4 seconds (stocks_service.py:11).
- After the third failure tenacity raises a `RetryError` that wraps the last
  failure, rather than the failure itself (stocks_service.py:11, no `reraise=`).
- `get_config()` runs inside every attempt, before the interval is looked up, so
  a missing setting fails each attempt (stocks_service.py:13).
- The symbol and the key are put into the URL without percent-encoding
  (stocks_service.py:28).
- The dispatcher serialises the value under the second key of the response,
  whatever that key is (management.py:22).
- A run status in none of the three lists falls through the `match`, and the
  poller returns `None` (assistants.py:62-68).
- The declared tool is named `get_time_series` (definitions.py:6).

## Model

| member | source | states |
|---|---|---|
| Assistants.KnownStatuses | src/stock_analyzer/assistants/assistants.py:12-14 | the three lists together name nine statuses, and a status is among them iff it is in one of the lists |
| Assistants.StatusListsDisjoint | src/stock_analyzer/assistants/assistants.py:12-14 | no status is named twice, so the ongoing, returnable and failure lists are pairwise disjoint |
| Assistants.Classify | src/stock_analyzer/assistants/assistants.py:62-68 | the `match` arm a status selects: ongoing, returnable or failure iff it is in that list, and no arm iff it is in none |
| Assistants.Rounds | src/stock_analyzer/assistants/assistants.py:56-60 | n polling rounds are 2n events that alternate a one-second sleep and a retrieval with the same thread and run ids |
| Assistants.Settle | src/stock_analyzer/assistants/assistants.py:65-68 | a settled status returns the run iff it is returnable, raises a message naming the status iff it is a failure, and gives `None` iff it is unknown |
| Assistants.FirstSettled | src/stock_analyzer/assistants/assistants.py:62-64 | the index of the first observed status that is not ongoing; every status before it is ongoing |
| Assistants.IterateRunDecidedByFirstSettled | src/stock_analyzer/assistants/assistants.py:55-68 | the first non-ongoing status decides the outcome after exactly one sleep and one retrieval per status up to it; with none, polling has not ended |
| Assistants.ReturnedRunIsReturnable | src/stock_analyzer/assistants/assistants.py:65-66 | a returned run has status requires_action or completed, never a failure status, and carries the polled ids |
| Assistants.RaisesIffFailureStatus | src/stock_analyzer/assistants/assistants.py:67-68 | polling raises iff the first settled status is a failure status, and the message names that status |
| Assistants.UnmatchedStatusGivesNone | src/stock_analyzer/assistants/assistants.py:62-68 | polling ends with `None` and no error iff the first settled status is in no list |
| Assistants.SleepBeforeEveryRetrieval | src/stock_analyzer/assistants/assistants.py:56-60 | each retrieval is preceded by exactly one one-second sleep, and there are at most as many retrievals as statuses observed |
| Assistants.IterateRun | src/stock_analyzer/assistants/assistants.py:55-68 | while every observed status is ongoing each costs one sleep and one retrieval; a returned run carries the polled run and thread ids and a returnable status |
| Assistants.PollRun | src/stock_analyzer/assistants/assistants.py:55-68 | the poll loop produces the same outcome and the same sleep/retrieve trace as the recursive definition |
| Assistants.WithoutAt | src/stock_analyzer/assistants/assistants.py:30 | with distinct ids, deleting the assistant at position k removes exactly it and keeps the rest in order |
| Assistants.AssistantsApi.List | src/stock_analyzer/assistants/assistants.py:25 | listing returns the collection in listing order and records one list call |
| Assistants.AssistantsApi.Delete | src/stock_analyzer/assistants/assistants.py:30 | deleting removes the assistants with that id and records one delete call |
| Assistants.AssistantsApi.Create | src/stock_analyzer/assistants/assistants.py:44-49 | creating lists a new assistant with a fresh id and the requested fields first, and records one create call |
| Assistants.FirstNamed | src/stock_analyzer/assistants/assistants.py:26 | the position of the first assistant in listing order whose name equals the requested one; none iff no name matches |
| Assistants.NextNamed | src/stock_analyzer/assistants/assistants.py:26 | the `next(...)` scan finds that first match, or `None` iff there is none |
| Assistants.GetOrCreateAssistant | src/stock_analyzer/assistants/assistants.py:16-51 | match and no delete flag: the match is returned, the collection and the id counter are unchanged and only a list call happens; match and the flag: one delete of the match, then one create with the next fresh id; no match: one create with the next fresh id and no delete |
| StocksService.FunctionFor | src/stock_analyzer/services/stocks_service.py:17-24 | exactly intraday, daily, weekly and monthly have a function code, and it is TIME_SERIES_ followed by the interval in upper case |
| StocksService.RequestUrl | src/stock_analyzer/services/stocks_service.py:28-30 | the URL starts with the base, `?function=` and the function code, and ends with the key, or with `&interval=5min` for intraday |
| StocksService.RequestUrlParams | src/stock_analyzer/services/stocks_service.py:28-30 | when the base has no `?` or `#` and the symbol and key are made of RFC 3986 unreserved characters, the server reads back function, symbol and key in order, and `interval=5min` last exactly for intraday |
| StocksService.SymbolIsNotEncoded | src/stock_analyzer/services/stocks_service.py:28 | the f-string inserts the symbol without encoding it, so a `&` in the symbol splits it into an extra query parameter |
| StocksService.PrepareRequest | src/stock_analyzer/services/stocks_service.py:13-30 | a configuration error comes first, then an invalid interval fails before any request; otherwise the URL is built from the configured base and key |
| StocksService.Complete | src/stock_analyzer/services/stocks_service.py:32-34 | a request that gets no response raises; a 4xx or 5xx status raises; otherwise the decoded body is returned unchanged, and an undecodable body raises |
| StocksService.Attempt | src/stock_analyzer/services/stocks_service.py:13-34 | a failed preparation is the attempt's error and no request is made; a failed request raises; the attempt succeeds iff preparation succeeds and the response has a non-error status and a JSON body, which it returns |
| StocksService.WaitAfter | src/stock_analyzer/services/stocks_service.py:11 | each wait is the exponential value clamped to [4, 10] |
| StocksService.WaitSchedule | src/stock_analyzer/services/stocks_service.py:11 | the two waits three attempts allow are both 4 |
| StocksService.RetrieveTimeSeries | src/stock_analyzer/services/stocks_service.py:11-34 | 1 to 3 attempts; every attempt before the last failed; success returns the last attempt's body; failure only after 3 attempts, wrapping the last error; one clamped wait between attempts; no request at all when preparation fails |
| StocksService.NotFoundIsRetried | src/stock_analyzer/services/stocks_service.py:11 | an HTTP 404 is retried like any error: all three attempts are made |
| Management.SecondValue | src/stock_analyzer/tools/management.py:22 | the value under the second key of an object response; fewer than two keys, or no object, fails |
| Management.InvocationOf | src/stock_analyzer/tools/management.py:20-21 | a call runs its tool function iff its arguments decode to an object and its name is registered, and then with its position, name and decoded arguments |
| Management.ProcessCall | src/stock_analyzer/tools/management.py:16-28 | a call succeeds iff its arguments decode to an object, its function is registered, the function returns and its response has a second key; the output carries the call id and the serialised second value; an unregistered name fails |
| Management.ProcessToolCalls | src/stock_analyzer/tools/management.py:13-30 | one output per call, in call order, with matching ids, iff every call succeeds; otherwise the error of the first failing call and no outputs; the tool functions run are exactly those of the calls up to and including the failing one, in order |
| Management.SuccessfulBatchRunsEveryTool | src/stock_analyzer/tools/management.py:16-21 | a successful batch runs each call's tool function exactly once, in call order, with that call's name and decoded arguments |
| Management.RepeatedCallCanFail | src/stock_analyzer/tools/management.py:21-22 | the same call repeated in a batch can succeed first and then fail with an index error when the repeat gets the "Information" notice |
| Management.InformationOnlyFails | src/stock_analyzer/tools/management.py:22 | a response holding only an "Information" key fails with an index error |
| Management.SecondKeyIsNotScanned | src/stock_analyzer/tools/management.py:22 | the second value is taken whatever its key, even when the time series comes third |
| Config.Getenv | src/stock_analyzer/config/config.py:22 | a variable is read iff it is set, with its value |
| Config.DeleteFlag | src/stock_analyzer/config/config.py:33 | the flag is true iff DELETE_IF_EXISTS is set to "true" in any case; unset gives false |
| Config.GetConfig | src/stock_analyzer/config/config.py:19-42 | succeeds iff the three settings are set and non-empty; the first missing one, in order, names the error; on success every field is the environment's value, name and instructions possibly absent |
| ConfigTools.LoadDeleteFlag | src/stock_analyzer/config/tools.py:11 | the flag is true iff DELETE_ASSISTANT_IF_EXISTS is set and non-empty |
| ConfigTools.LoadConfigs | src/stock_analyzer/config/tools.py:7-12 | raises an environment error iff OPENAI_API_KEY is unset or empty; otherwise returns name, instructions, key and flag in that order |
| ConfigTools.FlagRulesDiffer | src/stock_analyzer/config/tools.py:11 | whenever both variables hold the same non-empty value that does not spell "true" (such as "False"), the flag is set in `load_configs` and cleared in `get_config` |
| ConfigTools.GetConfigImpliesLoadConfigs | src/stock_analyzer/config/tools.py:9-12 | whenever `get_config` succeeds, `load_configs` does too, with the same key, name and instructions |
| Definitions.StringParameter | src/stock_analyzer/tools/definitions.py:11-16 | a parameter schema has type string |
| Definitions.ParametersSchema | src/stock_analyzer/tools/definitions.py:8-19 | the parameters are an object with keys type, properties and required, and required is exactly ["symbol", "interval"] |
| Definitions.FunctionSchema | src/stock_analyzer/tools/definitions.py:5-20 | the function is named get_time_series and carries the parameters schema |
| Definitions.AvailableTools | src/stock_analyzer/tools/definitions.py:1-23 | exactly one declaration, of type "function", holding that function |
| Definitions.PropertiesShape | src/stock_analyzer/tools/definitions.py:10-17 | the properties are exactly symbol and interval, in that order, both string parameters |

## Left out

- Network calls are abstract inputs. The run service is a status sequence, the
  assistant service is the `AssistantsApi` class, and the HTTP server is a function
  from request number to a response or a request failure. Their real behaviour is
  not modelled.
- Assistants.IterateRun, Assistants.PollRun: an exception raised by
  `runs.retrieve` (assistants.py:57) is not modelled; every retrieval observes a
  status.
- Assistants.GetOrCreateAssistant: exceptions raised by the `list`, `delete` and
  `create` calls (assistants.py:25, :30, :31, :44) are not modelled, nor is the
  lazy, page-by-page fetching behind the iterable `list()` returns; the listing is
  one complete sequence.
- StocksService.RequestUrlParams, StocksService.SymbolIsNotEncoded: the model reads
  the URL as the f-string builds it. The HTTP client's re-quoting of the URL and
  the server's percent- and `+`-decoding are not modelled; both lemmas are stated
  for symbols and keys of RFC 3986 unreserved characters, which neither changes.
- Time is not modelled. `time.sleep` and tenacity's waits are recorded as second
  counts in a trace or a list.
- Logging and `time.perf_counter` timing are left out; they are observability only.
- JSON text is not modelled. `json.loads` and `json.dumps` are function parameters.
  An object is a key-ordered list of fields, and objects are assumed to have
  distinct keys, as a decoded Python `dict` does.
- The registry: `available_functions` is imported by `management.py` but not
  defined in `definitions.py`, so the registry is a name-to-function map parameter.
- The `lru_cache` on `get_config` and `load_dotenv` file loading are left out. The
  environment is a map given as input. A failing `get_config` is not cached, so
  the model re-evaluates it in every attempt.
- Assistants.IterateRun, Assistants.PollRun: each ongoing status adds one nested
  Python call (assistants.py:64 is not a loop, and Python has no tail-call
  elimination), so after about a thousand consecutive ongoing statuses the source
  raises `RecursionError`. That depth limit is not modelled: the model keeps
  polling, and reports `StillPolling` when the observed statuses run out.
- Assistants.AssistantsApi.Create: the position of a new assistant (listed first,
  newest first) is an assumption about the service's listing order.
- Assistants.AssistantsApi.Delete: deleting an id that is not listed does nothing
  here; the service would raise. The provisioner deletes only an id it just listed.
- Name and instructions are `Option<string>`, because the caller passes possibly
  absent configuration values. An absent name therefore matches an assistant
  without a name, just as `None == None` does.
- Config.DeleteFlag: `str.lower` is modelled on ASCII letters only. Comparing with
  "true" is unaffected, because no other character lower-cases to t, r, u or e.
- Management.ProcessToolCalls: a tool function sees the outside world only through
  the position of its call in the batch; what it changes there (requests made,
  rate limit used) is not modelled beyond the list of tool functions run.
- Management.ProcessCall: a tool function's own exceptions are an opaque message,
  and `**` on an object is a call with that object.
- The orchestration in `main.py` is not part of this model: thread and message
  creation, tool-output submission, message and step listing, and image download.
  That includes its branch on "requires_action".
- Concurrency is not modelled, including the find-then-create race between callers.
