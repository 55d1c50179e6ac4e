# agent_armory tool server, modelled in Dafny

agent_armory is an MCP tool server. It loads "tools" from Python files in a
tools directory. Each tool is a function decorated with `mcp_tool`, which
declares its name, input schema, required environment variables, config
defaults and rate limit. The server routes calls to the tools, limits them
with a sliding-window rate limiter, and reloads or unloads them when the
watchdog sees their files or their YAML config files change. Two tools, a URL
scraper and a Gemini web search, carry string and response handling of their
own.

This project models that core:

- `values.dfy`: the JSON-like values the server passes around, Python
  truthiness, and the `{"status": "error", "error": ...}` envelope.
- `strings.dfy` and `paths.dfy`: the `str` and `pathlib` operations the
  code relies on (`in`, `split('__', 1)`, `lower`, `strip`, `stem`, `suffix`).
- `rate_limiter.dfy`: `RateLimiter` as a class over a queue of ticks.
  - `Prune` and `Admit` are the specification functions.
  - The sliding-window guarantee is proved over any run of calls.
- `config_manager.dfy`: `ConfigManager`.
  - The config cache and its `refresh` semantics.
  - The environment-override loop, proved against a fold over the environment.
- `tool_decorator.dfy`: what `mcp_tool` attaches to a function, the config
  merge of `register_tool`, and the handler it returns.
- `registry.dfy`: the registry's state (`tools`, `handlers`, rate limiters,
  insertion order, config cache) and a function for each `ToolManager`
  operation, with the lemmas about them.
- `tool_manager.dfy`: `ToolManager` as a class with those dictionaries as
  fields. Each method is proved to change them as the `Registry` function
  says.
- `watchdog.dfy`: the two event handlers as classes with their `last_reload`
  field. They are proved against a pure decision function per event.
- `html_title.dfy`: `extract_title_from_html`, which both tools define
  identically. It is proved to return the stripped group of the leftmost match
  of `<title[^>]*>([^<]+)</title>`.
- `url_scraper.dfy`: the anti-bot check, the chunk loop of `scrape_url`, and
  the result dict it builds.
- `gemini_web_search.dfy`: the title filter of `follow_redirect`,
  `extract_references` (nested loops proved against a recursive
  specification), and the API-key guard of `search_web`.

Inputs that the source reads from the outside world are parameters of the
model:
- the clock (`now`);
- the tools directory (`World`, a map from file name to what importing the
  file gives);
- the process environment;
- the config files;
- the handlers and the tool functions (Dafny function values returning
  `Returns(value)` or `Raises(message)`);
- the results of HTTP requests.

The rate limiter's clock is an integer tick, and `time.sleep(1)` is one tick.
The watchdog's clock and `reload_delay` are real numbers of seconds, which is
how `time.time()` and the float setting in mcp_server/core/config.py:21
compare.

### Behaviour worth knowing

- **Load is not atomic.**
  - `load_tool` writes `tools[TOOL_NAME]` before it calls `register_tool`.
  - When `register_tool` raises (for example, when the YAML config is a list
    and cannot be merged), `tools` keeps the entry and no handler is stored.
  - A call to that tool then answers "Handler not found for tool".
  - See `Registry.PartialRegistration`.
- **Configs are keyed by file stem.** A tool's config is read and cached
  under the file stem (`Path(filename).stem`). Registry entries are keyed by
  `TOOL_NAME`.
- **Only a modification records the time.**
  - In the tools directory, `last_reload` is set on modify but not on create,
    so creations are never debounced against each other.
  - See `Watchdog.CreationDoesNotDebounce`.
- **No `__` filter for config files.**
  - The config handler has no private-prefix check, so `__init__.yaml`
    triggers `reload_tool("__init__")`.
  - See `Watchdog.DunderNames`.
- **A stale limiter can survive.**
  - A load adds a limiter only when `rate_limit` is truthy, and never removes
    one. A name that already had a limiter keeps it when it is loaded again
    from a definition with no rate limit (`Registry.LoadSucceeds`).
  - `reload_tool` and the watchdog's deletion handling act on the file stem,
    while entries are keyed by `TOOL_NAME`. The old limiter therefore survives
    a reload whenever the reloaded stem differs from the `TOOL_NAME` it
    declares, or when two files share one `TOOL_NAME`
    (`Registry.StaleLimiterSurvivesReload`).
  - For the same reason, deleting `x.py` that declares `TOOL_NAME = "y"`
    leaves `"y"` registered and callable.

## Model

| member | source | states |
|---|---|---|
| Values.ErrorEnvelope | mcp_server/core/tool_manager.py:38-44 | the error dict has exactly the keys `status` and `error`, with `status` "error" and `error` the message |
| Values.ErrorResponseInjective | mcp_server/core/tool_manager.py:35-86 | two error responses are equal exactly when their messages are, so dispatch's different failures are told apart by their messages |
| Values.DictGet | tools/gemini_web_search.py:112 | `d.get(key, default)` is the stored value for a present key and the default otherwise |
| Strings.ContainsIff | tools/url_scraper.py:35 | `sub in s` holds exactly when `sub` occurs in `s` at some index |
| Strings.ContainsTransitive | tools/url_scraper.py:35 | a string inside `b` is inside every string that contains `b` |
| Strings.SplitFirst | mcp_server/utils/config_manager.py:33 | `split(sep, 1)` gives two parts that, rejoined with `sep`, are the string, and the first part does not contain `sep` |
| Strings.Lower | mcp_server/utils/config_manager.py:33 | `lower()` keeps the length and lower-cases each character on its own |
| Strings.LowerKeepsUnderscores | mcp_server/utils/config_manager.py:32-33 | lower-casing neither creates nor moves a `__` |
| Strings.Strip | tools/url_scraper.py:23 | `strip()` returns a slice of the string that starts and ends with non-whitespace, and everything it cut off is whitespace |
| Paths.StemSuffixSplit | mcp_server/core/tool_manager.py:105 | stem followed by suffix is the file name, and the suffix is empty or a dot with no further dot |
| Paths.PyFileRoundTrip | mcp_server/core/tool_manager.py:202 | the file `reload_tool(stem)` loads, `stem + ".py"`, has suffix `.py` and stem `stem` again, so its config is read under the same stem |
| Paths.PySuffixRoundTrip | mcp_server/handlers/watchdog.py:47-51 | a file whose suffix is `.py` is its (non-empty) stem plus `.py`, so `reload_tool(path.stem)` reloads that same file |
| RateLimiting.Prune | mcp_server/utils/rate_limiter.py:28-29 | pruning removes only from the front and stops at a time at most `window` old, so the queue left is a suffix whose front is inside the window |
| RateLimiting.PruneDropsExpired | mcp_server/utils/rate_limiter.py:28-29 | everything pruning removes is more than `window` old; a time exactly `window` old is kept |
| RateLimiting.AdmitSpec | mcp_server/utils/rate_limiter.py:32-35 | a call admits iff the pruned queue holds fewer than `max_requests`; an admitted call appends exactly `now`, a rejected one leaves the pruned queue; the queue never exceeds the capacity and `max_requests <= 0` admits nothing |
| RateLimiting.PruneLater | mcp_server/utils/rate_limiter.py:28-29 | pruning at a time and again at a later one is pruning once at the later time |
| RateLimiting.AdmitKeepsWindow | mcp_server/utils/rate_limiter.py:28-34 | with a clock that does not go backwards, a call keeps the queue sorted and leaves only times at most `window` old |
| RateLimiting.PruneIsRecent | mcp_server/utils/rate_limiter.py:28-29 | on a sorted queue, pruning the front keeps exactly the times inside the window |
| RateLimiting.Admit | mcp_server/utils/rate_limiter.py:23-35 | a call is admitted iff fewer than `max_requests` times remain after pruning; an admitted call leaves at most `max_requests` times, the last being `now`; a rejected call only prunes |
| RateLimiting.RunWindow | mcp_server/utils/rate_limiter.py:23-35 | over any run of calls with a non-decreasing clock, the queue is exactly the admitted times that are inside the window at the latest call, sorted, so at most `max_requests` calls were admitted in the window ending at that call |
| RateLimiting.StepWindow | mcp_server/utils/rate_limiter.py:23-35 | one call keeps the relation between the queue and the admitted times |
| RateLimiting.RateLimiter.constructor | mcp_server/utils/rate_limiter.py:10-20 | a new limiter holds the given limits and an empty queue |
| RateLimiting.RateLimiter.CanMakeRequest | mcp_server/utils/rate_limiter.py:23-35 | `can_make_request` returns and leaves exactly what `Admit` gives on the old queue |
| RateLimiting.RateLimiter.WaitForSlot | mcp_server/utils/rate_limiter.py:37-40 | `wait_for_slot` returns at the first tick at which a call admits, having recorded exactly that call; every earlier tick was rejected |
| RateLimiting.RetryDeadline | mcp_server/utils/rate_limiter.py:37-40 | a rejection means the newest recorded time is still inside the window, which bounds how long the retry loop runs |
| RateLimiting.RetryStep | mcp_server/utils/rate_limiter.py:37-40 | one more turn of the retry loop keeps "every earlier tick was rejected" and acts as a call on the original queue |
| RateLimiting.RetryAdmit | mcp_server/utils/rate_limiter.py:37-40 | a retry at a later tick on the pruned queue acts as it would on the original queue |
| Config.ReadConfig | mcp_server/utils/config_manager.py:43-56 | a missing file, an unreadable or unparsable file and an empty document all give `{}`; otherwise the parsed document |
| Config.Fetch | mcp_server/utils/config_manager.py:38-56 | without `refresh` a cached config is returned as is; otherwise the file is read; either way the cache then holds the returned value under the name and nothing else changes |
| Config.StaleUntilRefresh | mcp_server/utils/config_manager.py:40-41 | once cached, a config is returned unchanged by calls without `refresh` even after the file changes; a call with `refresh` reads the new file |
| Config.ClearedCacheReads | mcp_server/utils/config_manager.py:73-75 | after `clear_cache` the next call reads the file |
| Config.GetFrom | mcp_server/utils/config_manager.py:71 | `config.get(key, default)` on a dict is the value or the default; on any other value it raises an AttributeError |
| Config.SplitKey | mcp_server/utils/config_manager.py:33 | the tool and key an environment name splits into satisfy `tool + "__" + key == name.lower()`, and the tool has no `__` |
| Config.LowerKeepsDoubleUnderscore | mcp_server/utils/config_manager.py:32-33 | a name containing `__` still contains it once lower-cased, so the split always succeeds |
| Config.Record | mcp_server/utils/config_manager.py:32-36 | a name without `__` changes nothing; otherwise the split tool name is added to the overrides |
| Config.RecordLookup | mcp_server/utils/config_manager.py:34-36 | after one entry is recorded, its split tool and key hold the unlowered value and every other override is kept |
| Config.PlainNamesIgnored | mcp_server/utils/config_manager.py:29-32 | environment names without `__` contribute nothing |
| Config.OverrideOrigin | mcp_server/utils/config_manager.py:29-36 | every override comes from an environment entry whose lower-cased name splits into that tool and key, and holds that entry's unlowered value |
| Config.LastOverrideWins | mcp_server/utils/config_manager.py:29-36 | when several names split the same way, the value of the last one in the environment wins |
| Config.OverrideToolNames | mcp_server/utils/config_manager.py:33 | no tool name taken from the environment contains `__` |
| Config.ConfigManager.constructor | mcp_server/utils/config_manager.py:17-25 | a new manager has an empty cache and the overrides of the whole environment |
| Config.ConfigManager.CacheEnvOverrides | mcp_server/utils/config_manager.py:27-36 | the loop over the environment leaves exactly the overrides `EnvOverrides` folds from it, and does not touch the cache |
| Config.ConfigManager.GetToolConfig | mcp_server/utils/config_manager.py:38-56 | `get_tool_config` returns and caches exactly what `Fetch` gives |
| Config.ConfigManager.GetValue | mcp_server/utils/config_manager.py:58-71 | `get_value` is a lookup in the config `get_tool_config` would return, and it caches that config |
| Config.ConfigManager.ClearCache | mcp_server/utils/config_manager.py:73-75 | `clear_cache` empties the cache and nothing else |
| ToolDecorator.InputFields | mcp_server/utils/tool_decorator.py:65-69 | the derived input fields are the type-hint names other than `config` and `return` |
| ToolDecorator.McpTool | mcp_server/utils/tool_decorator.py:62-89 | the attributes mirror the arguments; `required_env_vars=None` becomes `[]` and `config_defaults=None` becomes `{}`; the schema is the input model's; without an input model one is built from the type hints |
| ToolDecorator.DefaultsOfMcpTool | mcp_server/utils/tool_decorator.py:15-34 | with every keyword left out there are no variables, no defaults and no limit, and the window is 60 |
| ToolDecorator.MergeConfig | mcp_server/utils/tool_decorator.py:98-101 | the merged keys are the union; on shared keys the external config wins; a falsy config gives the defaults; a non-dict truthy config raises |
| ToolDecorator.MergeExample | mcp_server/utils/tool_decorator.py:98-101 | `{a:1,b:2}` merged with `{b:3,c:4}` is `{a:1,b:3,c:4}` |
| ToolDecorator.Normalise | mcp_server/utils/tool_decorator.py:115-119 | a str/int/float/bool becomes `{"result": v}`, a list `{"results": v}`, anything else is unchanged |
| ToolDecorator.NormaliseIdempotent | mcp_server/utils/tool_decorator.py:115-119 | a normalised result is neither a scalar nor a list, so normalising again changes nothing |
| ToolDecorator.RegisterTool | mcp_server/utils/tool_decorator.py:95-101 | `register_tool` raises exactly when the config merge does, and otherwise returns a handler |
| ToolDecorator.HandleTool | mcp_server/utils/tool_decorator.py:103-134 | the handler raises exactly when called for another tool's name, with `Unknown tool`; otherwise it returns a list of exactly one TextContent whose payload is serialisable |
| ToolDecorator.RegisteredHandlerShape | mcp_server/utils/tool_decorator.py:103-134 | a call for another tool raises `Unknown tool`; for its own tool the handler never raises and returns one TextContent: the error envelope when validation or the function fails (the function is not called when validation fails), otherwise the normalised result whenever it is serialisable |
| Registry.AsToolDef | mcp_server/core/tool_manager.py:133-158 | the loader sees a decorated function's `TOOL_NAME`, `REQUIRED_ENV_VARS`, metadata and `register_tool` |
| Registry.MissingVars | mcp_server/core/tool_manager.py:134 | the missing variables are exactly the required ones that are unset or empty |
| Registry.Remove | mcp_server/core/tool_manager.py:253 | popping a key cuts that one name out of a duplicate-free insertion order, so every other tool keeps its place in `get_tool_list`; a name not in the order leaves it unchanged |
| Registry.Cleared | mcp_server/core/tool_manager.py:232-234 | clearing leaves the three maps empty and the invariant holding |
| Registry.Load | mcp_server/core/tool_manager.py:99-171 | a missing file, a module without a tool or a missing variable gives False with nothing changed; otherwise the config is read afresh under the stem, `tools[TOOL_NAME]` is written, and the result is True iff `register_tool` returns |
| Registry.Install | mcp_server/core/tool_manager.py:143-165 | the tools entry is written whatever happens; the handler and a limiter are stored only when `register_tool` returns |
| Registry.LoadSucceeds | mcp_server/core/tool_manager.py:144-162 | a successful load replaces the handler under `TOOL_NAME`; it adds a limiter exactly when `rate_limit` is truthy and never removes one |
| Registry.PartialRegistration | mcp_server/core/tool_manager.py:143-154 | when `register_tool` raises, the load fails but the tools entry stays with no new handler, and a call then answers "Handler not found" |
| Registry.LoadValid | mcp_server/core/tool_manager.py:143-162 | every load keeps the invariant: the handler and limiter keys are within the tools keys, and the order lists each tool once |
| Registry.InstallValid | mcp_server/core/tool_manager.py:143-162 | the writes after the config is read keep the invariant whether `register_tool` raises or returns |
| Registry.Unload | mcp_server/core/tool_manager.py:247-258 | a registered name leaves all three maps and the order; any other name changes nothing |
| Registry.UnloadProperties | mcp_server/core/tool_manager.py:247-258 | unloading keeps the invariant, is idempotent, and afterwards a call to the name answers "Unknown tool" |
| Registry.LoadAllStems | mcp_server/core/tool_manager.py:180-190 | every name returned is the stem of an eligible entry (`*.py`, not starting with `__`), not the declared tool name |
| Registry.SuccessIndices | mcp_server/core/tool_manager.py:180-187 | the positions, in increasing order, of exactly those directory entries that are eligible and whose `load_tool` succeeds on the state the scan has reached |
| Registry.LoadAllStemsExact | mcp_server/core/tool_manager.py:180-190 | the stems returned are exactly those of the entries that load, one per such entry, in listing order |
| Registry.LoadAllSplit | mcp_server/core/tool_manager.py:180-187 | a failure does not stop the scan: loading `a + b` is loading `a` then `b` from where `a` left off |
| Registry.LoadAllValid | mcp_server/core/tool_manager.py:180-187 | scanning the directory keeps the invariant |
| Registry.LoadAllNothing | mcp_server/core/tool_manager.py:180-190 | when every entry fails before registering, nothing is returned and nothing changes |
| Registry.LoadAll | mcp_server/core/tool_manager.py:173-190 | the scan returns at most one stem per directory entry, and a listing with no eligible entry (`*.py` not starting with `__`) loads nothing and changes nothing |
| Registry.ReloadAll | mcp_server/core/tool_manager.py:223-238 | `reload_tools` is a directory scan started from cleared maps |
| Registry.ReloadAllProperties | mcp_server/core/tool_manager.py:231-238 | `reload_tools` keeps the invariant, and when every file fails the registry ends up empty |
| Registry.ReloadTool | mcp_server/core/tool_manager.py:192-207 | `reload_tool` unloads the name, then loads `<name>.py` if it exists |
| Registry.ReloadToolProperties | mcp_server/core/tool_manager.py:196-207 | reloading keeps the invariant; when the file is gone the tool stays unloaded with no rollback, and a call answers "Unknown tool" |
| Registry.StaleLimiterSurvivesReload | mcp_server/core/tool_manager.py:196-207 | reloading a stem that is not a registered name, from a file declaring another `TOOL_NAME` without a rate limit, keeps the limiter that name already had |
| Registry.Dispatch | mcp_server/core/tool_manager.py:35-86 | the answer is always a non-empty list: "Unknown tool", then "Handler not found", then an exception becomes "Error executing tool", an empty or non-list result "returned invalid response", and a non-empty list passes through |
| Registry.DispatchDecorated | mcp_server/core/tool_manager.py:63-76 | a decorator-built handler registered under its own name never reaches the invalid-response or exception branch: its one-element list is passed through |
| Registry.ToolList | mcp_server/core/tool_manager.py:262-271 | `get_tool_list` lists the stored entries in insertion order |
| Registry.ToolListNames | mcp_server/core/tool_manager.py:262-271 | the tool list names every registered tool exactly once |
| ToolManagement.ToolManager.constructor | mcp_server/core/tool_manager.py:23-27 | a new manager has empty maps and satisfies the invariant |
| ToolManagement.ToolManager.LoadTool | mcp_server/core/tool_manager.py:99-171 | `load_tool` returns and leaves exactly what `Registry.Load` gives, keeping the invariant; a limiter it stores is a new object with no recorded calls |
| ToolManagement.ToolManager.Install | mcp_server/core/tool_manager.py:143-165 | the writes after the config is read are exactly `Registry.Install`, with a new, empty limiter |
| ToolManagement.ToolManager.LoadToolsFromDirectory | mcp_server/core/tool_manager.py:173-190 | the loop returns the stems and leaves the state `Registry.LoadAll` gives for the directory listing, keeping the invariant |
| ToolManagement.ToolManager.UnloadTool | mcp_server/core/tool_manager.py:247-260 | `unload_tool` changes the state as `Registry.Unload` says, dropping the limiter object of a registered name and keeping the invariant |
| ToolManagement.ToolManager.ReloadTool | mcp_server/core/tool_manager.py:192-221 | `reload_tool` changes the state as `Registry.ReloadTool` says and keeps the invariant |
| ToolManagement.ToolManager.ReloadTools | mcp_server/core/tool_manager.py:223-245 | `reload_tools` changes the state as `Registry.ReloadAll` says and leaves the invariant holding |
| ToolManagement.ToolManager.HandleTool | mcp_server/core/tool_manager.py:30-86 | the global handler answers as `Dispatch` says; a rate-limited tool first waits for a slot, admitted at the first tick that has room; the limiter is not touched when the name is unknown or has no handler |
| Watchdog.ToolDecision | mcp_server/handlers/watchdog.py:20-86 | a tools-directory event acts iff it is not a directory event, comes at least `reload_delay` after the last reload, and names a `*.py` file of the tools directory not starting with `__`; modify and create reload the stem, delete unloads it; only modify records the time |
| Watchdog.ConfigDecision | mcp_server/handlers/watchdog.py:95-124 | a config-directory event acts iff it is a modification passing the same checks on a `*.yaml` file of the config directory; it reloads the stem and records the time |
| Watchdog.DirectoryEventsIgnored | mcp_server/handlers/watchdog.py:22-24 | directory events never act and leave the time alone, in both handlers |
| Watchdog.ReloadDebounces | mcp_server/handlers/watchdog.py:26-29 | after a reload caused by a modification, every event within `reload_delay` is ignored |
| Watchdog.CreationDoesNotDebounce | mcp_server/handlers/watchdog.py:56-67 | a creation reloads without recording the time, so a modification right after it is still acted on |
| Watchdog.ChangesToOtherToolsDropped | mcp_server/handlers/watchdog.py:17 | `last_reload` is shared by all files: a modification of another tool within the delay is dropped |
| Watchdog.DunderNames | mcp_server/handlers/watchdog.py:117 | `__init__.py` is never a tool file, but `__init__.yaml` is a config file |
| Watchdog.DeletionUnloads | mcp_server/handlers/watchdog.py:72-86 | deleting a tool file that passes the checks unloads its stem, after which calls to it answer "Unknown tool" |
| Watchdog.ToolDirectoryHandler.constructor | mcp_server/handlers/watchdog.py:15-18 | `last_reload` starts at 0 |
| Watchdog.ToolDirectoryHandler.OnModified | mcp_server/handlers/watchdog.py:39-54 | `on_modified` leaves `last_reload` and the registry as `ToolDecision` for a modification says |
| Watchdog.ToolDirectoryHandler.OnCreated | mcp_server/handlers/watchdog.py:56-70 | `on_created` changes the registry as `ToolDecision` for a creation says and leaves `last_reload` alone |
| Watchdog.ToolDirectoryHandler.OnDeleted | mcp_server/handlers/watchdog.py:72-86 | `on_deleted` unloads the stem when `ToolDecision` says so, and otherwise changes nothing |
| Watchdog.ConfigDirectoryHandler.constructor | mcp_server/handlers/watchdog.py:90-93 | `last_reload` starts at 0 |
| Watchdog.ConfigDirectoryHandler.OnModified | mcp_server/handlers/watchdog.py:109-124 | `on_modified` leaves `last_reload` and the registry as `ConfigDecision` says |
| HtmlTitle.MatchAtIff | tools/url_scraper.py:22 | the scan at an index succeeds with group bounds `(a, b)` exactly when the pattern matches there with group 1 at `html[a..b]` |
| HtmlTitle.Search | tools/url_scraper.py:22 | `re.search` finds the leftmost index at which the pattern matches, or reports that none does |
| HtmlTitle.ExtractTitle | tools/url_scraper.py:20-23 | a title found never contains `<` |
| HtmlTitle.ExtractTitleNone | tools/url_scraper.py:20-23 | the title is None exactly when the pattern matches nowhere |
| HtmlTitle.ExtractTitleLeftmost | tools/gemini_web_search.py:24-27 | given the leftmost match, the title is its non-empty group 1, stripped |
| UrlScraper.AntiBotMonotone | tools/url_scraper.py:25-35 | a page containing an anti-bot page's text is itself taken for one |
| UrlScraper.IsAntiBotPage | tools/url_scraper.py:27-35 | a page is taken for an anti-bot page exactly when one of the six indicators occurs in it at some index, case-sensitively |
| UrlScraper.IndicatorsDetected | tools/url_scraper.py:27-35 | each of the six indicators is detected on its own |
| UrlScraper.Utf8Length | tools/url_scraper.py:85 | the UTF-8 length of a string is between one and four bytes per character |
| UrlScraper.Utf8LengthAppend | tools/url_scraper.py:85 | the UTF-8 length of a concatenation is the sum of the lengths |
| UrlScraper.PrefixSlice | tools/url_scraper.py:87 | `s[:m]` is a prefix of `s` of length `m` capped at `len(s)`, counting from the end when `m` is negative |
| UrlScraper.ScanIsPrefix | tools/url_scraper.py:80-88 | the content read is always a prefix of the whole response |
| UrlScraper.ScanUnderLimit | tools/url_scraper.py:80-88 | a response whose bytes stay below the limit is read whole |
| UrlScraper.ScanBounded | tools/url_scraper.py:86-88 | the content read is the whole response or at most `max_content_size` characters |
| UrlScraper.ScanCut | tools/url_scraper.py:80-88 | at the first chunk that brings the byte count to `max_content_size`, the content is everything read so far, that chunk included, cut to `max_content_size` characters, whatever chunks follow |
| UrlScraper.CutCountsCharacters | tools/url_scraper.py:85-87 | the limit counts bytes but the cut counts characters: two two-byte characters under a limit of 2 are kept whole, 4 bytes |
| UrlScraper.AccumulateChunks | tools/url_scraper.py:80-88 | the chunk loop leaves exactly the content `Accumulated` specifies |
| UrlScraper.PageResult | tools/url_scraper.py:90-104 | the result is an error iff the page is an anti-bot page, then with the "Anti-bot protection detected" envelope; otherwise a success carrying the final URL, the content and the title |
| GeminiSearch.FilterTitle | tools/gemini_web_search.py:44-48 | a non-empty title is dropped exactly when it contains one of the three challenge texts; an empty title is kept |
| GeminiSearch.FollowRedirect | tools/gemini_web_search.py:29-52 | any exception or `follow_redirects=False` gives the URL back with no title; otherwise the final URL and the filtered title, which names no challenge page |
| GeminiSearch.PyIndex | tools/gemini_web_search.py:68 | a Python index reads position `i` or `n + i`, and is an IndexError outside `[-n, n)` |
| GeminiSearch.ChunkStep | tools/gemini_web_search.py:67-81 | a chunk without `"web"` is skipped; a reference is built only for a valid index of a web chunk with a URI, from the segment text and the final URL, with `confidence` exactly when asked for; that `confidence` is the support's first score, or None for an empty or null score list; asking for it when `confidence_scores` is missing fails the step; conversely, a valid index of a web chunk with a URI, for a support with segment text and not missing `confidence_scores` when confidence is asked for, always adds a reference |
| GeminiSearch.TitleFallback | tools/gemini_web_search.py:77 | the title is the fetched title if truthy, else the chunk's title, else "" |
| GeminiSearch.InnerIsCapped | tools/gemini_web_search.py:67-86 | the inner loop appends one support's references until the count reaches the cap |
| GeminiSearch.OuterIsCapped | tools/gemini_web_search.py:63-86 | the outer loop gives the references so far followed by all later ones, cut at the cap |
| GeminiSearch.ExtractRefsIsPrefix | tools/gemini_web_search.py:63-88 | when no support or chunk index anywhere would raise, the result is the first `max(0, max_references)` of all references, in support order and then chunk-index order; faults past the cap are covered by `ExtractRefsPastCap` |
| GeminiSearch.InnerBound | tools/gemini_web_search.py:67-86 | for any support, the inner loop never takes the count past `max(0, max_references)` |
| GeminiSearch.OuterBound | tools/gemini_web_search.py:63-86 | for any supports, the outer loop never takes the count past `max(0, max_references)` |
| GeminiSearch.ExtractRefsBound | tools/gemini_web_search.py:54-91 | for every response, `extract_references` returns at most `max(0, max_references)` references |
| GeminiSearch.InnerPastCap | tools/gemini_web_search.py:67-86 | once the inner loop reaches the cap it breaks: chunk indices after that point, even ones that would raise, do not change the result |
| GeminiSearch.OuterPastCap | tools/gemini_web_search.py:63-65 | once the count has reached the cap the outer loop breaks: supports after that point, even ones that would raise, do not change the result |
| GeminiSearch.ExtractRefsPastCap | tools/gemini_web_search.py:54-91 | supports after the one that fills the cap cannot change what `extract_references` returns |
| GeminiSearch.OuterFrame | tools/gemini_web_search.py:63-86 | the loops read only `grounding_chunks` from the metadata, besides the supports they iterate |
| GeminiSearch.InnerProvenance | tools/gemini_web_search.py:67-83 | every reference the inner loop adds was built for one of the support's chunk indices |
| GeminiSearch.OuterProvenance | tools/gemini_web_search.py:63-83 | every reference the outer loop adds was built for a chunk index of some support |
| GeminiSearch.ReferencesProvenance | tools/gemini_web_search.py:69-83 | every reference returned was built for a web chunk, and has `confidence` exactly when it was asked for, then the first score (or None) of a support that has `confidence_scores` |
| GeminiSearch.NoReferencesWithoutBudget | tools/gemini_web_search.py:63-65 | with `max_references <= 0` the result is empty |
| GeminiSearch.BadIndexLosesAll | tools/gemini_web_search.py:89-91 | an exception before the cap, here a bad first chunk index, makes the whole result `[]` |
| GeminiSearch.MissingScoresLoseAll | tools/gemini_web_search.py:80-81 | with `include_confidence`, a first support without `confidence_scores` whose first chunk is a web chunk makes the whole result `[]` |
| GeminiSearch.ReferenceFor | tools/gemini_web_search.py:68-83 | the inner loop body does what `ChunkStep` specifies |
| GeminiSearch.ReadSupport | tools/gemini_web_search.py:67-86 | the inner loop, with its `break`, gives what `Inner` specifies |
| GeminiSearch.ExtractReferences | tools/gemini_web_search.py:54-91 | `extract_references`, with its two loops and early exits, returns what `ExtractRefs` specifies |
| GeminiSearch.DictGetTitle | tools/gemini_web_search.py:77 | `chunk["web"].get("title", "")` |
| GeminiSearch.SearchWeb | tools/gemini_web_search.py:110-117 | without a truthy `gemini_api_key` the result is the key error envelope, whatever the client would return; otherwise it is the client search's result |
| GeminiSearch.DefaultsNeedAKey | tools/gemini_web_search.py:98-117 | with the declared defaults and a config file that does not set the key, every search is refused |

## Left out

- Threads, locks and `async`/`await` are not modelled. The model is single-threaded, so the atomicity the lock in `can_make_request` gives is assumed.
- `time.sleep` is one tick of the limiter's integer clock. `datetime.now()` and `time.time()` are the `now` parameter. The two `time.time()` reads in a watchdog event are one `now`.
- RateLimiting.RateLimiter.WaitForSlot: requires `max_requests > 0`. With `max_requests <= 0` the source loops forever.
- ToolManagement.ToolManager.HandleTool: requires the limiter of a registered tool to have `max_requests > 0`, for the same reason. A negative `rate_limit` is truthy and would make `load_tool` attach such a limiter.
- `wrap_tool_handler` (mcp_server/core/tool_manager.py:88-97) is not modelled: nothing calls it.
- The `@server.call_tool()` registration effect inside `register_tool` is not modelled; only the returned handler is.
- Dynamic import is replaced by the `World` map from file name to definition. This covers `importlib`, the `dir()` scan for `register_tool` and the `sys.modules` reload. A failed import is a `None` entry. The `tool_path.exists()` check and the `os.path.exists` check in `reload_tool` are both membership in that map.
- pydantic is not modelled. Validation and JSON-schema generation are opaque function values of the input model.
- `json.dumps` is modelled only as whether it succeeds (`Serialisable`), and TextContent keeps the value it would serialise. A value holding a TextContent is the only failure modelled.
- YAML parsing is an abstract parse result per config file. `load_dotenv` and `os.environ` are an environment given as an ordered list of pairs for the overrides and as a map for the required-variable check.
- `env_overrides` is computed and stored, but nothing in the source reads it. The model proves what it holds and does not use it.
- Python's `str.lower()` is modelled on ASCII letters only. Environment names are taken to be ASCII.
- `re.IGNORECASE` is modelled as ASCII case folding. Python also matches `İ` (U+0130) and `ı` (U+0131) to the `i` of `title`; that is not modelled.
- The whitespace set of `str.strip()` is written out as the characters for which `str.isspace()` holds.
- mcp_server/core/server.py is not part of this model. It holds the HTTP/SSE transport, the watchdog `Observer` threads and a keep-alive loop. The watchdog handlers are given the `ToolManager` directly, where the source calls the server's one-line delegations.
- Exceptions raised inside the registry methods and caught by the watchdog handlers are not modelled: the modelled registry operations do not raise.
- Network code is not modelled:
  - the `requests` calls in `follow_redirect` and `scrape_url`;
  - URL validation with `urlparse`;
  - the Gemini client;
  - the retry loops of `scrape_url` and `search_web`.
- `follow_redirect`'s request results are inputs. So is the grounding metadata of a Gemini response.
- The success branch of `search_web` is the `search` parameter.
- The `scrape_url` tool itself is not modelled; only its helpers and the page handling of its loop body are. Its decorator call passes `time_window=60` (tools/url_scraper.py:47), which `mcp_tool` does not accept (mcp_server/utils/tool_decorator.py:25-34). Importing the module therefore raises, and `load_tool` returns False for it. In the model, that file is a `None` entry of the tools directory.
- A chunk whose `web.uri` is null is not told apart from one with no `uri` key. In the source, `follow_redirect(None)` fails inside its `try` and returns `(None, None)`, so a reference with url None and the chunk's title is appended. The model's `Web.uri` is `None` in both cases and the step fails, which empties the result.
- A module whose `register_tool` attribute lacks `TOOL_NAME`, `TOOL_DESCRIPTION` or `TOOL_SCHEMA` makes `load_tool` raise after `get_tool_config(refresh=True)` has refreshed the config cache (mcp_server/core/tool_manager.py:140-148). The model represents such a file only as a `None` entry, which fails before that refresh, so the cache refresh on this path is not modelled.
- GeminiSearch.ExtractRefsIsPrefix: the result is stated as a prefix of every reference only for responses where no support or chunk index anywhere would raise. For every other response, `ExtractRefsBound` gives the cap. `ExtractRefsPastCap` and `InnerPastCap` show that what lies past the cap is never read, faults included.
- `extract_references` takes the chunk indices and `max_references` to be integers. Non-integer values, which would raise, are not modelled.
- mcp_server/core/config.py, the logging setup, `__main__.py`, the `__init__.py` files and the tests are not part of this model.
