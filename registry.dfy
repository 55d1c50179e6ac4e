/*
 * The tool registry of mcp_server/core/tool_manager.py, as a state and the
 * functions that say how each operation changes it.
 *
 * The registry keeps three dictionaries keyed by the declared tool name
 * (`TOOL_NAME`): `tools`, `handlers` and `rate_limiters`, plus, through the
 * shared config manager, the per-tool config cache, which is keyed by the
 * file stem. The tools directory, the process environment and the config
 * directory are the world the operations read. The class in
 * tool_manager.dfy is proved to change its fields as these functions say.
 */
module Registry {
  import opened Values
  import opened Strings
  import opened Paths
  import opened Config
  import opened ToolDecorator

  /** The entry `tools[name]`: what `get_tool_list` reports for a tool. */
  datatype ToolInfo = ToolInfo(name: string, description: string, schema: Value)

  /** The `max_requests` and window of a tool's rate limiter. */
  datatype LimitPolicy = LimitPolicy(maxRequests: int, window: int)

  /**
   * What `load_tool` takes from a module: the first attribute, in `dir()`
   * order, that has `register_tool`. `requiredEnvVars` is `None` when the
   * attribute has no `REQUIRED_ENV_VARS`, `metadata` when it has no
   * `_tool_metadata`; `registerTool` maps the tool's config to the handler
   * or to the exception `register_tool` raises.
   */
  datatype ToolDef = ToolDef(
    toolName: string,
    description: string,
    schema: Value,
    requiredEnvVars: Option<seq<string>>,
    metadata: Option<ToolMetadata>,
    registerTool: Value -> Outcome<Handler>)

  /** The definition a function decorated with `mcp_tool` presents to the loader. */
  function AsToolDef(t: DecoratedTool): (d: ToolDef)
    ensures d.toolName == t.toolName && d.requiredEnvVars == Some(t.requiredEnvVars)
    ensures d.metadata == Some(t.metadata)
    ensures forall config :: d.registerTool(config) == RegisterTool(t, config)
  {
    ToolDef(t.toolName, t.toolDescription, t.toolSchema, Some(t.requiredEnvVars), Some(t.metadata),
            (config: Value) => RegisterTool(t, config))
  }

  /**
   * The tools directory: its file names in the order the directory lists
   * them, and for each file what importing it gives (`None` when the import
   * fails or no attribute has `register_tool`).
   */
  datatype ToolsDir = ToolsDir(entries: seq<string>, files: map<string, Option<ToolDef>>)

  /** Everything the registry reads: the tools directory, the environment and the config directory. */
  datatype World = World(dir: ToolsDir, environ: map<string, string>, configFiles: map<string, ConfigFile>)

  /**
   * The registry: `order` is the insertion order of `tools` (the order of a
   * Python dict), `limiters` the policy of each rate limiter, `configCache`
   * the config manager's cache.
   */
  datatype State = State(
    order: seq<string>,
    tools: map<string, ToolInfo>,
    handlers: map<string, Handler>,
    limiters: map<string, LimitPolicy>,
    configCache: map<string, Value>)

  predicate Distinct(xs: seq<string>) {
    forall i, j :: 0 <= i < j < |xs| ==> xs[i] != xs[j]
  }

  /**
   * The registry invariant: `order` lists each tool once, every handler and
   * every limiter belongs to a registered tool, and each tool is stored
   * under its own name.
   */
  ghost predicate Valid(s: State) {
    && Distinct(s.order)
    && (forall n :: n in s.order <==> n in s.tools)
    && s.handlers.Keys <= s.tools.Keys
    && s.limiters.Keys <= s.tools.Keys
    && (forall n :: n in s.tools ==> s.tools[n].name == n)
  }

  /** An empty registry over the given config cache. */
  function Cleared(configCache: map<string, Value>): (s: State)
    ensures Valid(s) && s.tools == map[] && s.handlers == map[] && s.limiters == map[]
  {
    State([], map[], map[], map[], configCache)
  }

  /** `[var for var in vars if not os.getenv(var)]`. */
  function MissingVars(vars: seq<string>, environ: map<string, string>): (r: seq<string>)
    ensures forall v :: v in r <==> v in vars && (v !in environ || environ[v] == "")
  {
    if vars == [] then []
    else
      var rest := MissingVars(vars[1..], environ);
      if vars[0] !in environ || environ[vars[0]] == "" then [vars[0]] + rest else rest
  }

  /** `_tool_metadata.rate_limit` is present and truthy. */
  predicate HasRateLimit(d: ToolDef) {
    d.metadata.Some? && d.metadata.value.rateLimit.Some? && d.metadata.value.rateLimit.value != 0
  }

  /** The steps of `load_tool` that return False before anything is read or written. */
  predicate FailsEarly(w: World, filename: string) {
    || filename !in w.dir.files
    || w.dir.files[filename].None?
    || (var d := w.dir.files[filename].value;
        d.requiredEnvVars.Some? && MissingVars(d.requiredEnvVars.value, w.environ) != [])
  }

  /** The first position of `name` in `order`. */
  function IndexOf(order: seq<string>, name: string): (i: nat)
    requires name in order
    ensures i < |order| && order[i] == name && name !in order[..i]
  {
    if order[0] == name then 0
    else
      var k := IndexOf(order[1..], name);
      assert order[..k + 1] == [order[0]] + order[1..][..k];
      k + 1
  }

  /** `order` without `name`, as popping a dict key does: the entry is cut out and the rest keep their order. */
  function Remove(order: seq<string>, name: string): (r: seq<string>)
    ensures forall n :: n in r <==> n in order && n != name
    ensures Distinct(order) ==> Distinct(r)
    ensures name !in order ==> r == order
    ensures Distinct(order) && name in order ==>
      r == order[..IndexOf(order, name)] + order[IndexOf(order, name) + 1..]
  {
    if order == [] then []
    else
      var rest := Remove(order[1..], name);
      DistinctTail(order);
      if order[0] == name then
        rest
      else
        DistinctCons(order[0], rest);
        RemoveCons(order, name);
        [order[0]] + rest
  }

  /** The tail of a sequence without repetitions has none, nor its head. */
  lemma DistinctTail(xs: seq<string>)
    requires xs != []
    ensures Distinct(xs) ==> xs[0] !in xs[1..] && Distinct(xs[1..])
  {
    if Distinct(xs) {
      forall i | 0 <= i < |xs| - 1
        ensures xs[1..][i] != xs[0]
      {
        assert xs[1..][i] == xs[i + 1];
      }
    }
  }

  /** Putting a new element in front keeps a sequence free of repetitions. */
  lemma DistinctCons(x: string, xs: seq<string>)
    ensures x !in xs && Distinct(xs) ==> Distinct([x] + xs)
  {
    if x !in xs && Distinct(xs) {
      forall i, j | 0 <= i < j < |[x] + xs|
        ensures ([x] + xs)[i] != ([x] + xs)[j]
      {
        if i == 0 {
          assert ([x] + xs)[j] == xs[j - 1];
        } else {
          assert ([x] + xs)[i] == xs[i - 1] && ([x] + xs)[j] == xs[j - 1];
        }
      }
    }
  }

  /** Cutting `name` out of `order` keeps a head that is not `name` in front. */
  lemma RemoveCons(order: seq<string>, name: string)
    requires order != [] && order[0] != name
    ensures name !in order ==> [order[0]] + order[1..] == order
    ensures name in order ==> (
      && name in order[1..]
      && var k := IndexOf(order[1..], name);
      && IndexOf(order, name) == k + 1
      && [order[0]] + (order[1..][..k] + order[1..][k + 1..]) == order[..k + 1] + order[k + 2..])
  {
    if name in order {
      var k := IndexOf(order[1..], name);
      assert order[..k + 1] == [order[0]] + order[1..][..k];
      assert order[k + 2..] == order[1..][k + 1..];
    } else {
      assert [order[0]] + order[1..] == order;
    }
  }

  datatype LoadResult = LoadResult(ok: bool, state: State)

  /**
   * `load_tool(filename)`. A missing file, a module without a tool, or a
   * required environment variable that is unset or empty: False, nothing
   * changed. Otherwise the config is read afresh under the file's stem,
   * `tools[TOOL_NAME]` is written, and then `register_tool` is called: if it
   * raises, the load fails but the `tools` entry stays; if it returns, the
   * handler is stored and, when the rate limit is truthy, a new limiter.
   */
  function Load(s: State, w: World, filename: string): (r: LoadResult)
    ensures FailsEarly(w, filename) ==> r == LoadResult(false, s)
    ensures !FailsEarly(w, filename) ==>
      var d := w.dir.files[filename].value;
      && r.state.configCache == Fetch(s.configCache, w.configFiles, Stem(filename), true).cache
      && r.state.tools == s.tools[d.toolName := ToolInfo(d.toolName, d.description, d.schema)]
      && r.state.order == (if d.toolName in s.tools then s.order else s.order + [d.toolName])
      && (r.ok <==> d.registerTool(Fetch(s.configCache, w.configFiles, Stem(filename), true).config).Returns?)
  {
    if FailsEarly(w, filename) then LoadResult(false, s)
    else
      var fetched := Fetch(s.configCache, w.configFiles, Stem(filename), true);
      Install(s.(configCache := fetched.cache), w.dir.files[filename].value, fetched.config)
  }

  /**
   * The steps of `load_tool` after the config is read: `tools[TOOL_NAME]` is
   * written first, then `register_tool(config)` is called; the handler and a
   * limiter are stored only when it returns.
   */
  function Install(s: State, d: ToolDef, config: Value): (r: LoadResult)
    ensures r.state.configCache == s.configCache
    ensures r.state.tools == s.tools[d.toolName := ToolInfo(d.toolName, d.description, d.schema)]
    ensures r.state.order == (if d.toolName in s.tools then s.order else s.order + [d.toolName])
    ensures r.ok <==> d.registerTool(config).Returns?
    ensures !r.ok ==> r.state.handlers == s.handlers && r.state.limiters == s.limiters
  {
    var name := d.toolName;
    var order := if name in s.tools then s.order else s.order + [name];
    var tools := s.tools[name := ToolInfo(name, d.description, d.schema)];
    match d.registerTool(config)
    case Raises(_) => LoadResult(false, State(order, tools, s.handlers, s.limiters, s.configCache))
    case Returns(handler) =>
      var limiters :=
        if HasRateLimit(d) then s.limiters[name := LimitPolicy(d.metadata.value.rateLimit.value, d.metadata.value.rateLimitWindow)]
        else s.limiters;
      LoadResult(true, State(order, tools, s.handlers[name := handler], limiters, s.configCache))
  }

  /** The writes after the config is read keep the registry invariant, whether `register_tool` raises or not. */
  lemma InstallValid(s: State, d: ToolDef, config: Value)
    requires Valid(s)
    ensures Valid(Install(s, d, config).state)
  {
  }

  /**
   * A successful load registers the handler under `TOOL_NAME`, replacing any
   * earlier one; it adds a limiter exactly when the rate limit is truthy and
   * never removes one; every other name keeps its entries.
   */
  lemma LoadSucceeds(s: State, w: World, filename: string)
    requires Load(s, w, filename).ok
    ensures !FailsEarly(w, filename)
    ensures var d := w.dir.files[filename].value;
      var s' := Load(s, w, filename).state;
      var config := Fetch(s.configCache, w.configFiles, Stem(filename), true).config;
      && s'.handlers == s.handlers[d.toolName := d.registerTool(config).value]
      && (HasRateLimit(d) ==>
            s'.limiters == s.limiters[d.toolName := LimitPolicy(d.metadata.value.rateLimit.value, d.metadata.value.rateLimitWindow)])
      && (!HasRateLimit(d) ==> s'.limiters == s.limiters)
      && s.limiters.Keys <= s'.limiters.Keys
  {
  }

  /**
   * When `register_tool` raises, the load reports failure but leaves
   * `tools[TOOL_NAME]` written with no new handler: a partial registration.
   * A tool that had no handler before then dispatches to "Handler not found".
   */
  lemma PartialRegistration(s: State, w: World, filename: string, args: map<string, Value>)
    requires !FailsEarly(w, filename)
    requires var d := w.dir.files[filename].value;
      d.registerTool(Fetch(s.configCache, w.configFiles, Stem(filename), true).config).Raises?
    ensures var d := w.dir.files[filename].value;
      var r := Load(s, w, filename);
      && !r.ok
      && d.toolName in r.state.tools
      && r.state.handlers == s.handlers && r.state.limiters == s.limiters
      && (d.toolName !in s.handlers ==>
            Dispatch(r.state, d.toolName, args) == ErrorResponse("Handler not found for tool: " + d.toolName))
  {
  }

  /** Loading keeps the registry invariant, whether it succeeds, fails early or fails half-way. */
  lemma LoadValid(s: State, w: World, filename: string)
    requires Valid(s)
    ensures Valid(Load(s, w, filename).state)
  {
  }

  /** `unload_tool(name)`: a registered name leaves all three maps; any other name changes nothing. */
  function Unload(s: State, name: string): (r: State)
    ensures name in s.tools ==> (r.tools == s.tools - {name} && r.handlers == s.handlers - {name}
      && r.limiters == s.limiters - {name} && r.order == Remove(s.order, name))
    ensures name !in s.tools ==> r == s
    ensures r.configCache == s.configCache
  {
    if name in s.tools then
      State(Remove(s.order, name), s.tools - {name}, s.handlers - {name}, s.limiters - {name}, s.configCache)
    else s
  }

  /** Unloading keeps the invariant, is idempotent, and afterwards a call to the name is an unknown tool. */
  lemma UnloadProperties(s: State, name: string, args: map<string, Value>)
    requires Valid(s)
    ensures Valid(Unload(s, name))
    ensures Unload(Unload(s, name), name) == Unload(s, name)
    ensures name !in Unload(s, name).handlers && name !in Unload(s, name).limiters
    ensures Dispatch(Unload(s, name), name, args) == ErrorResponse("Unknown tool: " + name)
  {
  }

  /** The directory entries `load_tools_from_directory` tries: `*.py` names not starting with `__`. */
  predicate Eligible(filename: string) {
    EndsWith(filename, ".py") && !StartsWith(filename, "__")
  }

  /** The stems `load_tools_from_directory` returns and the state it leaves. */
  datatype Loaded = Loaded(stems: seq<string>, state: State)

  /** `load_tools_from_directory` over the entries `entries`, in order. */
  function LoadAll(s: State, w: World, entries: seq<string>): (r: Loaded)
    ensures |r.stems| <= |entries|
    ensures (forall i :: 0 <= i < |entries| ==> !Eligible(entries[i])) ==> r == Loaded([], s)
  {
    if entries == [] then Loaded([], s)
    else
      var before := LoadAll(s, w, entries[..|entries| - 1]);
      var f := entries[|entries| - 1];
      if !Eligible(f) then before
      else
        var r := Load(before.state, w, f);
        Loaded(if r.ok then before.stems + [Stem(f)] else before.stems, r.state)
  }

  /** Entry `i` of the listing is eligible and loads, in the state the entries before it leave. */
  predicate LoadsAt(s: State, w: World, entries: seq<string>, i: nat)
    requires i < |entries|
  {
    Eligible(entries[i]) && Load(LoadAll(s, w, entries[..i]).state, w, entries[i]).ok
  }

  /** Whether an entry loads depends only on the entries before it. */
  lemma LoadsAtPrefix(s: State, w: World, entries: seq<string>, n: nat, i: nat)
    requires i < n <= |entries|
    ensures LoadsAt(s, w, entries, i) == LoadsAt(s, w, entries[..n], i)
  {
    assert entries[..n][..i] == entries[..i];
  }

  /** Whether each entry of the listing loads, in listing order. */
  function Outcomes(s: State, w: World, entries: seq<string>): (r: seq<bool>)
    ensures |r| == |entries|
  {
    if entries == [] then []
    else
      var init := entries[..|entries| - 1];
      var f := entries[|entries| - 1];
      Outcomes(s, w, init) + [Eligible(f) && Load(LoadAll(s, w, init).state, w, f).ok]
  }

  /** `Outcomes` records, at each position, whether that entry loads. */
  lemma {:induction false} OutcomesAt(s: State, w: World, entries: seq<string>, i: nat)
    requires i < |entries|
    ensures Outcomes(s, w, entries)[i] == LoadsAt(s, w, entries, i)
    decreases |entries|
  {
    var n := |entries| - 1;
    if i < n {
      OutcomesAt(s, w, entries[..n], i);
      LoadsAtPrefix(s, w, entries, n, i);
    }
  }

  /** The positions holding `true`, in increasing order. */
  function Indices(oks: seq<bool>): (r: seq<nat>)
    ensures forall j :: 0 <= j < |r| ==> r[j] < |oks|
    ensures forall a, b :: 0 <= a < b < |r| ==> r[a] < r[b]
    ensures forall i :: 0 <= i < |oks| ==> (i in r <==> oks[i])
  {
    if oks == [] then []
    else Indices(oks[..|oks| - 1]) + (if oks[|oks| - 1] then [|oks| - 1] else [])
  }

  /** The positions of the entries that load, in increasing order. */
  function SuccessIndices(s: State, w: World, entries: seq<string>): (r: seq<nat>)
    ensures forall j :: 0 <= j < |r| ==> r[j] < |entries|
    ensures forall a, b :: 0 <= a < b < |r| ==> r[a] < r[b]
    ensures forall i :: 0 <= i < |entries| ==> (i in r <==> LoadsAt(s, w, entries, i))
  {
    var oks := Outcomes(s, w, entries);
    assert forall i :: 0 <= i < |entries| ==> oks[i] == LoadsAt(s, w, entries, i) by {
      forall i | 0 <= i < |entries| {
        OutcomesAt(s, w, entries, i);
      }
    }
    Indices(oks)
  }

  /**
   * `load_tools_from_directory` returns exactly the stems of the entries that
   * load, in listing order: the `j`-th stem is the stem of the `j`-th
   * successful entry.
   */
  lemma {:induction false} LoadAllStemsExact(s: State, w: World, entries: seq<string>)
    ensures var stems := LoadAll(s, w, entries).stems;
      var idx := SuccessIndices(s, w, entries);
      |stems| == |idx| && forall j :: 0 <= j < |idx| ==> stems[j] == Stem(entries[idx[j]])
    decreases |entries|
  {
    if entries != [] {
      var n := |entries| - 1;
      var init := entries[..n];
      LoadAllStemsExact(s, w, init);
      var oks := Outcomes(s, w, init);
      var b := Outcomes(s, w, entries)[n];
      LoadAllSnoc(s, w, entries);
      IndicesSnoc(oks, b);
      StemsSnoc(LoadAll(s, w, init).stems, Indices(oks), entries, b);
    }
  }

  /**
   * If `stems` lists the stems of `entries[..n]` at the positions `idx`, then
   * adding the last entry's stem when it loads keeps the two in step.
   */
  lemma StemsSnoc(stems: seq<string>, idx: seq<nat>, entries: seq<string>, b: bool)
    requires entries != []
    requires forall j :: 0 <= j < |idx| ==> idx[j] < |entries| - 1
    requires |stems| == |idx| && forall j :: 0 <= j < |idx| ==> stems[j] == Stem(entries[..|entries| - 1][idx[j]])
    ensures var n := |entries| - 1;
      var stems' := stems + (if b then [Stem(entries[n])] else []);
      var idx' := idx + (if b then [n] else []);
      |stems'| == |idx'| && forall j :: 0 <= j < |idx'| ==> stems'[j] == Stem(entries[idx'[j]])
  {
  }

  /** One more entry adds its outcome to `Outcomes` and, when it loads, its stem to the stems. */
  lemma LoadAllSnoc(s: State, w: World, entries: seq<string>)
    requires entries != []
    ensures var n := |entries| - 1;
      && Outcomes(s, w, entries) == Outcomes(s, w, entries[..n]) + [Outcomes(s, w, entries)[n]]
      && LoadAll(s, w, entries).stems == LoadAll(s, w, entries[..n]).stems
           + (if Outcomes(s, w, entries)[n] then [Stem(entries[n])] else [])
  {
  }

  /** One more outcome adds its position to `Indices` exactly when it is `true`. */
  lemma IndicesSnoc(oks: seq<bool>, b: bool)
    ensures Indices(oks + [b]) == Indices(oks) + (if b then [|oks|] else [])
  {
    assert (oks + [b])[..|oks|] == oks;
  }

  /** Every stem returned is the stem of an eligible entry, never the declared tool name. */
  lemma {:induction false} LoadAllStems(s: State, w: World, entries: seq<string>)
    ensures forall x :: x in LoadAll(s, w, entries).stems ==>
      exists i :: 0 <= i < |entries| && Eligible(entries[i]) && x == Stem(entries[i])
  {
    if entries != [] {
      var prefix := entries[..|entries| - 1];
      LoadAllStems(s, w, prefix);
      forall x | x in LoadAll(s, w, entries).stems
        ensures exists i :: 0 <= i < |entries| && Eligible(entries[i]) && x == Stem(entries[i])
      {
        if x in LoadAll(s, w, prefix).stems {
          var i :| 0 <= i < |prefix| && Eligible(prefix[i]) && x == Stem(prefix[i]);
          assert entries[i] == prefix[i];
        } else {
          assert x == Stem(entries[|entries| - 1]);
        }
      }
    }
  }

  /**
   * A failed load does not stop the scan: loading `a + b` is loading `a`
   * and then loading `b` from where `a` left the registry.
   */
  lemma {:induction false} LoadAllSplit(s: State, w: World, a: seq<string>, b: seq<string>)
    ensures var first := LoadAll(s, w, a);
      var second := LoadAll(first.state, w, b);
      LoadAll(s, w, a + b) == Loaded(first.stems + second.stems, second.state)
  {
    if b == [] {
      assert a + b == a;
    } else {
      assert (a + b)[..|a + b| - 1] == a + b[..|b| - 1];
      assert (a + b)[|a + b| - 1] == b[|b| - 1];
      LoadAllSplit(s, w, a, b[..|b| - 1]);
      var first := LoadAll(s, w, a);
      var mid := LoadAll(first.state, w, b[..|b| - 1]);
      assert first.stems + (mid.stems + [Stem(b[|b| - 1])]) == (first.stems + mid.stems) + [Stem(b[|b| - 1])];
    }
  }

  lemma {:induction false} LoadAllValid(s: State, w: World, entries: seq<string>)
    requires Valid(s)
    ensures Valid(LoadAll(s, w, entries).state)
  {
    if entries != [] {
      LoadAllValid(s, w, entries[..|entries| - 1]);
      LoadValid(LoadAll(s, w, entries[..|entries| - 1]).state, w, entries[|entries| - 1]);
    }
  }

  /** When every entry fails before registering anything, the scan leaves the three maps and the cache as they were. */
  lemma {:induction false} LoadAllNothing(s: State, w: World, entries: seq<string>)
    requires forall i :: 0 <= i < |entries| ==> FailsEarly(w, entries[i])
    ensures LoadAll(s, w, entries) == Loaded([], s)
  {
    if entries != [] {
      LoadAllNothing(s, w, entries[..|entries| - 1]);
    }
  }

  /** `reload_tools`: the three maps are cleared, then the whole directory is loaded. */
  function ReloadAll(s: State, w: World): (r: State)
    ensures r == LoadAll(Cleared(s.configCache), w, w.dir.entries).state
  {
    LoadAll(Cleared(s.configCache), w, w.dir.entries).state
  }

  /**
   * `reload_tools` keeps the invariant; if every file fails before
   * registering, the registry ends up empty, whatever it held before.
   */
  lemma ReloadAllProperties(s: State, w: World)
    ensures Valid(ReloadAll(s, w))
    ensures (forall i :: 0 <= i < |w.dir.entries| ==> FailsEarly(w, w.dir.entries[i])) ==>
      ReloadAll(s, w) == Cleared(s.configCache)
  {
    LoadAllValid(Cleared(s.configCache), w, w.dir.entries);
    if forall i :: 0 <= i < |w.dir.entries| ==> FailsEarly(w, w.dir.entries[i]) {
      LoadAllNothing(Cleared(s.configCache), w, w.dir.entries);
    }
  }

  /**
   * `reload_tool(stem)`: unload the name if registered, then load
   * `<stem>.py` if it exists.
   */
  function ReloadTool(s: State, w: World, stem: string): (r: State)
    ensures stem + ".py" !in w.dir.files ==> r == Unload(s, stem)
    ensures stem + ".py" in w.dir.files ==> r == Load(Unload(s, stem), w, stem + ".py").state
  {
    var unloaded := if stem in s.tools then Unload(s, stem) else s;
    if stem + ".py" !in w.dir.files then unloaded
    else Load(unloaded, w, stem + ".py").state
  }

  /**
   * Reloading keeps the invariant. When the file is gone the tool stays
   * unloaded: nothing of the earlier registration is restored.
   */
  lemma ReloadToolProperties(s: State, w: World, stem: string, args: map<string, Value>)
    requires Valid(s)
    ensures Valid(ReloadTool(s, w, stem))
    ensures stem + ".py" !in w.dir.files ==>
      stem !in ReloadTool(s, w, stem).tools
      && Dispatch(ReloadTool(s, w, stem), stem, args) == ErrorResponse("Unknown tool: " + stem)
  {
    UnloadProperties(s, stem, args);
    LoadValid(Unload(s, stem), w, stem + ".py");
  }

  /**
   * `reload_tool` unloads by stem, but entries are keyed by `TOOL_NAME`: a
   * file `x.py` declaring `TOOL_NAME = "y"` without a rate limit, reloaded,
   * leaves the limiter `"y"` had from before.
   */
  lemma StaleLimiterSurvivesReload(s: State, w: World, stem: string, name: string)
    requires Valid(s)
    requires name in s.limiters && stem !in s.tools
    requires stem + ".py" in w.dir.files && w.dir.files[stem + ".py"].Some?
    requires var d := w.dir.files[stem + ".py"].value; d.toolName == name && !HasRateLimit(d)
    ensures var r := ReloadTool(s, w, stem);
      name in r.tools && name in r.limiters && r.limiters[name] == s.limiters[name]
  {
  }

  /**
   * The global `handle_tool`: unknown name, then missing handler, then the
   * handler's outcome. An exception, an empty list or a non-list becomes an
   * error envelope; a non-empty list is passed through. Rate limiting only
   * delays the call and is modelled by the class.
   */
  function Dispatch(s: State, name: string, args: map<string, Value>): (r: Value)
    ensures r.List? && r.items != []
    ensures name !in s.tools ==> r == ErrorResponse("Unknown tool: " + name)
    ensures name in s.tools && name !in s.handlers ==> r == ErrorResponse("Handler not found for tool: " + name)
    ensures name in s.tools && name in s.handlers ==>
      var out := s.handlers[name](name, args);
      && (out.Raises? ==> r == ErrorResponse("Error executing tool " + name + ": " + out.message))
      && (out.Returns? && out.value.List? && out.value.items != [] ==> r == out.value)
      && (out.Returns? && !(out.value.List? && out.value.items != []) ==>
            r == ErrorResponse("Handler for " + name + " returned invalid response"))
  {
    if name !in s.tools then ErrorResponse("Unknown tool: " + name)
    else if name !in s.handlers then ErrorResponse("Handler not found for tool: " + name)
    else match s.handlers[name](name, args)
      case Raises(message) => ErrorResponse("Error executing tool " + name + ": " + message)
      case Returns(result) =>
        if result.List? && result.items != [] then result
        else ErrorResponse("Handler for " + name + " returned invalid response")
  }

  /**
   * Once a decorated tool is registered under its own name, dispatch passes
   * its handler's one-element list straight through: the invalid-response
   * branch is never taken and the handler never raises.
   */
  lemma DispatchDecorated(s: State, t: DecoratedTool, config: Value, args: map<string, Value>)
    requires t.toolName in s.tools && t.toolName in s.handlers
    requires RegisterTool(t, config).Returns? && s.handlers[t.toolName] == RegisterTool(t, config).value
    ensures Dispatch(s, t.toolName, args) == RegisterTool(t, config).value(t.toolName, args).value
  {
    RegisteredHandlerShape(t, config, t.toolName, args);
  }

  /** `get_tool_list`: the stored entries in insertion order. */
  function ToolList(s: State): (r: seq<ToolInfo>)
    requires Valid(s)
    ensures |r| == |s.order|
    ensures forall i :: 0 <= i < |r| ==> r[i] == s.tools[s.order[i]] && r[i].name == s.order[i]
  {
    seq(|s.order|, i requires 0 <= i < |s.order| => s.tools[s.order[i]])
  }

  /** The tool list names every registered tool exactly once. */
  lemma ToolListNames(s: State)
    requires Valid(s)
    ensures var r := ToolList(s);
      && (forall n :: n in s.tools <==> exists i :: 0 <= i < |r| && r[i].name == n)
      && (forall i, j :: 0 <= i < j < |r| ==> r[i].name != r[j].name)
  {
    var r := ToolList(s);
    forall n | n in s.tools ensures exists i :: 0 <= i < |r| && r[i].name == n {
      var i :| 0 <= i < |s.order| && s.order[i] == n;
      assert r[i].name == n;
    }
  }
}
