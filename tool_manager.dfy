/*
 * `ToolManager` of mcp_server/core/tool_manager.py: the registry's three
 * dictionaries as fields, changed in place by its methods. Each method is
 * proved to change the fields exactly as the matching function of the
 * Registry module says, so the properties proved there hold of the class.
 */
module ToolManagement {
  import opened Values
  import opened Paths
  import opened Config
  import opened RateLimiting
  import opened Registry

  /** The policy of each rate limiter object. */
  function Policies(limiters: map<string, RateLimiter>): (r: map<string, LimitPolicy>)
    ensures r.Keys == limiters.Keys
  {
    map n | n in limiters :: LimitPolicy(limiters[n].maxRequests, limiters[n].window)
  }

  lemma PoliciesUpdate(limiters: map<string, RateLimiter>, name: string, limiter: RateLimiter)
    ensures Policies(limiters[name := limiter]) == Policies(limiters)[name := LimitPolicy(limiter.maxRequests, limiter.window)]
  {
  }

  lemma PoliciesRemove(limiters: map<string, RateLimiter>, name: string)
    ensures Policies(limiters - {name}) == Policies(limiters) - {name}
  {
  }

  class ToolManager {
    /** The insertion order of `tools`. */
    var order: seq<string>
    var tools: map<string, ToolInfo>
    var handlers: map<string, Handler>
    var rateLimiters: map<string, RateLimiter>
    /** The shared `config_manager` through which tool configs are read. */
    const configManager: ConfigManager

    /** The registry state the fields stand for. */
    ghost function Model(): State
      reads this, configManager
    {
      State(order, tools, handlers, Policies(rateLimiters), configManager.cache)
    }

    ghost predicate Valid()
      reads this, configManager
    {
      Registry.Valid(Model())
    }

    constructor (configManager: ConfigManager)
      ensures this.configManager == configManager
      ensures Model() == Cleared(configManager.cache) && Valid()
    {
      order := [];
      tools := map[];
      handlers := map[];
      rateLimiters := map[];
      this.configManager := configManager;
    }

    /** `load_tool(filename)` in the world `w`. */
    method LoadTool(filename: string, w: World) returns (ok: bool)
      requires Valid()
      modifies this, configManager
      ensures LoadResult(ok, Model()) == Load(old(Model()), w, filename)
      ensures Valid()
      ensures configManager.envOverrides == old(configManager.envOverrides)
      ensures ok && filename in w.dir.files && w.dir.files[filename].Some? && HasRateLimit(w.dir.files[filename].value) ==>
        var name := w.dir.files[filename].value.toolName;
        fresh(rateLimiters[name]) && rateLimiters[name].requests == []
    {
      if filename !in w.dir.files || w.dir.files[filename].None? {
        assert FailsEarly(w, filename);
        return false;
      }
      var d := w.dir.files[filename].value;
      if d.requiredEnvVars.Some? {
        var missing := MissingVars(d.requiredEnvVars.value, w.environ);
        if missing != [] {
          assert FailsEarly(w, filename);
          return false;
        }
      }
      var config := configManager.GetToolConfig(Stem(filename), true, w.configFiles);
      ok := Install(d, config);
      LoadValid(old(Model()), w, filename);
    }

    /** The tail of `load_tool`: writes `tools`, calls `register_tool`, and stores the handler and a limiter. */
    method Install(d: ToolDef, config: Value) returns (ok: bool)
      modifies this
      ensures LoadResult(ok, Model()) == Registry.Install(old(Model()), d, config)
      ensures ok && HasRateLimit(d) ==> fresh(rateLimiters[d.toolName]) && rateLimiters[d.toolName].requests == []
    {
      var name := d.toolName;
      if name !in tools {
        order := order + [name];
      }
      tools := tools[name := ToolInfo(name, d.description, d.schema)];
      var registered := d.registerTool(config);
      if registered.Raises? {
        return false;
      }
      handlers := handlers[name := registered.value];
      if HasRateLimit(d) {
        var limiter := new RateLimiter(d.metadata.value.rateLimit.value, d.metadata.value.rateLimitWindow);
        PoliciesUpdate(rateLimiters, name, limiter);
        rateLimiters := rateLimiters[name := limiter];
      }
      return true;
    }

    /** `load_tools_from_directory()`: tries every eligible entry in listing order. */
    method LoadToolsFromDirectory(w: World) returns (loaded: seq<string>)
      requires Valid()
      modifies this, configManager
      ensures Loaded(loaded, Model()) == LoadAll(old(Model()), w, w.dir.entries)
      ensures Valid()
      ensures configManager.envOverrides == old(configManager.envOverrides)
    {
      loaded := [];
      var entries := w.dir.entries;
      var i := 0;
      while i < |entries|
        invariant 0 <= i <= |entries|
        invariant Loaded(loaded, Model()) == LoadAll(old(Model()), w, entries[..i])
        invariant configManager.envOverrides == old(configManager.envOverrides)
        invariant Valid()
      {
        var filename := entries[i];
        assert entries[..i + 1][..i] == entries[..i];
        if Eligible(filename) {
          var ok := LoadTool(filename, w);
          if ok {
            loaded := loaded + [Stem(filename)];
          }
        }
        i := i + 1;
      }
      assert entries[..i] == entries;
    }

    /** `unload_tool(name)`. */
    method UnloadTool(name: string)
      requires Valid()
      modifies this
      ensures Model() == Unload(old(Model()), name)
      ensures Valid()
      ensures rateLimiters == if name in old(tools) then old(rateLimiters) - {name} else old(rateLimiters)
    {
      ghost var before := Model();
      UnloadProperties(before, name, map[]);
      if name in tools {
        PoliciesRemove(rateLimiters, name);
        order := Remove(order, name);
        tools := tools - {name};
        handlers := handlers - {name};
        rateLimiters := rateLimiters - {name};
      }
      assert Model() == Unload(before, name);
    }

    /** `reload_tool(stem)`. */
    method ReloadTool(stem: string, w: World)
      requires Valid()
      modifies this, configManager
      ensures Model() == Registry.ReloadTool(old(Model()), w, stem)
      ensures Valid()
      ensures configManager.envOverrides == old(configManager.envOverrides)
    {
      if stem in tools {
        UnloadTool(stem);
      }
      var toolFile := stem + ".py";
      if toolFile !in w.dir.files {
        return;
      }
      var _ := LoadTool(toolFile, w);
    }

    /** `reload_tools()`: clears the three dictionaries, then loads the directory. */
    method ReloadTools(w: World)
      modifies this, configManager
      ensures Model() == ReloadAll(old(Model()), w)
      ensures Valid()
      ensures configManager.envOverrides == old(configManager.envOverrides)
    {
      order := [];
      tools := map[];
      handlers := map[];
      rateLimiters := map[];
      var _ := LoadToolsFromDirectory(w);
    }

    /**
     * The global `handle_tool` at tick `now`. A rate-limited tool first
     * waits for a slot, which records one admitted call in its limiter; the
     * response is the one `Dispatch` gives, and the registry is unchanged.
     */
    method HandleTool(name: string, arguments: map<string, Value>, now: int) returns (response: Value)
      requires name in tools && name in handlers && name in rateLimiters ==> rateLimiters[name].maxRequests > 0
      modifies if name in rateLimiters then {rateLimiters[name]} else {}
      ensures response == Dispatch(Model(), name, arguments)
      ensures !(name in tools && name in handlers) && name in rateLimiters ==>
        rateLimiters[name].requests == old(rateLimiters[name].requests)
      ensures name in tools && name in handlers && name in rateLimiters ==>
        var limiter := rateLimiters[name];
        exists t :: t >= now
          && Admit(old(limiter.requests), t, limiter.maxRequests, limiter.window) == (true, limiter.requests)
          && RejectedBetween(old(limiter.requests), now, t, limiter.maxRequests, limiter.window)
    {
      if name !in tools {
        return ErrorResponse("Unknown tool: " + name);
      }
      if name !in handlers {
        return ErrorResponse("Handler not found for tool: " + name);
      }
      var handler := handlers[name];
      if name in rateLimiters {
        var limiter := rateLimiters[name];
        var admittedAt := limiter.WaitForSlot(now);
      }
      var outcome := handler(name, arguments);
      match outcome
      case Raises(message) =>
        response := ErrorResponse("Error executing tool " + name + ": " + message);
      case Returns(result) =>
        if !(result.List? && result.items != []) {
          response := ErrorResponse("Handler for " + name + " returned invalid response");
        } else {
          response := result;
        }
    }
  }
}
