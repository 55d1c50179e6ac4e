/*
 * The per-tool configuration store of mcp_server/utils/config_manager.py.
 *
 * A `ConfigManager` caches, per tool, the document read from
 * `<config_dir>/<tool>.yaml`, and at start-up records every environment
 * variable named `TOOL__KEY` as an override `tool -> key -> value`. The
 * config directory and the process environment are inputs: the directory is
 * a map from tool name to what reading its file gives, the environment the
 * ordered list of its `(name, value)` entries.
 */
module Config {
  import opened Values
  import opened Strings

  /** What opening and parsing `<config_dir>/<tool>.yaml` gives. */
  datatype ConfigFile = Parsed(doc: Value) | Unreadable(error: string)

  /** The config read from disk: the document, or `{}` when the file is missing, empty or unreadable. */
  function ReadConfig(files: map<string, ConfigFile>, toolName: string): (r: Value)
    ensures toolName !in files ==> r == EmptyDict
    ensures toolName in files && files[toolName].Unreadable? ==> r == EmptyDict
    ensures toolName in files && files[toolName].Parsed? && !Truthy(files[toolName].doc) ==> r == EmptyDict
    ensures toolName in files && files[toolName].Parsed? && Truthy(files[toolName].doc) ==> r == files[toolName].doc
  {
    if toolName !in files then EmptyDict
    else match files[toolName]
      case Unreadable(_) => EmptyDict
      case Parsed(doc) => if Truthy(doc) then doc else EmptyDict
  }

  /** The value `get_tool_config` returns and the cache it leaves. */
  datatype Fetched = Fetched(config: Value, cache: map<string, Value>)

  /**
   * `get_tool_config(toolName, refresh)`: a cached config is served as is
   * unless `refresh` is set; otherwise the file is read. Either way the
   * cache afterwards holds the returned value under `toolName` and is
   * otherwise unchanged.
   */
  function Fetch(cache: map<string, Value>, files: map<string, ConfigFile>, toolName: string, refresh: bool): (r: Fetched)
    ensures !refresh && toolName in cache ==> r.config == cache[toolName]
    ensures refresh || toolName !in cache ==> r.config == ReadConfig(files, toolName)
    ensures r.cache == cache[toolName := r.config]
  {
    if !refresh && toolName in cache then Fetched(cache[toolName], cache)
    else
      var config := ReadConfig(files, toolName);
      Fetched(config, cache[toolName := config])
  }

  /**
   * Once a config is cached, later calls without `refresh` return it even if
   * the file has changed since; a call with `refresh` reads the new file.
   */
  lemma StaleUntilRefresh(cache: map<string, Value>, files1: map<string, ConfigFile>, files2: map<string, ConfigFile>,
                          toolName: string, refresh: bool)
    ensures var first := Fetch(cache, files1, toolName, refresh);
      && Fetch(first.cache, files2, toolName, false).config == first.config
      && Fetch(first.cache, files2, toolName, true).config == ReadConfig(files2, toolName)
  {
  }

  /** After `clear_cache` the next call reads the file again. */
  lemma ClearedCacheReads(files: map<string, ConfigFile>, toolName: string)
    ensures Fetch(map[], files, toolName, false).config == ReadConfig(files, toolName)
  {
  }

  /** `config.get(key, default)`: a lookup on a dict, and an AttributeError on any other value. */
  function GetFrom(config: Value, key: string, default: Value): (r: Outcome<Value>)
    ensures config.Dict? && key in config.entries ==> r == Returns(config.entries[key])
    ensures config.Dict? && key !in config.entries ==> r == Returns(default)
    ensures !config.Dict? ==> r == Raises("'" + TypeName(config) + "' object has no attribute 'get'")
  {
    if config.Dict? then Returns(DictGet(config.entries, key, default))
    else Raises("'" + TypeName(config) + "' object has no attribute 'get'")
  }

  /** Overrides taken from the environment: tool name to config key to value. */
  type Overrides = map<string, map<string, string>>

  /** The override recorded for `tool` and `key`, if any. */
  function Lookup(o: Overrides, tool: string, key: string): Option<string> {
    if tool in o && key in o[tool] then Some(o[tool][key]) else None
  }

  /**
   * `key.lower().split('__', 1)` for an environment name containing `__`:
   * the tool name before the first `__` and the config key after it.
   */
  function SplitKey(name: string): (r: (string, string))
    requires Contains(name, "__")
    ensures r.0 + "__" + r.1 == Lower(name)
    ensures !Contains(r.0, "__")
  {
    LowerKeepsDoubleUnderscore(name);
    SplitFirst(Lower(name), "__")
  }

  lemma LowerKeepsDoubleUnderscore(name: string)
    requires Contains(name, "__")
    ensures Contains(Lower(name), "__")
  {
    ContainsIff(name, "__");
    var i :| OccursAt("__", name, i);
    LowerKeepsUnderscores(name, i);
    ContainsIff(Lower(name), "__");
  }

  /**
   * One turn of the loop in `_cache_env_overrides`: a name without `__` is
   * ignored; otherwise its value is stored, as given, under the split name.
   */
  function Record(acc: Overrides, name: string, value: string): (r: Overrides)
    ensures !Contains(name, "__") ==> r == acc
    ensures Contains(name, "__") ==> r.Keys == acc.Keys + {SplitKey(name).0}
  {
    if Contains(name, "__") then
      var (tool, key) := SplitKey(name);
      var inner := if tool in acc then acc[tool] else map[];
      acc[tool := inner[key := value]]
    else acc
  }

  /** A recorded override is found under its split name, and every other override is kept. */
  lemma RecordLookup(acc: Overrides, name: string, value: string)
    requires Contains(name, "__")
    ensures var (tool, key) := SplitKey(name);
      var r := Record(acc, name, value);
      && Lookup(r, tool, key) == Some(value)
      && forall t, k :: (t, k) != (tool, key) ==> Lookup(r, t, k) == Lookup(acc, t, k)
  {
  }

  /** The overrides after the loop has gone over `env` in order, starting from `acc`. */
  function EnvOverrides(acc: Overrides, env: seq<(string, string)>): Overrides {
    if env == [] then acc
    else Record(EnvOverrides(acc, env[..|env| - 1]), env[|env| - 1].0, env[|env| - 1].1)
  }

  /** The environment entry at `i` is an override for `tool` and `key`. */
  predicate SetsOverride(env: seq<(string, string)>, i: int, tool: string, key: string) {
    0 <= i < |env| && Contains(env[i].0, "__") && SplitKey(env[i].0) == (tool, key)
  }

  /** Environment names without `__` contribute nothing. */
  lemma {:induction false} PlainNamesIgnored(acc: Overrides, env: seq<(string, string)>)
    requires forall i :: 0 <= i < |env| ==> !Contains(env[i].0, "__")
    ensures EnvOverrides(acc, env) == acc
  {
    if env != [] {
      PlainNamesIgnored(acc, env[..|env| - 1]);
    }
  }

  /**
   * Every override recorded came from `acc` or from an entry of the
   * environment whose lowered name splits into that tool and key, with that
   * value, unlowered.
   */
  lemma {:induction false} OverrideOrigin(acc: Overrides, env: seq<(string, string)>, tool: string, key: string)
    requires Lookup(EnvOverrides(acc, env), tool, key).Some?
    ensures var v := Lookup(EnvOverrides(acc, env), tool, key).value;
      Lookup(acc, tool, key) == Some(v)
      || exists i :: SetsOverride(env, i, tool, key) && env[i].1 == v
  {
    if env != [] {
      var prefix := env[..|env| - 1];
      var (name, value) := env[|env| - 1];
      if SetsOverride(env, |env| - 1, tool, key) {
      } else {
        assert Lookup(EnvOverrides(acc, env), tool, key) == Lookup(EnvOverrides(acc, prefix), tool, key);
        OverrideOrigin(acc, prefix, tool, key);
        var v := Lookup(EnvOverrides(acc, env), tool, key).value;
        if Lookup(acc, tool, key) != Some(v) {
          var i :| SetsOverride(prefix, i, tool, key) && prefix[i].1 == v;
          assert SetsOverride(env, i, tool, key) && env[i].1 == v;
        }
      }
    }
  }

  /** When several names split the same way, the one latest in the environment wins. */
  lemma {:induction false} LastOverrideWins(acc: Overrides, env: seq<(string, string)>, i: int, tool: string, key: string)
    requires SetsOverride(env, i, tool, key)
    requires forall j :: i < j < |env| ==> !SetsOverride(env, j, tool, key)
    ensures Lookup(EnvOverrides(acc, env), tool, key) == Some(env[i].1)
  {
    var prefix := env[..|env| - 1];
    if i < |env| - 1 {
      assert !SetsOverride(env, |env| - 1, tool, key);
      forall j | i < j < |prefix| ensures !SetsOverride(prefix, j, tool, key) {
        assert !SetsOverride(env, j, tool, key);
      }
      assert SetsOverride(prefix, i, tool, key);
      LastOverrideWins(acc, prefix, i, tool, key);
    }
  }

  /** A tool name taken from the environment never contains `__`: the split is at the first one. */
  lemma {:induction false} OverrideToolNames(env: seq<(string, string)>, tool: string)
    requires tool in EnvOverrides(map[], env)
    ensures !Contains(tool, "__")
  {
    if env != [] {
      var (name, value) := env[|env| - 1];
      if Contains(name, "__") && SplitKey(name).0 == tool {
      } else {
        OverrideToolNames(env[..|env| - 1], tool);
      }
    }
  }

  class ConfigManager {
    /** `_cache`: tool name to the config last returned for it. */
    var cache: map<string, Value>
    /** `env_overrides`, filled once at construction; nothing reads it afterwards. */
    var envOverrides: Overrides

    /** `ConfigManager()` over the process environment `environ`. */
    constructor (environ: seq<(string, string)>)
      ensures cache == map[]
      ensures envOverrides == EnvOverrides(map[], environ)
    {
      cache := map[];
      envOverrides := map[];
      new;
      CacheEnvOverrides(environ);
    }

    /** `_cache_env_overrides`: records every `TOOL__KEY` entry of the environment, in order. */
    method CacheEnvOverrides(environ: seq<(string, string)>)
      modifies this
      ensures envOverrides == EnvOverrides(old(envOverrides), environ)
      ensures cache == old(cache)
    {
      var i := 0;
      while i < |environ|
        invariant 0 <= i <= |environ|
        invariant envOverrides == EnvOverrides(old(envOverrides), environ[..i])
        invariant cache == old(cache)
      {
        var (name, value) := environ[i];
        assert environ[..i + 1][..i] == environ[..i];
        ghost var next := Record(envOverrides, name, value);
        assert EnvOverrides(old(envOverrides), environ[..i + 1]) == next;
        if Contains(name, "__") {
          var (tool, key) := SplitKey(name);
          if tool !in envOverrides {
            envOverrides := envOverrides[tool := map[]];
          }
          envOverrides := envOverrides[tool := envOverrides[tool][key := value]];
        }
        assert envOverrides == next;
        i := i + 1;
      }
      assert environ[..i] == environ;
    }

    /** `get_tool_config(toolName, refresh)` against the config directory `files`. */
    method GetToolConfig(toolName: string, refresh: bool, files: map<string, ConfigFile>) returns (config: Value)
      modifies this
      ensures Fetched(config, cache) == Fetch(old(cache), files, toolName, refresh)
      ensures envOverrides == old(envOverrides)
    {
      if !refresh && toolName in cache {
        return cache[toolName];
      }
      if toolName !in files {
        cache := cache[toolName := EmptyDict];
        return EmptyDict;
      }
      match files[toolName]
      case Unreadable(_) =>
        cache := cache[toolName := EmptyDict];
        return EmptyDict;
      case Parsed(doc) =>
        config := if Truthy(doc) then doc else EmptyDict;
        cache := cache[toolName := config];
    }

    /** `get_value(toolName, key, default)`: a lookup in the possibly cached config. */
    method GetValue(toolName: string, key: string, default: Value, files: map<string, ConfigFile>)
      returns (r: Outcome<Value>)
      modifies this
      ensures var fetched := Fetch(old(cache), files, toolName, false);
        r == GetFrom(fetched.config, key, default) && cache == fetched.cache
      ensures envOverrides == old(envOverrides)
    {
      var config := GetToolConfig(toolName, false, files);
      if config.Dict? {
        r := Returns(DictGet(config.entries, key, default));
      } else {
        r := Raises("'" + TypeName(config) + "' object has no attribute 'get'");
      }
    }

    /** `clear_cache`. */
    method ClearCache()
      modifies this
      ensures cache == map[] && envOverrides == old(envOverrides)
    {
      cache := map[];
    }
  }
}
