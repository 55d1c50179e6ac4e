/*
 * The file-system event handlers of mcp_server/handlers/watchdog.py.
 *
 * `ToolDirectoryHandler` watches the tools directory and reloads or unloads
 * a tool when its `.py` file is modified, created or deleted;
 * `ConfigDirectoryHandler` watches the config directory and reloads a tool
 * when its `.yaml` file is modified. Both ignore directory events and every
 * event that comes less than `reload_delay` seconds after their own last
 * reload. The clock is an input: each event carries the time `now` at which
 * it is handled. What each handler decides is a function of the event, its
 * last reload time and `now`; the handler methods are proved to carry that
 * decision out on the tool manager.
 */
module Watchdog {
  import opened Strings
  import opened Paths
  import opened Registry
  import opened ToolManagement

  datatype EventKind = Modified | Created | Deleted

  /** A watchdog event: `event.is_directory` and `Path(event.src_path)`. */
  datatype FsEvent = FsEvent(isDirectory: bool, path: FilePath)

  /** `_should_handle_event`: not a directory, and at least `delay` seconds since the last reload. */
  predicate ShouldHandle(event: FsEvent, lastReload: real, now: real, delay: real) {
    !event.isDirectory && !(now - lastReload < delay)
  }

  /** A file of the tools directory that holds a tool: `*.py`, not starting with `__`. */
  predicate IsToolFile(path: FilePath, toolsDir: string) {
    path.parent == toolsDir && Suffix(path.name) == ".py" && !StartsWith(path.name, "__")
  }

  /** A file of the config directory that holds a tool's config: `*.yaml`. */
  predicate IsConfigFile(path: FilePath, configDir: string) {
    path.parent == configDir && Suffix(path.name) == ".yaml"
  }

  /** What a handler asks of the server: nothing, `reload_tool(stem)` or `unload_tool(stem)`. */
  datatype Action = NoAction | ReloadAction(stem: string) | UnloadAction(stem: string)

  /** The action a handler takes for one event and its `last_reload` afterwards. */
  datatype Decision = Decision(action: Action, lastReload: real)

  /**
   * What `ToolDirectoryHandler` does with an event of kind `kind`: a tool
   * file that passes the delay check is reloaded when modified or created and
   * unloaded when deleted; only a modification records the time.
   */
  function ToolDecision(kind: EventKind, event: FsEvent, lastReload: real, now: real, delay: real, toolsDir: string)
    : (r: Decision)
    ensures r.action != NoAction <==> ShouldHandle(event, lastReload, now, delay) && IsToolFile(event.path, toolsDir)
    ensures r.action.ReloadAction? ==> kind != Deleted && r.action.stem == Stem(event.path.name)
    ensures r.action.UnloadAction? ==> kind == Deleted && r.action.stem == Stem(event.path.name)
    ensures r.lastReload == (if kind == Modified && r.action != NoAction then now else lastReload)
  {
    if !ShouldHandle(event, lastReload, now, delay) || !IsToolFile(event.path, toolsDir) then
      Decision(NoAction, lastReload)
    else
      var stem := Stem(event.path.name);
      match kind
      case Modified => Decision(ReloadAction(stem), now)
      case Created => Decision(ReloadAction(stem), lastReload)
      case Deleted => Decision(UnloadAction(stem), lastReload)
  }

  /**
   * What `ConfigDirectoryHandler` does: only a modification of a config file
   * that passes the delay check acts, reloading the tool of the same stem
   * and recording the time. Creation and deletion are the base class's
   * no-ops.
   */
  function ConfigDecision(kind: EventKind, event: FsEvent, lastReload: real, now: real, delay: real, configDir: string)
    : (r: Decision)
    ensures r.action != NoAction <==>
      kind == Modified && ShouldHandle(event, lastReload, now, delay) && IsConfigFile(event.path, configDir)
    ensures r.action != NoAction ==> r.action == ReloadAction(Stem(event.path.name)) && r.lastReload == now
    ensures r.action == NoAction ==> r.lastReload == lastReload
  {
    if kind == Modified && ShouldHandle(event, lastReload, now, delay) && IsConfigFile(event.path, configDir) then
      Decision(ReloadAction(Stem(event.path.name)), now)
    else
      Decision(NoAction, lastReload)
  }

  /** The registry after the server has carried out `action` in the world `w`. */
  function Apply(s: State, w: World, action: Action): State {
    match action
    case NoAction => s
    case ReloadAction(stem) => Registry.ReloadTool(s, w, stem)
    case UnloadAction(stem) => Unload(s, stem)
  }

  /** Directory events never act and leave the last reload time alone. */
  lemma DirectoryEventsIgnored(kind: EventKind, path: FilePath, lastReload: real, now: real, delay: real, dir: string)
    ensures ToolDecision(kind, FsEvent(true, path), lastReload, now, delay, dir) == Decision(NoAction, lastReload)
    ensures ConfigDecision(kind, FsEvent(true, path), lastReload, now, delay, dir) == Decision(NoAction, lastReload)
  {
  }

  /**
   * After a tool file is reloaded for a modification at `now`, every event
   * strictly less than `delay` seconds later is ignored, whatever it is; one
   * exactly `delay` seconds later may act again.
   */
  lemma ReloadDebounces(first: FsEvent, second: FsEvent, kind: EventKind, lastReload: real, now: real, later: real,
                        delay: real, toolsDir: string)
    requires IsToolFile(first.path, toolsDir) && ShouldHandle(first, lastReload, now, delay)
    requires now <= later < now + delay
    ensures var d := ToolDecision(Modified, first, lastReload, now, delay, toolsDir);
      && d.action == ReloadAction(Stem(first.path.name))
      && ToolDecision(kind, second, d.lastReload, later, delay, toolsDir).action == NoAction
    ensures !second.isDirectory && IsToolFile(second.path, toolsDir) ==>
      ToolDecision(kind, second, ToolDecision(Modified, first, lastReload, now, delay, toolsDir).lastReload,
                   now + delay, delay, toolsDir).action != NoAction
  {
  }

  /**
   * Creations and deletions do not record the time, so after a tool file is
   * created a modification handled at the same instant still acts.
   */
  lemma CreationDoesNotDebounce(created: FsEvent, modified: FsEvent, lastReload: real, now: real, delay: real,
                                toolsDir: string)
    requires ShouldHandle(created, lastReload, now, delay) && IsToolFile(created.path, toolsDir)
    requires !modified.isDirectory && IsToolFile(modified.path, toolsDir)
    ensures var d := ToolDecision(Created, created, lastReload, now, delay, toolsDir);
      && d.lastReload == lastReload
      && ToolDecision(Modified, modified, d.lastReload, now, delay, toolsDir).action == ReloadAction(Stem(modified.path.name))
  {
  }

  /**
   * The delay is per handler, not per file: a modification of one tool file
   * makes the handler ignore a modification of a different tool file that
   * follows within the delay, so that file is not reloaded.
   */
  lemma ChangesToOtherToolsDropped(first: FsEvent, second: FsEvent, lastReload: real, now: real, later: real,
                                   delay: real, toolsDir: string)
    requires IsToolFile(first.path, toolsDir) && IsToolFile(second.path, toolsDir)
    requires ShouldHandle(first, lastReload, now, delay) && !second.isDirectory
    requires Stem(first.path.name) != Stem(second.path.name)
    requires now <= later < now + delay
    ensures var d := ToolDecision(Modified, first, lastReload, now, delay, toolsDir);
      ToolDecision(Modified, second, d.lastReload, later, delay, toolsDir) == Decision(NoAction, d.lastReload)
  {
  }

  /** `__init__.py` is never a tool file, while a config file may start with `__`. */
  lemma DunderNames(toolsDir: string, configDir: string)
    ensures !IsToolFile(FilePath(toolsDir, "__init__.py"), toolsDir)
    ensures IsConfigFile(FilePath(configDir, "__init__.yaml"), configDir)
  {
    assert StartsWith("__init__.py", "__") by {
      assert "__init__.py"[..2] == "__";
    }
    var name := "__init__.yaml";
    assert RFind(name, '.') == 8 by {
      assert name[8] == '.';
      assert name[..|name| - 1][..|name| - 2] == name[..|name| - 2];
      assert name[..|name| - 2][..|name| - 3] == name[..|name| - 3];
      assert name[..|name| - 3][..|name| - 4] == name[..|name| - 4];
      assert name[..|name| - 4][..|name| - 5] == name[..|name| - 5];
      assert RFind(name, '.') == RFind(name[..|name| - 4], '.');
    }
    assert Suffix(name) == name[8..] == ".yaml";
  }

  /**
   * A tool's `.py` file being deleted unloads the tool registered under the
   * file's stem: afterwards a call to that name is an unknown tool.
   */
  lemma DeletionUnloads(s: State, w: World, event: FsEvent, lastReload: real, now: real, delay: real,
                        toolsDir: string, args: map<string, Values.Value>)
    requires Valid(s)
    requires ShouldHandle(event, lastReload, now, delay) && IsToolFile(event.path, toolsDir)
    ensures var d := ToolDecision(Deleted, event, lastReload, now, delay, toolsDir);
      var stem := Stem(event.path.name);
      && d.action == UnloadAction(stem)
      && Dispatch(Apply(s, w, d.action), stem, args) == Values.ErrorResponse("Unknown tool: " + stem)
  {
    UnloadProperties(s, Stem(event.path.name), args);
  }

  /** `ToolDirectoryHandler`: the server it drives, its last reload time and the settings it reads. */
  class ToolDirectoryHandler {
    const server: ToolManager
    var lastReload: real
    /** `config.reload_delay`. */
    const reloadDelay: real
    /** `config.tools_dir`. */
    const toolsDir: string

    constructor (server: ToolManager, reloadDelay: real, toolsDir: string)
      ensures this.server == server && this.reloadDelay == reloadDelay && this.toolsDir == toolsDir
      ensures lastReload == 0.0
    {
      this.server := server;
      this.reloadDelay := reloadDelay;
      this.toolsDir := toolsDir;
      lastReload := 0.0;
    }

    /** `on_modified(event)` at time `now`, with the files on disk given by `w`. */
    method OnModified(event: FsEvent, now: real, w: World)
      requires server.Valid()
      modifies this, server, server.configManager
      ensures server.Valid()
      ensures var d := ToolDecision(Modified, event, old(lastReload), now, reloadDelay, toolsDir);
        && lastReload == d.lastReload
        && server.Model() == Apply(old(server.Model()), w, d.action)
      ensures server.configManager.envOverrides == old(server.configManager.envOverrides)
    {
      if !ShouldHandle(event, lastReload, now, reloadDelay) {
        return;
      }
      var path := event.path;
      if IsToolFile(path, toolsDir) {
        lastReload := now;
        server.ReloadTool(Stem(path.name), w);
      }
    }

    /** `on_created(event)` at time `now`. */
    method OnCreated(event: FsEvent, now: real, w: World)
      requires server.Valid()
      modifies server, server.configManager
      ensures server.Valid()
      ensures var d := ToolDecision(Created, event, lastReload, now, reloadDelay, toolsDir);
        server.Model() == Apply(old(server.Model()), w, d.action)
      ensures server.configManager.envOverrides == old(server.configManager.envOverrides)
    {
      if !ShouldHandle(event, lastReload, now, reloadDelay) {
        return;
      }
      var path := event.path;
      if IsToolFile(path, toolsDir) {
        server.ReloadTool(Stem(path.name), w);
      }
    }

    /** `on_deleted(event)` at time `now`. */
    method OnDeleted(event: FsEvent, now: real)
      requires server.Valid()
      modifies server
      ensures server.Valid()
      ensures var d := ToolDecision(Deleted, event, lastReload, now, reloadDelay, toolsDir);
        && (d.action == NoAction ==> server.Model() == old(server.Model()))
        && (d.action.UnloadAction? ==> server.Model() == Unload(old(server.Model()), d.action.stem))
    {
      if !ShouldHandle(event, lastReload, now, reloadDelay) {
        return;
      }
      var path := event.path;
      if IsToolFile(path, toolsDir) {
        server.UnloadTool(Stem(path.name));
      }
    }
  }

  /** `ConfigDirectoryHandler`: reloads a tool when its config file changes. */
  class ConfigDirectoryHandler {
    const server: ToolManager
    var lastReload: real
    /** `config.reload_delay`. */
    const reloadDelay: real
    /** `config.config_dir`. */
    const configDir: string

    constructor (server: ToolManager, reloadDelay: real, configDir: string)
      ensures this.server == server && this.reloadDelay == reloadDelay && this.configDir == configDir
      ensures lastReload == 0.0
    {
      this.server := server;
      this.reloadDelay := reloadDelay;
      this.configDir := configDir;
      lastReload := 0.0;
    }

    /** `on_modified(event)` at time `now`. */
    method OnModified(event: FsEvent, now: real, w: World)
      requires server.Valid()
      modifies this, server, server.configManager
      ensures server.Valid()
      ensures var d := ConfigDecision(Modified, event, old(lastReload), now, reloadDelay, configDir);
        && lastReload == d.lastReload
        && server.Model() == Apply(old(server.Model()), w, d.action)
      ensures server.configManager.envOverrides == old(server.configManager.envOverrides)
    {
      if !ShouldHandle(event, lastReload, now, reloadDelay) {
        return;
      }
      var path := event.path;
      if IsConfigFile(path, configDir) {
        lastReload := now;
        server.ReloadTool(Stem(path.name), w);
      }
    }
  }
}
