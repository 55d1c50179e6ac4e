/*
 * The `mcp_tool` decorator of mcp_server/utils/tool_decorator.py.
 *
 * Decorating a tool function records its metadata and the attributes the
 * registry looks for (`TOOL_NAME`, `TOOL_DESCRIPTION`, `TOOL_SCHEMA`,
 * `REQUIRED_ENV_VARS`, `register_tool`). `register_tool(server, config)`
 * merges the configuration over the declared defaults and returns the
 * handler that validates a call's arguments, runs the function and wraps
 * whatever happens in a one-element list of TextContent.
 *
 * Input validation and schema generation belong to pydantic; an input
 * model is therefore the list of its fields, an opaque schema and an
 * opaque validator.
 */
module ToolDecorator {
  import opened Values

  /** A pydantic input model: field names, its JSON schema and `Model(**arguments)`. */
  datatype InputModel = InputModel(
    fields: seq<string>,
    schema: Value,
    validate: map<string, Value> -> Outcome<map<string, Value>>)

  /**
   * The decorated function: its `__name__`, the names of its type hints in
   * declaration order (`return` included when annotated) and what calling it
   * with the validated fields and `config=` gives.
   */
  datatype ToolFunction = ToolFunction(
    name: string,
    hints: seq<string>,
    call: (map<string, Value>, map<string, Value>) -> Outcome<Value>)

  /** The `ToolMetadata` dataclass. */
  datatype ToolMetadata = ToolMetadata(
    name: string,
    description: string,
    requiredEnvVars: seq<string>,
    configDefaults: map<string, Value>,
    rateLimit: Option<int>,
    rateLimitWindow: int)

  /** The arguments of `mcp_tool(name, description, *, ...)`. */
  datatype McpToolArgs = McpToolArgs(
    name: string,
    description: string,
    inputModel: Option<InputModel>,
    requiredEnvVars: Option<seq<string>>,
    configDefaults: Option<map<string, Value>>,
    rateLimit: Option<int>,
    rateLimitWindow: int)

  /** `mcp_tool(name, description)` with every keyword argument left at its default. */
  function DefaultArgs(name: string, description: string): McpToolArgs {
    McpToolArgs(name, description, None, None, None, None, 60)
  }

  /** The decorated function with the attributes the decorator attached to it. */
  datatype DecoratedTool = DecoratedTool(
    metadata: ToolMetadata,
    toolName: string,
    toolDescription: string,
    toolSchema: Value,
    requiredEnvVars: seq<string>,
    inputModel: InputModel,
    func: ToolFunction)

  /** The hint names left once `config` and `return` are removed, in their order. */
  function InputFields(hints: seq<string>): (r: seq<string>)
    ensures forall x :: x in r <==> x in hints && x != "config" && x != "return"
    ensures |r| <= |hints|
  {
    if hints == [] then []
    else
      var rest := InputFields(hints[1..]);
      if hints[0] == "config" || hints[0] == "return" then rest else [hints[0]] + rest
  }

  /**
   * `mcp_tool(...)(func)`. Without an input model, one is created (by
   * pydantic's `create_model`, passed in as `createModel`) from the hints
   * other than `config` and `return`. `None` for the environment variables
   * or the defaults means empty; the attributes mirror the arguments.
   */
  function McpTool(args: McpToolArgs, func: ToolFunction, createModel: seq<string> -> InputModel): (t: DecoratedTool)
    ensures args.inputModel.Some? ==> t.inputModel == args.inputModel.value
    ensures args.inputModel.None? ==> t.inputModel == createModel(InputFields(func.hints))
    ensures t.toolName == t.metadata.name == args.name
    ensures t.toolDescription == t.metadata.description == args.description
    ensures t.toolSchema == t.inputModel.schema
    ensures t.requiredEnvVars == t.metadata.requiredEnvVars
    ensures t.requiredEnvVars == (if args.requiredEnvVars.Some? then args.requiredEnvVars.value else [])
    ensures t.metadata.configDefaults == (if args.configDefaults.Some? then args.configDefaults.value else map[])
    ensures t.metadata.rateLimit == args.rateLimit && t.metadata.rateLimitWindow == args.rateLimitWindow
    ensures t.func == func
  {
    var model := if args.inputModel.Some? then args.inputModel.value else createModel(InputFields(func.hints));
    var envVars := if args.requiredEnvVars.Some? then args.requiredEnvVars.value else [];
    var defaults := if args.configDefaults.Some? then args.configDefaults.value else map[];
    var metadata := ToolMetadata(args.name, args.description, envVars, defaults, args.rateLimit, args.rateLimitWindow);
    DecoratedTool(metadata, args.name, args.description, model.schema, envVars, model, func)
  }

  /** With every keyword argument left out, a tool needs no variables, has no defaults and no limit, and a 60-tick window. */
  lemma DefaultsOfMcpTool(name: string, description: string, func: ToolFunction, createModel: seq<string> -> InputModel)
    ensures var t := McpTool(DefaultArgs(name, description), func, createModel);
      && t.requiredEnvVars == [] && t.metadata.configDefaults == map[]
      && t.metadata.rateLimit == None && t.metadata.rateLimitWindow == 60
      && t.inputModel == createModel(InputFields(func.hints))
  {
  }

  /**
   * `{**defaults, **(config or {})}`: a falsy config leaves the defaults; a
   * dict adds its keys, its values winning over the defaults; any other
   * value cannot be unpacked and raises a TypeError.
   */
  function MergeConfig(defaults: map<string, Value>, config: Value): (r: Outcome<map<string, Value>>)
    ensures !Truthy(config) ==> r == Returns(defaults)
    ensures config.Dict? ==> (r.Returns?
      && r.value.Keys == defaults.Keys + config.entries.Keys
      && (forall k :: k in config.entries ==> r.value[k] == config.entries[k])
      && (forall k :: k in defaults && k !in config.entries ==> r.value[k] == defaults[k]))
    ensures Truthy(config) && !config.Dict? ==> r == Raises("'" + TypeName(config) + "' object is not a mapping")
  {
    if !Truthy(config) then Returns(defaults)
    else if config.Dict? then Returns(defaults + config.entries)
    else Raises("'" + TypeName(config) + "' object is not a mapping")
  }

  /** The merge of `{a: 1, b: 2}` with `{b: 3, c: 4}` is `{a: 1, b: 3, c: 4}`. */
  lemma MergeExample()
    ensures MergeConfig(map["a" := Int(1), "b" := Int(2)], Dict(map["b" := Int(3), "c" := Int(4)]))
      == Returns(map["a" := Int(1), "b" := Int(3), "c" := Int(4)])
  {
    var defaults := map["a" := Int(1), "b" := Int(2)];
    var config := map["b" := Int(3), "c" := Int(4)];
    var r := MergeConfig(defaults, Dict(config)).value;
    assert "b" in config && "c" in config && "a" in defaults && "a" !in config;
    assert r["a"] == Int(1) && r["b"] == Int(3) && r["c"] == Int(4);
    assert r.Keys == {"a", "b", "c"};
    assert r == map["a" := Int(1), "b" := Int(3), "c" := Int(4)];
  }

  predicate IsScalar(v: Value) {
    v.Bool? || v.Int? || v.Float? || v.Str?
  }

  /** The result of a tool function as it is serialised: scalars and lists are wrapped in a dict. */
  function Normalise(result: Value): (r: Value)
    ensures IsScalar(result) ==> r == Dict(map["result" := result])
    ensures result.List? ==> r == Dict(map["results" := result])
    ensures !IsScalar(result) && !result.List? ==> r == result
  {
    if IsScalar(result) then Dict(map["result" := result])
    else if result.List? then Dict(map["results" := result])
    else result
  }

  /** A normalised result is neither a scalar nor a list, so normalising again changes nothing. */
  lemma NormaliseIdempotent(result: Value)
    ensures !IsScalar(Normalise(result)) && !Normalise(result).List?
    ensures Normalise(Normalise(result)) == Normalise(result)
  {
  }

  /** `json.dumps` succeeds: the value holds no TextContent object. */
  predicate Serialisable(v: Value) {
    match v
    case Text(_) => false
    case List(items) => forall i :: 0 <= i < |items| ==> Serialisable(items[i])
    case Dict(entries) => forall k :: k in entries ==> Serialisable(entries[k])
    case _ => true
  }

  /**
   * The handler `register_tool` returns, with the merged config
   * `toolConfig`. A call for another tool raises before the `try`; otherwise
   * every failure, of validation, of the function or of serialisation,
   * becomes the error envelope.
   */
  function HandleTool(tool: DecoratedTool, toolConfig: map<string, Value>, name: string, arguments: map<string, Value>)
    : (r: Outcome<Value>)
    ensures r.Raises? <==> name != tool.toolName
    ensures r.Raises? ==> r.message == "Unknown tool: " + name
    ensures r.Returns? ==> (r.value.List? && |r.value.items| == 1 && r.value.items[0].Text?
      && Serialisable(r.value.items[0].payload))
  {
    if name != tool.toolName then Raises("Unknown tool: " + name)
    else match tool.inputModel.validate(arguments)
      case Raises(message) => Returns(ErrorResponse(message))
      case Returns(validated) =>
        match tool.func.call(validated, toolConfig)
        case Raises(message) => Returns(ErrorResponse(message))
        case Returns(result) =>
          var normalised := Normalise(result);
          if Serialisable(normalised) then Returns(List([Text(normalised)]))
          else Returns(ErrorResponse("Object of type TextContent is not JSON serializable"))
  }

  /** `func.register_tool(server, config)`: the handler over the merged config, or the merge's TypeError. */
  function RegisterTool(tool: DecoratedTool, config: Value): (r: Outcome<Handler>)
    ensures MergeConfig(tool.metadata.configDefaults, config).Raises? ==> r.Raises?
    ensures MergeConfig(tool.metadata.configDefaults, config).Returns? ==> r.Returns?
  {
    match MergeConfig(tool.metadata.configDefaults, config)
    case Raises(message) => Raises(message)
    case Returns(merged) =>
      Returns((name: string, arguments: map<string, Value>) => HandleTool(tool, merged, name, arguments))
  }

  /**
   * A registered handler called for its own tool never raises and always
   * returns a list of exactly one TextContent: the normalised result, or an
   * error envelope with the message of whatever failed. Called for another
   * tool it raises `Unknown tool`.
   */
  lemma RegisteredHandlerShape(tool: DecoratedTool, config: Value, name: string, arguments: map<string, Value>)
    requires RegisterTool(tool, config).Returns?
    ensures var merged := MergeConfig(tool.metadata.configDefaults, config).value;
      var out := RegisterTool(tool, config).value(name, arguments);
      && (name != tool.toolName ==> out == Raises("Unknown tool: " + name))
      && (name == tool.toolName ==> out.Returns? && out.value.List? && |out.value.items| == 1 && out.value.items[0].Text?)
      && (name == tool.toolName && tool.inputModel.validate(arguments).Raises? ==>
            out == Returns(ErrorResponse(tool.inputModel.validate(arguments).message)))
      && (name == tool.toolName && tool.inputModel.validate(arguments).Returns? ==>
            var called := tool.func.call(tool.inputModel.validate(arguments).value, merged);
            && (called.Raises? ==> out == Returns(ErrorResponse(called.message)))
            && (called.Returns? && Serialisable(Normalise(called.value)) ==>
                  out == Returns(List([Text(Normalise(called.value))]))))
  {
  }
}
