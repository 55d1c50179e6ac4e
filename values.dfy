/*
 * Values exchanged between the tool server, its tools and their
 * configuration: a JSON-like value type, Python truthiness, the error
 * envelope every failure is turned into, and the Option/Outcome wrappers
 * that stand for `None` and for raised exceptions.
 */
module Values {

  datatype Option<+T> = None | Some(value: T)

  /** The result of a Python call that either returns or raises. */
  datatype Outcome<+T> = Returns(value: T) | Raises(message: string)

  /**
   * A JSON-like Python value. `Text(payload)` is an MCP TextContent whose
   * `text` is the JSON serialisation of `payload`; serialisation itself is
   * not modelled, so the payload is kept as a value.
   */
  datatype Value =
    | Null
    | Bool(b: bool)
    | Int(i: int)
    | Float(f: real)
    | Str(s: string)
    | List(items: seq<Value>)
    | Dict(entries: map<string, Value>)
    | Text(payload: Value)

  /**
   * A call handler: given the tool name and the call's arguments, the value
   * it returns or the exception it raises.
   */
  type Handler = (string, map<string, Value>) -> Outcome<Value>

  /** Python's truthiness (`bool(v)`). */
  predicate Truthy(v: Value) {
    match v
    case Null => false
    case Bool(b) => b
    case Int(i) => i != 0
    case Float(f) => f != 0.0
    case Str(s) => s != ""
    case List(items) => items != []
    case Dict(entries) => entries != map[]
    case Text(_) => true
  }

  /** The empty dict `{}`. */
  const EmptyDict: Value := Dict(map[])

  /** The name Python prints for the type of a value, as in `'list' object ...`. */
  function TypeName(v: Value): string {
    match v
    case Null => "NoneType"
    case Bool(_) => "bool"
    case Int(_) => "int"
    case Float(_) => "float"
    case Str(_) => "str"
    case List(_) => "list"
    case Dict(_) => "dict"
    case Text(_) => "TextContent"
  }

  /** `d.get(key, default)` on a dict. */
  function DictGet(d: map<string, Value>, key: string, default: Value): (r: Value)
    ensures key in d ==> r == d[key]
    ensures key !in d ==> r == default
  {
    if key in d then d[key] else default
  }

  /** The dict `{"status": "error", "error": message}`. */
  function ErrorEnvelope(message: string): (r: Value)
    ensures r.Dict? && r.entries.Keys == {"status", "error"}
    ensures r.entries["status"] == Str("error") && r.entries["error"] == Str(message)
  {
    Dict(map["status" := Str("error"), "error" := Str(message)])
  }

  /** A one-element list holding a TextContent whose text is the error envelope. */
  function ErrorResponse(message: string): (r: Value)
    ensures r.List? && |r.items| == 1 && r.items[0] == Text(ErrorEnvelope(message))
  {
    List([Text(ErrorEnvelope(message))])
  }

  lemma ErrorResponseInjective(m1: string, m2: string)
    ensures ErrorResponse(m1) == ErrorResponse(m2) <==> m1 == m2
  {
    if ErrorResponse(m1) == ErrorResponse(m2) {
      assert ErrorEnvelope(m1).entries["error"] == ErrorEnvelope(m2).entries["error"];
    }
  }
}
