/**
 * `available_tools` of `stock_analyzer.tools.definitions`: the one function-tool
 * declaration handed to the assistant service when the assistant is provisioned.
 */
module Definitions {
  import opened Wrappers
  import opened Json

  const ToolName: string := "get_time_series"

  const ToolDescription: string :=
    "Retrieves information for a certain stock symbol, for different time intervals represented by the `interval` parameter"
  const SymbolDescription: string := "The stock symbol from which information is requested"
  const IntervalDescription: string :=
    "The time interval for which information is requested. Accepts the following values: 'intraday', 'daily', 'weekly', 'monthly'"

  /** A member of a JSON object, if `v` is an object holding `key`. */
  function Member(v: Value, key: string): Option<Value> {
    if v.Object? then Get(v.fields, key) else None
  }

  /** The schema of one string parameter. */
  function StringParameter(description: string): (p: Value)
    ensures Member(p, "type") == Some(String("string"))
  {
    var fields := [("type", String("string")), ("description", String(description))];
    GetFirst(fields, 0);
    Object(fields)
  }

  /** The `parameters` schema: an object with two string properties, both required. */
  function ParametersSchema(): (p: Value)
    ensures p.Object? && Keys(p.fields) == ["type", "properties", "required"]
    ensures Member(p, "type") == Some(String("object"))
    ensures Member(p, "required") == Some(Array([String("symbol"), String("interval")]))
  {
    var fields := [
      ("type", String("object")),
      ("properties", Object([
        ("symbol", StringParameter(SymbolDescription)),
        ("interval", StringParameter(IntervalDescription))
      ])),
      ("required", Array([String("symbol"), String("interval")]))
    ];
    GetFirst(fields, 0);
    GetFirst(fields, 2);
    Object(fields)
  }

  /** The `function` part of the declaration: its name, description and parameters. */
  function FunctionSchema(): (f: Value)
    ensures Member(f, "name") == Some(String(ToolName))
    ensures Member(f, "parameters") == Some(ParametersSchema())
  {
    var fields := [
      ("name", String(ToolName)),
      ("description", String(ToolDescription)),
      ("parameters", ParametersSchema())
    ];
    GetFirst(fields, 0);
    GetFirst(fields, 2);
    Object(fields)
  }

  /** The literal list returned by `available_tools()`: exactly one declaration, of
      type "function", whose function is named `get_time_series`. */
  function AvailableTools(): (tools: Value)
    ensures tools.Array? && |tools.items| == 1
    ensures Member(tools.items[0], "type") == Some(String("function"))
    ensures Member(tools.items[0], "function") == Some(FunctionSchema())
  {
    var fields := [("type", String("function")), ("function", FunctionSchema())];
    GetFirst(fields, 0);
    GetFirst(fields, 1);
    Array([Object(fields)])
  }

  /** The properties of the parameters are exactly `symbol` and `interval`, in that
      order, and both are of type string. */
  lemma PropertiesShape()
    ensures Member(ParametersSchema(), "properties").Some?
    ensures var props := Member(ParametersSchema(), "properties").value;
      && props.Object?
      && Keys(props.fields) == ["symbol", "interval"]
      && Member(props, "symbol") == Some(StringParameter(SymbolDescription))
      && Member(props, "interval") == Some(StringParameter(IntervalDescription))
  {
    var fields := ParametersSchema().fields;
    GetFirst(fields, 1);
    var props := fields[1].1;
    GetFirst(props.fields, 0);
    GetFirst(props.fields, 1);
  }
}
