/** The tool registry every agent tool inherits
  * (backend/app/domain/services/tools/base.py): the `@tool` decorator's
  * schema, the cached schema list, function lookup, keyword filtering and
  * dispatch. */
module ToolsBase {
  import opened Wrappers
  import J = Json
  import opened ToolResults

  /** What invoking a tool method does: return a result or raise. */
  datatype Outcome = Returned(result: ToolResult) | Raised(error: string)

  /** Keyword arguments, in insertion order, keys distinct. */
  type Kwargs = seq<(string, J.Json)>

  /** What `@tool(name, description, parameters, required)` attaches to a
    * method. */
  datatype Decoration = Decoration(functionName: string, description: string, schema: J.Json)

  /** `@tool(...)`: the OpenAI function schema built from the arguments. */
  function Decorate(name: string, description: string, parameters: seq<(string, J.Json)>,
                    required: seq<string>): (d: Decoration)
    ensures d.functionName == name && d.description == description
    ensures SchemaFields(d.schema) == Some((name, description, parameters, required))
  {
    var req := JStrs(required);
    StrListOfJStrs(required);
    Decoration(name, description,
      J.JObj([("type", J.JStr("function")),
              ("function", J.JObj([("name", J.JStr(name)),
                                   ("description", J.JStr(description)),
                                   ("parameters", J.JObj([("type", J.JStr("object")),
                                                          ("properties", J.JObj(parameters)),
                                                          ("required", J.JArr(req))]))]))]))
  }

  function JStrs(ss: seq<string>): seq<J.Json>
  {
    if ss == [] then [] else [J.JStr(ss[0])] + JStrs(ss[1..])
  }

  lemma {:induction false} StrListOfJStrs(ss: seq<string>)
    ensures StrList(JStrs(ss)) == Some(ss)
  {
    if ss != [] {
      StrListOfJStrs(ss[1..]);
      var items := JStrs(ss);
      assert items[0] == J.JStr(ss[0]) && items[1..] == JStrs(ss[1..]);
      assert [ss[0]] + ss[1..] == ss;
    }
  }

  function StrList(items: seq<J.Json>): (r: Option<seq<string>>)
    ensures r.Some? ==> |r.value| == |items|
  {
    if items == [] then Some([])
    else if items[0].JStr? then
      var rest := StrList(items[1..]);
      if rest.Some? then Some([items[0].s] + rest.value) else None
    else None
  }

  /** Reads name, description, properties and required list back out of a
    * schema of the decorator's shape. */
  function SchemaFields(schema: J.Json): Option<(string, string, seq<(string, J.Json)>, seq<string>)>
  {
    if schema.JObj? && |schema.fields| == 2 && schema.fields[0] == ("type", J.JStr("function"))
       && schema.fields[1].0 == "function" && schema.fields[1].1.JObj? then
      var f := schema.fields[1].1.fields;
      if |f| == 3 && f[0].0 == "name" && f[0].1.JStr? && f[1].0 == "description" && f[1].1.JStr?
         && f[2].0 == "parameters" && f[2].1.JObj? then
        var p := f[2].1.fields;
        if |p| == 3 && p[0] == ("type", J.JStr("object")) && p[1].0 == "properties" && p[1].1.JObj?
           && p[2].0 == "required" && p[2].1.JArr? && StrList(p[2].1.items).Some? then
          Some((f[0].1.s, f[1].1.s, p[1].1.fields, StrList(p[2].1.items).value))
        else None
      else None
    else None
  }

  /** One bound method of a tool, as `inspect.getmembers` lists it: its
    * attribute name, the decorator's data if it was decorated, the names of
    * its parameters, and its behaviour on the `k`-th invocation. */
  datatype ToolMethod = ToolMethod(
    attrName: string,
    decoration: Option<Decoration>,
    params: set<string>,
    impl: (Kwargs, nat) -> Outcome)
  {
    predicate Implements(name: string)
    {
      decoration.Some? && decoration.value.functionName == name
    }
  }

  /** The schemas of the decorated methods, in member order. */
  function Schemas(methods: seq<ToolMethod>): (r: seq<J.Json>)
    ensures |r| <= |methods|
    ensures forall s :: s in r <==> exists m :: m in methods && m.decoration.Some? && m.decoration.value.schema == s
  {
    if methods == [] then []
    else
      var rest := Schemas(methods[1..]);
      assert forall m :: m in methods <==> m == methods[0] || m in methods[1..];
      if methods[0].decoration.Some? then [methods[0].decoration.value.schema] + rest else rest
  }

  /** `has_function`. */
  predicate HasFunction(methods: seq<ToolMethod>, name: string)
  {
    exists i :: 0 <= i < |methods| && methods[i].Implements(name)
  }

  /** Index of the first method implementing `name`. */
  function FindMethod(methods: seq<ToolMethod>, name: string): (r: Option<nat>)
    ensures r.None? <==> !HasFunction(methods, name)
    ensures r.Some? ==> r.value < |methods| && methods[r.value].Implements(name)
    ensures r.Some? ==> forall j :: 0 <= j < r.value ==> !methods[j].Implements(name)
  {
    if methods == [] then None
    else if methods[0].Implements(name) then Some(0)
    else
      var r := FindMethod(methods[1..], name);
      if r.Some? then Some(r.value + 1)
      else
        assert forall i :: 1 <= i < |methods| ==> methods[i] == methods[1..][i - 1];
        None
  }

  /** The keyword arguments whose names are parameters, values and order
    * unchanged: what `_filter_parameters` keeps. */
  function Filtered(kwargs: Kwargs, params: set<string>): (r: Kwargs)
    ensures |r| <= |kwargs|
    ensures forall kv :: kv in r <==> kv in kwargs && kv.0 in params
  {
    if kwargs == [] then []
    else
      var rest := Filtered(kwargs[1..], params);
      assert forall kv :: kv in kwargs <==> kv == kwargs[0] || kv in kwargs[1..];
      if kwargs[0].0 in params then [kwargs[0]] + rest else rest
  }

  /** `_filter_parameters`, building the result one argument at a time. */
  method FilterParameters(params: set<string>, kwargs: Kwargs) returns (filtered: Kwargs)
    ensures filtered == Filtered(kwargs, params)
    ensures forall kv :: kv in filtered <==> kv in kwargs && kv.0 in params
  {
    filtered := [];
    var i := |kwargs|;
    while i > 0
      invariant 0 <= i <= |kwargs|
      invariant filtered == Filtered(kwargs[i..], params)
    {
      i := i - 1;
      assert kwargs[i..][1..] == kwargs[i + 1..];
      if kwargs[i].0 in params {
        filtered := [kwargs[i]] + filtered;
      }
    }
    assert kwargs[0..] == kwargs;
  }

  /** What the `k`-th `invoke_function(name, **kwargs)` call does, with the
    * ValueError for an unknown name counted as raising. */
  function Attempt(methods: seq<ToolMethod>, name: string, kwargs: Kwargs, k: nat): Outcome
  {
    var found := FindMethod(methods, name);
    if found.None? then Raised("Tool '" + name + "' not found")
    else methods[found.value].impl(Filtered(kwargs, methods[found.value].params), k)
  }

  /** Dispatch goes to the first method implementing the name, with only
    * the arguments it declares; an unknown name raises. */
  lemma AttemptDispatch(methods: seq<ToolMethod>, name: string, kwargs: Kwargs, k: nat)
    ensures !HasFunction(methods, name) ==> Attempt(methods, name, kwargs, k).Raised?
    ensures HasFunction(methods, name) ==>
      exists i :: (0 <= i < |methods| && methods[i].Implements(name)
                   && (forall j :: 0 <= j < i ==> !methods[j].Implements(name))
                   && Attempt(methods, name, kwargs, k) == methods[i].impl(Filtered(kwargs, methods[i].params), k))
  {
    var found := FindMethod(methods, name);
    if found.Some? {
      var i := found.value;
      assert Attempt(methods, name, kwargs, k) == methods[i].impl(Filtered(kwargs, methods[i].params), k);
    }
  }

  /** A tool: a name and its bound methods in `inspect.getmembers` order. */
  class BaseTool {
    const name: string
    const methods: seq<ToolMethod>
    var toolsCache: Option<seq<J.Json>>

    ghost predicate Valid()
      reads this
    {
      toolsCache.None? || toolsCache == Some(Schemas(methods))
    }

    constructor (name: string, methods: seq<ToolMethod>)
      ensures this.name == name && this.methods == methods
      ensures toolsCache.None? && Valid()
    {
      this.name := name;
      this.methods := methods;
      toolsCache := None;
    }

    /** `get_tools`: computed on the first call, the cached list afterwards. */
    method GetTools() returns (tools: seq<J.Json>)
      requires Valid()
      modifies this`toolsCache
      ensures Valid()
      ensures tools == Schemas(methods)
      ensures toolsCache == Some(tools)
      ensures old(toolsCache).Some? ==> tools == old(toolsCache).value
    {
      if toolsCache.Some? {
        return toolsCache.value;
      }
      tools := [];
      var i := 0;
      while i < |methods|
        invariant 0 <= i <= |methods|
        invariant tools + Schemas(methods[i..]) == Schemas(methods)
      {
        assert methods[i..][1..] == methods[i + 1..];
        if methods[i].decoration.Some? {
          tools := tools + [methods[i].decoration.value.schema];
        }
        i := i + 1;
      }
      assert methods[|methods|..] == [];
      assert tools + [] == tools;
      toolsCache := Some(tools);
    }

    /** `invoke_function` for its `k`-th invocation: the first method
      * implementing `functionName`, called with the filtered arguments;
      * `Err` is the ValueError for an unknown function. */
    method InvokeFunction(functionName: string, kwargs: Kwargs, k: nat) returns (r: Result<Outcome, string>)
      ensures r.Err? <==> !HasFunction(methods, functionName)
      ensures r.Ok? ==> r.value == Attempt(methods, functionName, kwargs, k)
      ensures r.Err? ==> Attempt(methods, functionName, kwargs, k) == Raised(r.error)
    {
      var found := FindMethod(methods, functionName);
      if found.None? {
        return Err("Tool '" + functionName + "' not found");
      }
      var m := methods[found.value];
      var args := FilterParameters(m.params, kwargs);
      return Ok(m.impl(args, k));
    }
  }
}
