/** `ToolResult(success, message, data)`, the value every tool returns. */
module ToolResults {
  import opened Wrappers
  import J = Json

  datatype ToolResult = ToolResult(success: bool, message: Option<string>, data: Option<J.Json>)

  function OptStr(o: Option<string>): J.Json
  {
    if o.Some? then J.JStr(o.value) else J.JNull
  }

  /** `result.model_dump_json()`: the three fields in declaration order. */
  function Dump(r: ToolResult): (d: string)
    ensures |d| >= 2 && d[0] == '{' && d[|d| - 1] == '}'
  {
    J.Render(J.JObj([("success", J.JBool(r.success)), ("message", OptStr(r.message)),
                     ("data", if r.data.Some? then r.data.value else J.JNull)]))
  }

  /** A dump opens with the success flag, so a reader of the tool reply
    * sees whether the call succeeded from its first field. */
  lemma DumpSuccess(r: ToolResult)
    ensures var d := Dump(r);
      |d| >= 17 && d[..11] == "{\"success\":"
      && (r.success ==> d[11..16] == "true,") && (!r.success ==> d[11..17] == "false,")
  {
    var rest := [("message", OptStr(r.message)), ("data", if r.data.Some? then r.data.value else J.JNull)];
    assert [("success", J.JBool(r.success))] + rest
      == [("success", J.JBool(r.success)), ("message", OptStr(r.message)),
          ("data", if r.data.Some? then r.data.value else J.JNull)];
    FlagFirst(r.success, rest);
  }

  /** An object whose first field is `success` opens with that flag. */
  lemma FlagFirst(b: bool, rest: seq<(string, J.Json)>)
    requires rest != []
    ensures var d := J.Render(J.JObj([("success", J.JBool(b))] + rest));
      |d| >= 17 && d[..11] == "{\"success\":"
      && (b ==> d[11..16] == "true,") && (!b ==> d[11..17] == "false,")
  {
    var fields := [("success", J.JBool(b))] + rest;
    assert fields[1..] == rest;
    J.RenderObjectHead(fields);
    QuoteSuccess();
    OpensWith(J.Render(J.JObj(fields)), if b then "true" else "false", J.RenderFields(rest) + "}");
  }

  lemma OpensWith(d: string, flag: string, tail: string)
    requires flag == "true" || flag == "false"
    requires tail != []
    requires d == "{" + "\"success\"" + ":" + flag + "," + tail
    ensures |d| >= 17 && d[..11] == "{\"success\":"
    ensures flag == "true" ==> d[11..16] == "true,"
    ensures flag == "false" ==> d[11..17] == "false,"
  {
  }

  lemma QuoteSuccess()
    ensures J.Quote("success") == "\"success\""
  {
    J.EscapePlain("success");
  }

  /** The placeholder that memory compaction stores in place of a browser
    * tool's output. */
  const Removed: ToolResult := ToolResult(true, None, Some(J.JStr("(removed)")))
}
