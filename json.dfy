/** JSON values as the agents pass them around (tool arguments, tool
  * results, parsed LLM replies), and their compact rendering as produced by
  * pydantic's `model_dump_json` (no spaces, non-ASCII kept as is). */
module Json {
  import opened Wrappers
  import PyStr

  datatype Json =
    | JNull
    | JBool(b: bool)
    | JInt(i: int)
    | JStr(s: string)
    | JArr(items: seq<Json>)
    | JObj(fields: seq<(string, Json)>)

  function HexDigit(d: nat): char
    requires d < 16
  {
    if d < 10 then ('0' as int + d) as char else ('a' as int + d - 10) as char
  }

  /** JSON string escaping of one character. */
  function EscapeChar(c: char): string
  {
    if c == '"' then "\\\""
    else if c == '\\' then "\\\\"
    else if c == '\n' then "\\n"
    else if c == '\r' then "\\r"
    else if c == '\t' then "\\t"
    else if c as int == 8 then "\\b"
    else if c as int == 12 then "\\f"
    else if c as int < 0x20 then "\\u00" + [HexDigit(c as int / 16), HexDigit(c as int % 16)]
    else [c]
  }

  function Escape(s: string): (r: string)
    ensures |r| >= |s|
  {
    if s == [] then [] else EscapeChar(s[0]) + Escape(s[1..])
  }

  function Quote(s: string): (r: string)
    ensures |r| >= 2 && r[0] == '"' && r[|r| - 1] == '"'
  {
    "\"" + Escape(s) + "\""
  }

  function Render(j: Json): (r: string)
    ensures r != []
    ensures j.JStr? ==> r[0] == '"' && r[|r| - 1] == '"'
    ensures j.JArr? ==> r[0] == '[' && r[|r| - 1] == ']'
    ensures j.JObj? ==> r[0] == '{' && r[|r| - 1] == '}'
  {
    match j
    case JNull => "null"
    case JBool(b) => if b then "true" else "false"
    case JInt(i) => PyStr.IntToStr(i)
    case JStr(s) => Quote(s)
    case JArr(items) => "[" + RenderItems(items) + "]"
    case JObj(fields) => "{" + RenderFields(fields) + "}"
  }

  function RenderItems(items: seq<Json>): string
  {
    if items == [] then []
    else if |items| == 1 then Render(items[0])
    else Render(items[0]) + "," + RenderItems(items[1..])
  }

  function RenderFields(fields: seq<(string, Json)>): string
  {
    if fields == [] then []
    else
      assert fields[0].1 < fields[0];
      var head := Quote(fields[0].0) + ":" + Render(fields[0].1);
      if |fields| == 1 then head else head + "," + RenderFields(fields[1..])
  }

  /** The value of a hexadecimal digit, either case. */
  function HexValue(c: char): (r: Option<nat>)
    ensures r.Some? ==> r.value < 16
  {
    if '0' <= c <= '9' then Some(c as int - '0' as int)
    else if 'a' <= c <= 'f' then Some(c as int - 'a' as int + 10)
    else if 'A' <= c <= 'F' then Some(c as int - 'A' as int + 10)
    else None
  }

  lemma HexValueOfDigit(d: nat)
    requires d < 16
    ensures HexValue(HexDigit(d)) == Some(d)
  {
  }

  /** What a JSON reader makes of the inside of a string literal: `None`
    * at a bare quote, a raw control character or a malformed escape. */
  function Unescape(s: string): (r: Option<string>)
    decreases |s|
    ensures r.Some? ==> |r.value| <= |s|
  {
    if s == [] then Some([])
    else if s[0] == '"' || s[0] as int < 0x20 then None
    else if s[0] != '\\' then Prepend(s[0], Unescape(s[1..]))
    else if |s| < 2 then None
    else
      var e := s[1];
      if e == 'u' then
        if |s| < 6 then None
        else
          var h := [HexValue(s[2]), HexValue(s[3]), HexValue(s[4]), HexValue(s[5])];
          if h[0].None? || h[1].None? || h[2].None? || h[3].None? then None
          else
            var code := ((h[0].value * 16 + h[1].value) * 16 + h[2].value) * 16 + h[3].value;
            if 0xD800 <= code < 0xE000 then None
            else Prepend(code as char, Unescape(s[6..]))
      else
        var c := if e == '"' then Some('"') else if e == '\\' then Some('\\') else if e == '/' then Some('/')
                 else if e == 'n' then Some('\n') else if e == 'r' then Some('\r') else if e == 't' then Some('\t')
                 else if e == 'b' then Some(8 as char) else if e == 'f' then Some(12 as char) else None;
        if c.None? then None else Prepend(c.value, Unescape(s[2..]))
  }

  function Prepend(c: char, r: Option<string>): Option<string>
  {
    if r.Some? then Some([c] + r.value) else None
  }

  /** Every escaped character reads back as itself, whatever follows it. */
  lemma UnescapeEscapeChar(c: char, t: string)
    ensures Unescape(EscapeChar(c) + t) == Prepend(c, Unescape(t))
  {
    var s := EscapeChar(c) + t;
    if c == '"' || c == '\\' || c == '\n' || c == '\r' || c == '\t' || c as int == 8 || c as int == 12 {
      assert s[0] == '\\' && s[2..] == t;
    } else if c as int < 0x20 {
      var n := c as int;
      HexValueOfDigit(0);
      HexValueOfDigit(n / 16);
      HexValueOfDigit(n % 16);
      assert s[..6] == "\\u00" + [HexDigit(n / 16), HexDigit(n % 16)] && s[6..] == t;
    } else {
      assert s[0] == c && s[1..] == t;
    }
  }

  /** Escaping is undone by reading the literal back: a rendered string
    * denotes exactly the string it came from. */
  lemma {:induction false} UnescapeEscape(s: string)
    ensures Unescape(Escape(s)) == Some(s)
  {
    if s != [] {
      UnescapeEscape(s[1..]);
      UnescapeEscapeChar(s[0], Escape(s[1..]));
      assert [s[0]] + s[1..] == s;
    }
  }

  lemma RenderObjectHead(fields: seq<(string, Json)>)
    requires |fields| >= 2
    ensures Render(JObj(fields)) == "{" + Quote(fields[0].0) + ":" + Render(fields[0].1) + "," + RenderFields(fields[1..]) + "}"
  {
  }

  /** A string with no quote, backslash or control character is rendered
    * as it is. */
  lemma {:induction false} EscapePlain(s: string)
    requires forall i :: 0 <= i < |s| ==> s[i] as int >= 0x20 && s[i] != '"' && s[i] != '\\'
    ensures Escape(s) == s
  {
    if s != [] {
      EscapePlain(s[1..]);
      assert [s[0]] + s[1..] == s;
    }
  }

  /** A rendered string literal holds no raw control character, as section 7
    * of RFC 8259 demands. */
  lemma {:induction false} EscapeNoControl(s: string)
    ensures forall i :: 0 <= i < |Escape(s)| ==> Escape(s)[i] as int >= 0x20
  {
    if s != [] {
      EscapeNoControl(s[1..]);
      var e, t := EscapeChar(s[0]), Escape(s[1..]);
      assert forall i :: 0 <= i < |e| ==> e[i] as int >= 0x20;
      assert forall i :: 0 <= i < |e + t| ==> (e + t)[i] == if i < |e| then e[i] else t[i - |e|];
    }
  }

  /** `obj.get(key)` on a JSON object: the value of the first field with
    * that key, if there is one. */
  function Lookup(fields: seq<(string, Json)>, key: string): (r: Option<Json>)
    ensures r.Some? ==> (key, r.value) in fields
    ensures r.None? ==> forall kv :: kv in fields ==> kv.0 != key
  {
    if fields == [] then None
    else if fields[0].0 == key then Some(fields[0].1)
    else Lookup(fields[1..], key)
  }
}
