/**
 BsonUtils::jsonString for null, undefined, booleans, 32 and 64 bit integers, strings,
 objects and arrays.
 */
module BsonText {
  import opened Decimal

  type Int32 = n: int | -0x8000_0000 <= n < 0x8000_0000
  type Int64 = n: int | -0x8000_0000_0000_0000 <= n < 0x8000_0000_0000_0000

  datatype Value =
    | Null
    | Undefined
    | Bool(b: bool)
    | Int(i: Int32)
    | Long(l: Int64)
    | Str(s: string)
    | Object(fields: seq<Field>)
    | Array(fields: seq<Field>)

  /** A BSON element; the elements of an array are named by their indices. */
  datatype Field = Field(name: string, value: Value)

  // String escaping as in section 7 of RFC 8259.

  function HexDigit(d: nat): char
    requires d < 16
  {
    if d < 10 then '0' + d as char else 'a' + (d - 10) as char
  }

  function EscapeChar(c: char): (s: string)
    ensures s != []
  {
    if c == '"' then "\\\""
    else if c == '\\' then "\\\\"
    else if c == 8 as char then "\\b"
    else if c == 12 as char then "\\f"
    else if c == '\n' then "\\n"
    else if c == '\r' then "\\r"
    else if c == '\t' then "\\t"
    else if c < ' ' then "\\u00" + [HexDigit(c as nat / 16), HexDigit(c as nat % 16)]
    else [c]
  }

  /** The escaped characters of s, then k. */
  function ShowEscaped(s: string, k: string): string {
    if s == [] then k else EscapeChar(s[0]) + ShowEscaped(s[1..], k)
  }

  // Layout.

  function Indent(level: int, k: string): string
    decreases level
  {
    if level <= 0 then k else "    " + Indent(level - 1, k)
  }

  function Deeper(pretty: int): int {
    if pretty != 0 then pretty + 1 else 0
  }

  /** What precedes a member of an object. */
  function BeforeMember(pretty: int, k: string): string {
    if pretty != 0 then "\n" + Indent(pretty, k) else " " + k
  }

  /** What precedes an element of an array inside a document. */
  function BeforeItem(pretty: int, k: string): string {
    if pretty != 0 then "\n" + Indent(pretty, k) else k
  }

  function Closing(pretty: int, c: char, k: string): string {
    "\n" + Indent(pretty - 1, [c] + k)
  }

  // The printer, in front of a continuation.

  function ShowValue(v: Value, pretty: int, k: string): string
    decreases v, 1
  {
    match v
    case Null => "null" + k
    case Undefined => "undefined" + k
    case Bool(b) => (if b then "true" else "false") + k
    case Int(i) => ShowInt(i, k)
    case Long(l) => "NumberLong(" + ShowInt(l, ")" + k)
    case Str(s) => "\"" + ShowEscaped(s, "\"" + k)
    case Object(fields) => if fields == [] then "{}" + k else "{" + ShowMembers(fields, pretty, false, k)
    case Array(fields) => if fields == [] then "[]" + k else "[ " + ShowItems(fields, 0, pretty, k)
  }

  /** A field with its name, unless it is printed as an array element. */
  function ShowField(f: Field, pretty: int, isArray: bool, k: string): string
    decreases f, 2
  {
    if isArray then ShowValue(f.value, pretty, k)
    else "\"" + ShowEscaped(f.name, "\" : " + ShowValue(f.value, pretty, k))
  }

  function ShowMembers(fields: seq<Field>, pretty: int, isArray: bool, k: string): string
    requires fields != []
    decreases fields, 0
  {
    BeforeMember(pretty, ShowField(fields[0], Deeper(pretty), isArray,
      if |fields| == 1 then Closing(pretty, if isArray then ']' else '}', k)
      else "," + ShowMembers(fields[1..], pretty, isArray, k)))
  }

  /** The slots of an array from index `count` on: a missing index is `undefined`. */
  function ShowItems(fields: seq<Field>, count: int, pretty: int, k: string): string
    requires fields != []
    decreases fields, Strtol(fields[0].name) - count
  {
    BeforeItem(pretty,
      if Strtol(fields[0].name) > count then "undefined" + (", " + ShowItems(fields, count + 1, pretty, k))
      else ShowValue(fields[0].value, Deeper(pretty),
        if |fields| == 1 then Closing(pretty, ']', k) else ", " + ShowItems(fields[1..], count + 1, pretty, k)))
  }

  /** A whole document. `isArray` holds for results the shell marked as arrays. */
  function ShowDocument(fields: seq<Field>, pretty: int, isArray: bool, k: string): string {
    if fields == [] then (if isArray then "[]" else "{}") + k
    else (if isArray then "[" else "{") + ShowMembers(fields, pretty, isArray, k)
  }
}
