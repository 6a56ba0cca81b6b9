/**
 QVariant and QVariantMap as far as the settings use them.
 */
module Variants {
  import opened Decimal

  datatype Variant =
    | Invalid
    | Text(s: string)
    | Number(n: int)
    | Flag(b: bool)
    | Map(entries: map<string, Variant>)
    | List(items: seq<Variant>)

  /** QVariantMap::value: an invalid variant for a missing key. */
  function At(m: map<string, Variant>, key: string): Variant {
    if key in m then m[key] else Invalid
  }

  function ToText(v: Variant): string {
    match v
    case Text(s) => s
    case Number(n) => Show(n)
    case Flag(b) => if b then "true" else "false"
    case _ => ""
  }

  /** Text counts as a number when it is a plain numeral. */
  function ToNumber(v: Variant): int {
    match v
    case Number(n) => n
    case Flag(b) => if b then 1 else 0
    case Text(s) => if Show(Strtol(s)) == s then Strtol(s) else 0
    case _ => 0
  }

  /** QString::toLower for ASCII. */
  function Lower(s: string): string {
    seq(|s|, i requires 0 <= i < |s| => if 'A' <= s[i] <= 'Z' then s[i] - 'A' + 'a' else s[i])
  }

  function ToFlag(v: Variant): bool {
    match v
    case Flag(b) => b
    case Number(n) => n != 0
    case Text(s) => s != "" && s != "0" && Lower(s) != "false"
    case _ => false
  }

  function ToMap(v: Variant): map<string, Variant> {
    if v.Map? then v.entries else map[]
  }

  function ToList(v: Variant): seq<Variant> {
    if v.List? then v.items else []
  }
}
