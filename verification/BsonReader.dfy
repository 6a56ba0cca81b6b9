/**
 A reader for the printer's language, written from the syntax alone: blanks may stand
 between tokens, objects and arrays nest, NumberLong marks a 64 bit integer, and the
 elements of an array are named 0, 1, 2, ...
 */
module BsonReader {
  import opened Decimal
  import opened BsonText

  datatype Parsed<+T> = Fail | Ok(value: T, rest: string)

  predicate IsBlank(c: char) {
    c == ' ' || c == '\n' || c == '\t' || c == '\r'
  }

  function SkipBlanks(s: string): (r: string)
    ensures |r| <= |s|
    ensures r == [] || !IsBlank(r[0])
  {
    if s != [] && IsBlank(s[0]) then SkipBlanks(s[1..]) else s
  }

  function HexValue(c: char): (r: Parsed<nat>)
    ensures r.Ok? ==> r.value < 16
  {
    if '0' <= c <= '9' then Ok((c - '0') as nat, "")
    else if 'a' <= c <= 'f' then Ok((c - 'a') as nat + 10, "")
    else if 'A' <= c <= 'F' then Ok((c - 'A') as nat + 10, "")
    else Fail
  }

  /** The character a backslash sequence stands for; s starts after the backslash. */
  function ReadEscape(s: string): (r: Parsed<char>)
    ensures r.Ok? ==> |r.rest| < |s|
  {
    if s == [] then Fail
    else if s[0] == '"' || s[0] == '\\' || s[0] == '/' then Ok(s[0], s[1..])
    else if s[0] == 'b' then Ok(8 as char, s[1..])
    else if s[0] == 'f' then Ok(12 as char, s[1..])
    else if s[0] == 'n' then Ok('\n', s[1..])
    else if s[0] == 'r' then Ok('\r', s[1..])
    else if s[0] == 't' then Ok('\t', s[1..])
    else if s[0] == 'u' && |s| >= 5 then
      var a, b, c, d := HexValue(s[1]), HexValue(s[2]), HexValue(s[3]), HexValue(s[4]);
      if a.Ok? && b.Ok? && c.Ok? && d.Ok? && a.value < 13
      then Ok((a.value * 4096 + b.value * 256 + c.value * 16 + d.value) as char, s[5..])
      else Fail
    else Fail
  }

  /** The characters up to the closing quote. */
  function ReadChars(s: string): (r: Parsed<string>)
    ensures r.Ok? ==> |r.rest| < |s|
  {
    if s == [] || s[0] < ' ' then Fail
    else if s[0] == '"' then Ok("", s[1..])
    else
      var c := if s[0] == '\\' then ReadEscape(s[1..]) else Ok(s[0], s[1..]);
      if c.Fail? then Fail
      else
        var r := ReadChars(c.rest);
        if r.Fail? then Fail else Ok([c.value] + r.value, r.rest)
  }

  function ReadInt(s: string): (r: Parsed<int>)
    ensures r.Ok? ==> |r.rest| < |s|
  {
    var negative := s != [] && s[0] == '-';
    var t := if negative then s[1..] else s;
    if !StartsWithDigit(t) then Fail
    else
      var (n, rest) := ReadDigits(t[1..], DigitValue(t[0]));
      Ok(if negative then 0 - n else n, rest)
  }

  predicate StartsWith(s: string, word: string) {
    |word| <= |s| && s[..|word|] == word
  }

  function ReadLong(s: string): (r: Parsed<Value>)
    ensures r.Ok? ==> |r.rest| < |s|
  {
    var n := ReadInt(s);
    if n.Ok? && n.rest != [] && n.rest[0] == ')' && -0x8000_0000_0000_0000 <= n.value < 0x8000_0000_0000_0000
    then Ok(Long(n.value), n.rest[1..])
    else Fail
  }

  function ReadScalar(s: string): (r: Parsed<Value>)
    requires s != []
    ensures r.Ok? ==> |r.rest| < |s|
  {
    if s[0] == '"' then
      var r := ReadChars(s[1..]);
      if r.Fail? then Fail else Ok(Str(r.value), r.rest)
    else if StartsWith(s, "null") then Ok(Null, s[4..])
    else if StartsWith(s, "undefined") then Ok(Undefined, s[9..])
    else if StartsWith(s, "true") then Ok(Bool(true), s[4..])
    else if StartsWith(s, "false") then Ok(Bool(false), s[5..])
    else if StartsWith(s, "NumberLong(") then ReadLong(s[11..])
    else
      var n := ReadInt(s);
      if n.Ok? && -0x8000_0000 <= n.value < 0x8000_0000 then Ok(Int(n.value), n.rest) else Fail
  }

  function ReadValue(text: string): (r: Parsed<Value>)
    ensures r.Ok? ==> |r.rest| < |text|
    decreases |text|, 2
  {
    var s := SkipBlanks(text);
    if s == [] then Fail
    else if s[0] == '{' then
      var t := SkipBlanks(s[1..]);
      if t != [] && t[0] == '}' then Ok(Object([]), t[1..])
      else
        var r := ReadMembers(t);
        if r.Fail? then Fail else Ok(Object(r.value), r.rest)
    else if s[0] == '[' then
      var t := SkipBlanks(s[1..]);
      if t != [] && t[0] == ']' then Ok(Array([]), t[1..])
      else
        var r := ReadItems(t, 0);
        if r.Fail? then Fail else Ok(Array(r.value), r.rest)
    else ReadScalar(s)
  }

  function ReadMember(text: string): (r: Parsed<Field>)
    ensures r.Ok? ==> |r.rest| < |text|
    decreases |text|, 0
  {
    var s := SkipBlanks(text);
    if s == [] || s[0] != '"' then Fail
    else
      var name := ReadChars(s[1..]);
      if name.Fail? then Fail
      else
        var t := SkipBlanks(name.rest);
        if t == [] || t[0] != ':' then Fail
        else
          var v := ReadValue(t[1..]);
          if v.Fail? then Fail else Ok(Field(name.value, v.value), v.rest)
  }

  function ReadMembers(text: string): (r: Parsed<seq<Field>>)
    ensures r.Ok? ==> |r.rest| < |text|
    decreases |text|, 1
  {
    var f := ReadMember(text);
    if f.Fail? then Fail
    else
      var s := SkipBlanks(f.rest);
      if s == [] then Fail
      else if s[0] == '}' then Ok([f.value], s[1..])
      else if s[0] == ',' then
        var more := ReadMembers(s[1..]);
        if more.Fail? then Fail else Ok([f.value] + more.value, more.rest)
      else Fail
  }

  function ReadItems(text: string, index: nat): (r: Parsed<seq<Field>>)
    ensures r.Ok? ==> |r.rest| < |text|
    decreases |text|, 3
  {
    var v := ReadValue(text);
    if v.Fail? then Fail
    else
      var f := Field(Show(index), v.value);
      var s := SkipBlanks(v.rest);
      if s == [] then Fail
      else if s[0] == ']' then Ok([f], s[1..])
      else if s[0] == ',' then
        var more := ReadItems(s[1..], index + 1);
        if more.Fail? then Fail else Ok([f] + more.value, more.rest)
      else Fail
  }
}
