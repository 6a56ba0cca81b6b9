/**
 The two jsonString overloads as they run: loops that append to a buffer.  They compute
 the texts that BsonText defines.
 */
module BsonPrinter {
  import opened Decimal
  import opened BsonText
  import opened BsonLayout
  import opened Wrappers

  // What follows a printed piece can be appended afterwards.

  lemma {:induction false} EscapedAppend(s: string, k: string, t: string)
    ensures ShowEscaped(s, k + t) == ShowEscaped(s, k) + t
  {
    if s == [] {
    } else {
      EscapedAppend(s[1..], k, t);
    }
  }

  lemma {:induction false} IndentAppend(level: int, k: string, t: string)
    ensures Indent(level, k + t) == Indent(level, k) + t
    decreases level
  {
    if level <= 0 {
    } else {
      IndentAppend(level - 1, k, t);
    }
  }

  lemma LayoutAppend(pretty: int, c: char, k: string, t: string)
    ensures BeforeMember(pretty, k + t) == BeforeMember(pretty, k) + t
    ensures BeforeItem(pretty, k + t) == BeforeItem(pretty, k) + t
    ensures Closing(pretty, c, k + t) == Closing(pretty, c, k) + t
  {
    IndentAppend(pretty, k, t);
    IndentAppend(pretty - 1, [c] + k, t);
    assert [c] + (k + t) == [c] + k + t;
    assert "\n" + (Indent(pretty, k) + t) == "\n" + Indent(pretty, k) + t;
    assert " " + (k + t) == " " + k + t;
    assert "\n" + (Indent(pretty - 1, [c] + k) + t) == "\n" + Indent(pretty - 1, [c] + k) + t;
  }

  lemma {:induction false} ValueAppend(v: Value, pretty: int, k: string, t: string)
    ensures ShowValue(v, pretty, k + t) == ShowValue(v, pretty, k) + t
    decreases v, 1
  {
    hide ShowMembers, ShowItems, ShowEscaped, ShowInt;
    match v
    case Null => Assoc("null", k, t);
    case Undefined => Assoc("undefined", k, t);
    case Bool(b) => Assoc(if b then "true" else "false", k, t);
    case Int(i) => ShowIntAppend(i, k, t);
    case Long(l) =>
      ShowIntAppend(l, ")" + k, t);
      Assoc(")", k, t);
      Assoc("NumberLong(", ShowInt(l, ")" + k), t);
    case Str(s) =>
      EscapedAppend(s, "\"" + k, t);
      Assoc("\"", k, t);
      Assoc("\"", ShowEscaped(s, "\"" + k), t);
    case Object(fields) =>
      if fields == [] {
        Assoc("{}", k, t);
      } else {
        MembersAppend(fields, pretty, false, k, t);
        Assoc("{", ShowMembers(fields, pretty, false, k), t);
      }
    case Array(fields) =>
      if fields == [] {
        Assoc("[]", k, t);
      } else {
        ItemsAppend(fields, 0, pretty, k, t);
        Assoc("[ ", ShowItems(fields, 0, pretty, k), t);
      }
  }

  lemma {:induction false} FieldAppend(f: Field, pretty: int, isArray: bool, k: string, t: string)
    ensures ShowField(f, pretty, isArray, k + t) == ShowField(f, pretty, isArray, k) + t
    decreases f, 2
  {
    ValueAppend(f.value, pretty, k, t);
    EscapedAppend(f.name, "\" : " + ShowValue(f.value, pretty, k), t);
    assert "\" : " + (ShowValue(f.value, pretty, k) + t) == "\" : " + ShowValue(f.value, pretty, k) + t;
  }

  lemma {:induction false} MembersAppend(fields: seq<Field>, pretty: int, isArray: bool, k: string, t: string)
    requires fields != []
    ensures ShowMembers(fields, pretty, isArray, k + t) == ShowMembers(fields, pretty, isArray, k) + t
    decreases fields, 0
  {
    hide ShowField, BeforeMember, Closing;
    var c := if isArray then ']' else '}';
    var after := if |fields| == 1 then Closing(pretty, c, k) else "," + ShowMembers(fields[1..], pretty, isArray, k);
    LayoutAppend(pretty, c, k, t);
    if |fields| > 1 {
      MembersAppend(fields[1..], pretty, isArray, k, t);
      assert "," + (ShowMembers(fields[1..], pretty, isArray, k) + t) == after + t;
    }
    FieldAppend(fields[0], Deeper(pretty), isArray, after, t);
    LayoutAppend(pretty, c, ShowField(fields[0], Deeper(pretty), isArray, after), t);
  }

  lemma {:induction false} ItemsAppend(fields: seq<Field>, count: int, pretty: int, k: string, t: string)
    requires fields != []
    ensures ShowItems(fields, count, pretty, k + t) == ShowItems(fields, count, pretty, k) + t
    decreases fields, Strtol(fields[0].name) - count
  {
    hide Strtol, BeforeItem, Closing;
    if Strtol(fields[0].name) > count {
      ItemsAppend(fields, count + 1, pretty, k, t);
      var more := ShowItems(fields, count + 1, pretty, k);
      assert "undefined" + (", " + (more + t)) == "undefined" + (", " + more) + t;
      LayoutAppend(pretty, ']', "undefined" + (", " + more), t);
    } else {
      var after := if |fields| == 1 then Closing(pretty, ']', k)
          else ", " + ShowItems(fields[1..], count + 1, pretty, k);
      LayoutAppend(pretty, ']', k, t);
      if |fields| > 1 {
        ItemsAppend(fields[1..], count + 1, pretty, k, t);
        assert ", " + (ShowItems(fields[1..], count + 1, pretty, k) + t) == after + t;
      }
      ValueAppend(fields[0].value, Deeper(pretty), after, t);
      LayoutAppend(pretty, ']', ShowValue(fields[0].value, Deeper(pretty), after), t);
    }
  }

  // The loops.

  method AddIndent(s: string, level: int) returns (s': string)
    ensures s' == s + Indent(level, "")
  {
    s' := s;
    var x := 0;
    while x < level
      invariant 0 <= x && (level >= 0 ==> x <= level)
      invariant s' + Indent(level - x, "") == s + Indent(level, "")
    {
      Assoc(s', "    ", Indent(level - x - 1, ""));
      s' := s' + "    ";
      x := x + 1;
    }
  }

  method AddClosing(s: string, pretty: int, c: char) returns (s': string)
    ensures s' == s + Closing(pretty, c, "")
  {
    s' := AddIndent(s + "\n", pretty - 1);
    IndentAppend(pretty - 1, "", [c]);
    assert "" + [c] == [c] && [c] + "" == [c];
    assert s + "\n" + Indent(pretty - 1, "") + [c] == s + ("\n" + (Indent(pretty - 1, "") + [c]));
    s' := s' + [c];
  }

  lemma BeforeText(s: string, pretty: int)
    ensures pretty != 0 ==> s + "\n" + Indent(pretty, "") == s + BeforeMember(pretty, "") == s + BeforeItem(pretty, "")
    ensures pretty == 0 ==> s + " " == s + BeforeMember(pretty, "") && s == s + BeforeItem(pretty, "")
  {
  }

  /** The text of a list of members, piece by piece. */
  lemma MembersText(fields: seq<Field>, pretty: int, isArray: bool)
    requires fields != []
    ensures ShowMembers(fields, pretty, isArray, "") ==
              BeforeMember(pretty, "") + ShowField(fields[0], Deeper(pretty), isArray, "")
              + if |fields| == 1 then Closing(pretty, if isArray then ']' else '}', "")
                else "," + ShowMembers(fields[1..], pretty, isArray, "")
  {
    hide BeforeMember, Closing, ShowField;
    var after := if |fields| == 1 then Closing(pretty, if isArray then ']' else '}', "")
                 else "," + ShowMembers(fields[1..], pretty, isArray, "");
    var field := ShowField(fields[0], Deeper(pretty), isArray, "");
    FieldAppend(fields[0], Deeper(pretty), isArray, "", after);
    assert "" + after == after;
    LayoutAppend(pretty, ']', "", field + after);
    assert "" + (field + after) == field + after;
    Assoc(BeforeMember(pretty, ""), field, after);
  }

  lemma ItemsText(fields: seq<Field>, count: int, pretty: int)
    requires fields != []
    ensures
      var gap := Strtol(fields[0].name) > count;
      var rest := if gap then fields else fields[1..];
      ShowItems(fields, count, pretty, "") ==
        BeforeItem(pretty, "")
        + (if gap then "undefined" else ShowField(fields[0], Deeper(pretty), true, ""))
        + if rest == [] then Closing(pretty, ']', "") else ", " + ShowItems(rest, count + 1, pretty, "")
  {
    hide BeforeItem, Closing, Strtol;
    var gap := Strtol(fields[0].name) > count;
    var rest := if gap then fields else fields[1..];
    var after := if rest == [] then Closing(pretty, ']', "") else ", " + ShowItems(rest, count + 1, pretty, "");
    var v := if gap then Undefined else fields[0].value;
    var item := ShowValue(v, Deeper(pretty), "");
    ValueAppend(v, Deeper(pretty), "", after);
    assert "" + after == after;
    assert ShowItems(fields, count, pretty, "") == BeforeItem(pretty, item + after);
    LayoutAppend(pretty, ']', "", item + after);
    assert "" + (item + after) == item + after;
    Assoc(BeforeItem(pretty, ""), item, after);
  }

  /** jsonString(const BSONObj &, ...) */
  method JsonObject(fields: seq<Field>, pretty: int, isArray: bool) returns (s: string)
    ensures s == ShowDocument(fields, pretty, isArray, "")
    ensures Laid(s, [], isArray, pretty)
    decreases fields, 3
  {
    hide ShowMembers, Closing, ShowField, Indent, Laid;
    DocumentLaid(fields, pretty, isArray);
    if fields == [] {
      return if isArray then "[]" else "{}";
    }
    s := if isArray then "[" else "{";
    var i := 0;
    ghost var doc := ShowDocument(fields, pretty, isArray, "");
    assert fields[0..] == fields;
    while true
      invariant 0 <= i < |fields|
      invariant s + ShowMembers(fields[i..], pretty, isArray, "") == doc
      decreases |fields| - i
    {
      ghost var s0, rest := s, fields[i..];
      MembersText(rest, pretty, isArray);
      BeforeText(s0, pretty);
      if pretty != 0 {
        s := AddIndent(s + "\n", pretty);
      } else {
        s := s + " ";
      }
      var e := JsonElement(fields[i], true, Deeper(pretty), isArray);
      s := s + e;
      i := i + 1;
      ghost var before, c := BeforeMember(pretty, ""), if isArray then ']' else '}';
      if i == |fields| {
        Regroup(s0, before, e, Closing(pretty, c, ""));
        s := AddClosing(s, pretty, if isArray then ']' else '}');
        break;
      }
      assert rest[1..] == fields[i..];
      ghost var more := ShowMembers(fields[i..], pretty, isArray, "");
      Regroup(s0, before, e, "," + more);
      Assoc(s, ",", more);
      s := s + ",";
    }
  }

  /** jsonString(const BSONElement &, ...) */
  method JsonElement(elem: Field, includeFieldNames: bool, pretty: int, isArray: bool) returns (s: string)
    ensures s == ShowField(elem, pretty, !includeFieldNames || isArray, "")
    ensures Laid(s, [], false, pretty)
    decreases elem, 4
  {
    hide ShowMembers, ShowItems, ShowEscaped, ShowInt, Laid;
    FieldLaid(elem, pretty, !includeFieldNames || isArray);
    s := "";
    if includeFieldNames && !isArray {
      EscapedAppend(elem.name, "", "\" : ");
      assert "" + "\" : " == "\" : ";
      Assoc("\"", ShowEscaped(elem.name, ""), "\" : ");
      s := "\"" + ShowEscaped(elem.name, "") + "\" : ";
    }
    FieldText(elem, pretty, !includeFieldNames || isArray);
    var text;
    match elem.value {
      case Null => text := "null";
      case Undefined => text := "undefined";
      case Bool(b) => text := if b then "true" else "false";
      case Int(i) => text := Show(i);
      case Long(l) =>
        ShowIntAppend(l, "", ")");
        assert "" + ")" == ")" && ")" + "" == ")";
        Assoc("NumberLong(", Show(l), ")");
        text := "NumberLong(" + Show(l) + ")";
      case Str(str) =>
        EscapedAppend(str, "", "\"");
        assert "" + "\"" == "\"" && "\"" + "" == "\"";
        Assoc("\"", ShowEscaped(str, ""), "\"");
        text := "\"" + ShowEscaped(str, "") + "\"";
      case Object(fields) => text := JsonObject(fields, pretty, false);
      case Array(fields) =>
        if fields == [] {
          text := "[]";
        } else {
          text := JsonItems(fields, pretty);
          text := "[ " + text;
        }
    }
    assert text + "" == text && "" + text == text;
    assert text == ShowValue(elem.value, pretty, "");
    s := s + text;
  }

  lemma FieldText(f: Field, pretty: int, isArray: bool)
    ensures
      var v := ShowValue(f.value, pretty, "");
      ShowField(f, pretty, isArray, "") == if isArray then v else "\"" + ShowEscaped(f.name, "\" : ") + v
  {
    hide ShowValue;
    var v := ShowValue(f.value, pretty, "");
    EscapedAppend(f.name, "\" : ", v);
    Assoc("\"", ShowEscaped(f.name, "\" : "), v);
  }

  /** The loop over an array inside a document, with its running index. */
  method JsonItems(fields: seq<Field>, pretty: int) returns (s: string)
    requires fields != []
    ensures s == ShowItems(fields, 0, pretty, "")
    ensures Laid("[ " + s, [], false, pretty)
    decreases fields, 2
  {
    hide ShowItems, Closing, ShowField, Indent, Strtol, Laid;
    ValueLaid(Array(fields), pretty);
    s := "";
    var i, count := 0, 0;
    ghost var text := ShowItems(fields, 0, pretty, "");
    assert fields[0..] == fields && "" + text == text;
    while true
      invariant 0 <= i < |fields| && 0 <= count
      invariant s + ShowItems(fields[i..], count, pretty, "") == text
      decreases |fields| - i, Strtol(fields[i].name) - count
    {
      ghost var s0, rest := s, fields[i..];
      ItemsText(rest, count, pretty);
      BeforeText(s0, pretty);
      if pretty != 0 {
        s := AddIndent(s + "\n", pretty);
      }
      ghost var before := BeforeItem(pretty, "");
      var e := "undefined";
      if Strtol(fields[i].name) <= count {
        e := JsonElement(fields[i], false, Deeper(pretty), true);
        i := i + 1;
        assert rest[1..] == fields[i..];
      }
      s := s + e;
      count := count + 1;
      if i == |fields| {
        Regroup(s0, before, e, Closing(pretty, ']', ""));
        s := AddClosing(s, pretty, ']');
        break;
      }
      ghost var more := ShowItems(fields[i..], count, pretty, "");
      Regroup(s0, before, e, ", " + more);
      Assoc(s, ", ", more);
      s := s + ", ";
    }
  }
}
