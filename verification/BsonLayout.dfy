/**
 The layout of printed text, as a law of the text alone: one scan that knows strings and
 brackets says where line breaks stand and how many blanks follow them.
 */
module BsonLayout {
  import opened Decimal
  import opened BsonText
  import opened Wrappers

  /** An open bracket: of an object, of an array inside a document, or of a document that is
      shown as an array. */
  datatype Box = Obj | Arr | Doc

  /** How far the members inside `depth` brackets are moved in, when those inside one are moved
      in by `pretty`; 0 means that members stay on one line. */
  function Level(pretty: int, depth: nat): int {
    if pretty > 0 || pretty + depth - 1 < 0 then pretty + depth - 1 else 0
  }

  function Spaces(n: nat): string {
    seq(n, _ => ' ')
  }

  /** Between an opening bracket or a comma and the member that follows. */
  function Margin(box: Box, level: int): string {
    if level == 0 then " "
    else (if box.Arr? then " " else "") + "\n" + Spaces(if level > 0 then 4 * level else 0)
  }

  /** The end of a box, on a line of its own. */
  function Foot(box: Box, level: int): string {
    "\n" + Spaces(if level > 1 then 4 * (level - 1) else 0) + [if box.Obj? then '}' else ']']
  }

  /** The margin, and not a blank more. */
  predicate Begins(s: string, box: Box, level: int) {
    var margin := Margin(box, level);
    margin <= s && |margin| < |s| && s[|margin|] != ' ' && s[|margin|] != '\n'
  }

  /** What follows the closing quote of a string. */
  function AfterString(s: string): (r: string)
    ensures |r| <= |s|
  {
    if s == [] then []
    else if s[0] == '"' then s[1..]
    else if s[0] == '\\' && |s| > 1 then AfterString(s[2..])
    else AfterString(s[1..])
  }

  function Opens(c: char, marked: bool, open: seq<Box>): Box {
    if c == '{' then Obj else if marked && open == [] then Doc else Arr
  }

  /** From here on, inside the brackets `open`, every bracket and comma has its margin, every
      bracket is closed on a line of its own, and no line is broken elsewhere outside a
      string. `marked` says that the outermost array is a document. */
  predicate Laid(s: string, open: seq<Box>, marked: bool, pretty: int)
    decreases |s|
  {
    if s == [] then open == []
    else if s[0] == '"' then Laid(AfterString(s[1..]), open, marked, pretty)
    else if "{}" <= s || "[]" <= s then Laid(s[2..], open, marked, pretty)
    else if s[0] == '{' || s[0] == '[' then
      var box := Opens(s[0], marked, open);
      var level := Level(pretty, |open| + 1);
      Begins(s[1..], box, level) && Laid(s[1..][|Margin(box, level)|..], open + [box], marked, pretty)
    else if s[0] == ',' then
      && open != []
      && var box, level := open[|open| - 1], Level(pretty, |open|);
         Begins(s[1..], box, level) && Laid(s[1..][|Margin(box, level)|..], open, marked, pretty)
    else if s[0] == '\n' then
      && open != []
      && var foot := Foot(open[|open| - 1], Level(pretty, |open|));
         foot <= s && Laid(s[|foot|..], open[..|open| - 1], marked, pretty)
    else s[0] != '}' && s[0] != ']' && Laid(s[1..], open, marked, pretty)
  }

  // The pieces of a text.

  predicate Plain(c: char) {
    c !in "\"{}[],\n"
  }

  lemma LaidPlain(c: char, k: string, open: seq<Box>, marked: bool, pretty: int)
    requires Plain(c)
    ensures Laid([c] + k, open, marked, pretty) == Laid(k, open, marked, pretty)
  {
    assert ([c] + k)[1..] == k;
  }

  lemma {:induction false} LaidWord(w: string, k: string, open: seq<Box>, marked: bool, pretty: int)
    requires forall i :: 0 <= i < |w| ==> Plain(w[i])
    ensures Laid(w + k, open, marked, pretty) == Laid(k, open, marked, pretty)
  {
    if w == [] {
      assert w + k == k;
    } else {
      hide Laid;
      assert w + k == [w[0]] + (w[1..] + k);
      LaidPlain(w[0], w[1..] + k, open, marked, pretty);
      LaidWord(w[1..], k, open, marked, pretty);
    }
  }

  lemma {:induction false} LaidNat(n: nat, k: string, open: seq<Box>, marked: bool, pretty: int)
    ensures Laid(ShowNat(n, k), open, marked, pretty) == Laid(k, open, marked, pretty)
  {
    hide Laid;
    if n < 10 {
      LaidPlain(DigitChar(n), k, open, marked, pretty);
    } else {
      LaidPlain(DigitChar(n % 10), k, open, marked, pretty);
      LaidNat(n / 10, [DigitChar(n % 10)] + k, open, marked, pretty);
    }
  }

  lemma LaidInt(n: int, k: string, open: seq<Box>, marked: bool, pretty: int)
    ensures Laid(ShowInt(n, k), open, marked, pretty) == Laid(k, open, marked, pretty)
  {
    hide Laid;
    if n < 0 {
      LaidNat(-n, k, open, marked, pretty);
      LaidPlain('-', ShowNat(-n, k), open, marked, pretty);
    } else {
      LaidNat(n, k, open, marked, pretty);
    }
  }

  predicate InString(c: char) {
    c != '"' && c != '\\'
  }

  lemma AfterChar(c: char, k: string)
    ensures AfterString(EscapeChar(c) + k) == AfterString(k)
  {
    var e := EscapeChar(c);
    if |e| == 1 {
      assert (e + k)[1..] == k;
    } else if |e| == 2 {
      assert (e + k)[2..] == k;
    } else {
      assert e[0] == '\\' && e[1] == 'u' && e[2] == '0' && e[3] == '0' && |e| == 6;
      assert (e + k)[2..] == [e[2], e[3], e[4], e[5]] + k;
      AfterFour(e[2], e[3], e[4], e[5], k);
    }
  }

  lemma AfterFour(a: char, b: char, c: char, d: char, k: string)
    requires InString(a) && InString(b) && InString(c) && InString(d)
    ensures AfterString([a, b, c, d] + k) == AfterString(k)
  {
    hide AfterString;
    assert [a, b, c, d] + k == [a] + ([b] + ([c] + ([d] + k)));
    AfterOne(d, k);
    AfterOne(c, [d] + k);
    AfterOne(b, [c] + ([d] + k));
    AfterOne(a, [b] + ([c] + ([d] + k)));
  }

  lemma AfterOne(c: char, k: string)
    requires InString(c)
    ensures AfterString([c] + k) == AfterString(k)
  {
    assert ([c] + k)[1..] == k;
  }

  lemma {:induction false} AfterEscaped(s: string, k: string)
    ensures AfterString(ShowEscaped(s, "\"" + k)) == k
  {
    if s == [] {
      assert ("\"" + k)[1..] == k;
    } else {
      AfterChar(s[0], ShowEscaped(s[1..], "\"" + k));
      AfterEscaped(s[1..], k);
    }
  }

  lemma LaidString(s: string, k: string, open: seq<Box>, marked: bool, pretty: int)
    ensures Laid("\"" + ShowEscaped(s, "\"" + k), open, marked, pretty) == Laid(k, open, marked, pretty)
  {
    var text := ShowEscaped(s, "\"" + k);
    assert ("\"" + text)[1..] == text;
    AfterEscaped(s, k);
  }

  lemma {:induction false} IndentIs(level: int, k: string)
    ensures Indent(level, k) == Spaces(if level > 0 then 4 * level else 0) + k
    decreases level
  {
    if level <= 0 {
    } else {
      IndentIs(level - 1, k);
      assert Spaces(4 * level) == "    " + Spaces(4 * (level - 1));
      Assoc("    ", Spaces(4 * (level - 1)), k);
    }
  }

  lemma ClosingIs(level: int, box: Box, k: string)
    ensures Closing(level, if box.Obj? then '}' else ']', k) == Foot(box, level) + k
  {
    var c := if box.Obj? then '}' else ']';
    IndentIs(level - 1, [c] + k);
    var spaces := Spaces(if level > 1 then 4 * (level - 1) else 0);
    assert "\n" + (spaces + ([c] + k)) == "\n" + spaces + [c] + k;
  }

  lemma LaidClosing(k: string, open: seq<Box>, box: Box, marked: bool, pretty: int)
    requires Laid(k, open, marked, pretty)
    ensures
      var level := Level(pretty, |open| + 1);
      Laid(Closing(level, if box.Obj? then '}' else ']', k), open + [box], marked, pretty)
  {
    var level := Level(pretty, |open| + 1);
    var foot := Foot(box, level);
    ClosingIs(level, box, k);
    assert (foot + k)[|foot|..] == k && (open + [box])[..|open|] == open;
    assert (foot + k)[0] == '\n';
  }

  /** A member may follow a bracket or a comma. */
  predicate Starts(s: string) {
    s != [] && s[0] != ' ' && s[0] != '\n'
  }

  lemma MarginIs(box: Box, level: int, k: string)
    ensures (if box.Arr? then " " + BeforeItem(level, k) else BeforeMember(level, k)) == Margin(box, level) + k
    ensures Starts(k) ==> Begins(Margin(box, level) + k, box, level)
    ensures (Margin(box, level) + k)[|Margin(box, level)|..] == k
  {
    IndentIs(level, k);
    var spaces := Spaces(if level > 0 then 4 * level else 0);
    assert " " + ("\n" + (spaces + k)) == " " + "\n" + spaces + k;
    assert "\n" + (spaces + k) == "" + "\n" + spaces + k;
  }

  lemma LaidOpen(c: char, k: string, open: seq<Box>, marked: bool, pretty: int)
    requires c == '{' || c == '['
    requires Starts(k) && Laid(k, open + [Opens(c, marked, open)], marked, pretty)
    ensures Laid([c] + (Margin(Opens(c, marked, open), Level(pretty, |open| + 1)) + k), open, marked, pretty)
  {
    hide Laid, Begins, Margin;
    var box, level := Opens(c, marked, open), Level(pretty, |open| + 1);
    MarginIs(box, level, k);
    MarginStarts(box, level, k);
    OpenUnfold(c, Margin(box, level) + k, open, marked, pretty);
  }

  lemma MarginStarts(box: Box, level: int, k: string)
    ensures
      var inner := Margin(box, level) + k;
      |Margin(box, level)| <= |inner| && inner != [] && (inner[0] == ' ' || inner[0] == '\n')
  {
  }

  lemma OpenUnfold(c: char, inner: string, open: seq<Box>, marked: bool, pretty: int)
    requires (c == '{' || c == '[') && inner != [] && (inner[0] == ' ' || inner[0] == '\n')
    ensures
      var box, level := Opens(c, marked, open), Level(pretty, |open| + 1);
      Begins(inner, box, level) && Laid(inner[|Margin(box, level)|..], open + [box], marked, pretty) ==>
        Laid([c] + inner, open, marked, pretty)
  {
    hide Margin, Level;
    assert ([c] + inner)[1..] == inner && ([c] + inner)[1] == inner[0];
  }

  lemma LaidComma(k: string, open: seq<Box>, marked: bool, pretty: int)
    requires open != [] && Starts(k) && Laid(k, open, marked, pretty)
    ensures Laid("," + (Margin(open[|open| - 1], Level(pretty, |open|)) + k), open, marked, pretty)
  {
    var box, level := open[|open| - 1], Level(pretty, |open|);
    var inner := Margin(box, level) + k;
    MarginIs(box, level, k);
    assert ("," + inner)[1..] == inner;
  }

  lemma LaidEmpty(w: string, k: string, open: seq<Box>, marked: bool, pretty: int)
    requires w == "{}" || w == "[]"
    ensures Laid(w + k, open, marked, pretty) == Laid(k, open, marked, pretty)
  {
    assert (w + k)[2..] == k;
  }

  lemma ValueStarts(v: Value, level: int, k: string)
    ensures Starts(ShowValue(v, level, k))
  {
    hide ShowMembers, ShowItems, ShowEscaped;
  }

  lemma UndefinedText(level: int, k: string)
    ensures ShowValue(Undefined, level, k) == "undefined" + k
  {
  }

  lemma LevelDeeper(pretty: int, depth: nat)
    requires depth > 0
    ensures Deeper(Level(pretty, depth)) == Level(pretty, depth + 1)
  {
  }

  // The printer keeps to the law.

  lemma {:induction false} LaidValue(v: Value, k: string, open: seq<Box>, marked: bool, pretty: int)
    requires Laid(k, open, marked, pretty) && (marked ==> open != [])
    ensures Laid(ShowValue(v, Level(pretty, |open| + 1), k), open, marked, pretty)
    decreases v, 1
  {
    hide Laid, ShowMembers, ShowItems, ShowEscaped, ShowInt;
    var level := Level(pretty, |open| + 1);
    match v
    case Null => LaidWord("null", k, open, marked, pretty);
    case Undefined => LaidWord("undefined", k, open, marked, pretty);
    case Bool(b) => LaidWord(if b then "true" else "false", k, open, marked, pretty);
    case Int(i) => LaidInt(i, k, open, marked, pretty);
    case Long(l) =>
      LaidWord(")", k, open, marked, pretty);
      LaidInt(l, ")" + k, open, marked, pretty);
      LaidWord("NumberLong(", ShowInt(l, ")" + k), open, marked, pretty);
    case Str(s) => LaidString(s, k, open, marked, pretty);
    case Object(fields) =>
      if fields == [] {
        LaidEmpty("{}", k, open, marked, pretty);
      } else {
        var body := LaidMembers(fields, false, k, open, Obj, marked, pretty);
        LaidOpen('{', body, open, marked, pretty);
      }
    case Array(fields) =>
      if fields == [] {
        LaidEmpty("[]", k, open, marked, pretty);
      } else {
        var body := LaidItems(fields, 0, k, open, marked, pretty);
        LaidOpen('[', body, open, marked, pretty);
        assert "[ " + ShowItems(fields, 0, level, k) == "[" + (" " + ShowItems(fields, 0, level, k));
      }
  }

  /** The members of a box are a margin and a text that keeps to the law inside the box. */
  lemma {:induction false} LaidMembers(fields: seq<Field>, isArray: bool, k: string, open: seq<Box>, box: Box,
                                       marked: bool, pretty: int)
    returns (body: string)
    requires fields != [] && Laid(k, open, marked, pretty) && box == if isArray then Doc else Obj
    ensures
      var level := Level(pretty, |open| + 1);
      && ShowMembers(fields, level, isArray, k) == Margin(box, level) + body
      && Starts(body) && Laid(body, open + [box], marked, pretty)
    decreases fields, 0
  {
    hide Laid, ShowField, Margin, Closing, BeforeMember;
    var level := Level(pretty, |open| + 1);
    var rest;
    if |fields| == 1 {
      rest := Closing(level, if isArray then ']' else '}', k);
      LaidClosing(k, open, box, marked, pretty);
    } else {
      var more := LaidMembers(fields[1..], isArray, k, open, box, marked, pretty);
      rest := "," + ShowMembers(fields[1..], level, isArray, k);
      LaidComma(more, open + [box], marked, pretty);
    }
    LevelDeeper(pretty, |open| + 1);
    body := ShowField(fields[0], Deeper(level), isArray, rest);
    LaidField(fields[0], isArray, rest, open + [box], marked, pretty);
    MarginIs(box, level, body);
  }

  lemma {:induction false} LaidField(f: Field, isArray: bool, k: string, open: seq<Box>, marked: bool, pretty: int)
    requires Laid(k, open, marked, pretty) && (marked ==> open != [])
    ensures
      var text := ShowField(f, Level(pretty, |open| + 1), isArray, k);
      Starts(text) && Laid(text, open, marked, pretty)
    decreases f, 2
  {
    hide Laid, ShowValue, ShowEscaped;
    var level := Level(pretty, |open| + 1);
    var text := ShowValue(f.value, level, k);
    LaidValue(f.value, k, open, marked, pretty);
    ValueStarts(f.value, level, k);
    if !isArray {
      LaidWord(" : ", text, open, marked, pretty);
      LaidString(f.name, " : " + text, open, marked, pretty);
      assert "\" : " + text == "\"" + (" : " + text);
    }
  }

  /** The items that are left after the first slot. */
  function Left(fields: seq<Field>, count: int): seq<Field>
    requires fields != []
  {
    if Strtol(fields[0].name) > count then fields else fields[1..]
  }

  /** What follows an item: the end of the array, or a comma and more. */
  function Rest(left: seq<Field>, count: int, level: int, k: string): string {
    if left == [] then Closing(level, ']', k) else ", " + ShowItems(left, count, level, k)
  }

  lemma ItemsUnfold(fields: seq<Field>, count: int, level: int, k: string)
    requires fields != []
    ensures
      var left := Left(fields, count);
      var v := if Strtol(fields[0].name) > count then Undefined else fields[0].value;
      var rest := Rest(left, count + 1, level, k);
      ShowItems(fields, count, level, k) == BeforeItem(level, ShowValue(v, Deeper(level), rest))
  {
    hide Closing, BeforeItem, Strtol;
  }

  lemma {:induction false} LaidItems(fields: seq<Field>, count: int, k: string, open: seq<Box>, marked: bool,
                                     pretty: int)
    returns (body: string)
    requires fields != [] && Laid(k, open, marked, pretty)
    ensures
      var level := Level(pretty, |open| + 1);
      && " " + ShowItems(fields, count, level, k) == Margin(Arr, level) + body
      && Starts(body) && Laid(body, open + [Arr], marked, pretty)
    decreases fields, Strtol(fields[0].name) - count, 0
  {
    hide Laid, ShowValue, ShowItems, Margin, Closing, BeforeItem, Strtol, Level, Deeper, Starts;
    var level := Level(pretty, |open| + 1);
    var gap := Strtol(fields[0].name) > count;
    ItemsUnfold(fields, count, level, k);
    LaidRest(Left(fields, count), count + 1, k, open, marked, pretty);
    var rest := Rest(Left(fields, count), count + 1, level, k);
    LevelDeeper(pretty, |open| + 1);
    body := ShowValue(if gap then Undefined else fields[0].value, Deeper(level), rest);
    if gap {
      LaidWord("undefined", rest, open + [Arr], marked, pretty);
      UndefinedText(Deeper(level), rest);
    } else {
      LaidValue(fields[0].value, rest, open + [Arr], marked, pretty);
    }
    ValueStarts(if gap then Undefined else fields[0].value, Deeper(level), rest);
    MarginIs(Arr, level, body);
  }

  lemma {:induction false} LaidRest(left: seq<Field>, count: int, k: string, open: seq<Box>, marked: bool, pretty: int)
    requires Laid(k, open, marked, pretty)
    ensures Laid(Rest(left, count, Level(pretty, |open| + 1), k), open + [Arr], marked, pretty)
    decreases left, if left == [] then 0 else Strtol(left[0].name) - count, 1
  {
    hide Laid, ShowItems, Margin, Closing, Strtol, Level, Starts;
    var level := Level(pretty, |open| + 1);
    if left == [] {
      LaidClosing(k, open, Arr, marked, pretty);
    } else {
      var more := LaidItems(left, count, k, open, marked, pretty);
      assert Rest(left, count, level, k) == "," + (" " + ShowItems(left, count, level, k));
      LaidComma(more, open + [Arr], marked, pretty);
    }
  }

  lemma LevelTop(pretty: int)
    ensures Level(pretty, 1) == pretty
  {
  }

  /** A whole document keeps to the law, however deep it is and whatever the layout asked for. */
  lemma DocumentLaid(fields: seq<Field>, pretty: int, isArray: bool)
    ensures Laid(ShowDocument(fields, pretty, isArray, ""), [], isArray, pretty)
  {
    hide ShowMembers;
    if fields == [] {
      LaidEmpty(if isArray then "[]" else "{}", "", [], isArray, pretty);
    } else {
      LevelTop(pretty);
      hide Laid;
      LaidNothing(isArray, pretty);
      var body := LaidMembers(fields, isArray, "", [], if isArray then Doc else Obj, isArray, pretty);
      LaidOpen(if isArray then '[' else '{', body, [], isArray, pretty);
    }
  }

  lemma LaidNothing(marked: bool, pretty: int)
    ensures Laid("", [], marked, pretty)
  {
  }

  /** So does a single element. */
  lemma FieldLaid(f: Field, pretty: int, isArray: bool)
    ensures Laid(ShowField(f, pretty, isArray, ""), [], false, pretty)
  {
    hide Laid;
    LevelTop(pretty);
    LaidNothing(false, pretty);
    LaidField(f, isArray, "", [], false, pretty);
  }

  /** So does a single value. */
  lemma ValueLaid(v: Value, pretty: int)
    ensures Laid(ShowValue(v, pretty, ""), [], false, pretty)
  {
    hide Laid;
    LevelTop(pretty);
    LaidNothing(false, pretty);
    LaidValue(v, "", [], false, pretty);
  }
}
