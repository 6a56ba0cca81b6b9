/**
 The reader recovers every document from its printed text, whatever the layout.
 */
module BsonRoundTrip {
  import opened Decimal
  import opened BsonText
  import opened BsonReader

  /** What a printed value says: an array is filled up to its last index, with
      `undefined` in the gaps and every element named by its slot. */
  function Normal(v: Value): Value
    decreases v, 1
  {
    match v
    case Object(fields) => Object(NormalMembers(fields))
    case Array(fields) => Array(Slots(fields, 0))
    case _ => v
  }

  function NormalMembers(fields: seq<Field>): seq<Field>
    decreases fields, 0
  {
    if fields == [] then []
    else [Field(fields[0].name, Normal(fields[0].value))] + NormalMembers(fields[1..])
  }

  function Slots(fields: seq<Field>, count: nat): seq<Field>
    decreases fields, if fields == [] then 0 else Strtol(fields[0].name) - count
  {
    if fields == [] then []
    else if Strtol(fields[0].name) > count then [Field(Show(count), Undefined)] + Slots(fields, count + 1)
    else [Field(Show(count), Normal(fields[0].value))] + Slots(fields[1..], count + 1)
  }

  /** A document printed as an array: positions instead of names, no gaps. */
  function Positions(fields: seq<Field>, count: nat): seq<Field> {
    if fields == [] then []
    else [Field(Show(count), Normal(fields[0].value))] + Positions(fields[1..], count + 1)
  }

  // Strings.

  lemma EscapeThenRead(c: char, k: string)
    ensures
      var s := EscapeChar(c) + k;
      && s[0] != '"' && s[0] >= ' '
      && (if s[0] == '\\' then ReadEscape(s[1..]) else Ok(s[0], s[1..])) == Ok(c, k)
  {
    var e := EscapeChar(c);
    var s := e + k;
    assert s[|e|..] == k;
    if s[0] == '\\' {
      assert s[1..] == e[1..] + k;
      if |e| == 6 {
        assert s[1..][5..] == k;
      } else {
        assert s[1..][1..] == k;
      }
    }
  }

  lemma {:induction false} ReadEscaped(s: string, k: string)
    ensures ReadChars(ShowEscaped(s, "\"" + k)) == Ok(s, k)
  {
    if s == [] {
      assert ("\"" + k)[1..] == k;
    } else {
      EscapeThenRead(s[0], ShowEscaped(s[1..], "\"" + k));
      ReadEscaped(s[1..], k);
      assert s == [s[0]] + s[1..];
    }
  }

  // Layout is blanks.

  lemma SkipOne(c: char, k: string)
    requires IsBlank(c)
    ensures SkipBlanks([c] + k) == SkipBlanks(k)
  {
    assert ([c] + k)[1..] == k;
  }

  lemma {:induction false} SkipIndent(level: int, k: string)
    ensures SkipBlanks(Indent(level, k)) == SkipBlanks(k)
    decreases level
  {
    if level <= 0 {
    } else {
      var t := Indent(level - 1, k);
      SkipIndent(level - 1, k);
      assert "    " + t == [' '] + ([' '] + ([' '] + ([' '] + t)));
      SkipOne(' ', t);
      SkipOne(' ', [' '] + t);
      SkipOne(' ', [' '] + ([' '] + t));
      SkipOne(' ', [' '] + ([' '] + ([' '] + t)));
    }
  }

  lemma SkipLayout(pretty: int, c: char, k: string)
    ensures SkipBlanks(BeforeMember(pretty, k)) == SkipBlanks(k)
    ensures SkipBlanks(BeforeItem(pretty, k)) == SkipBlanks(k)
    ensures !IsBlank(c) ==> SkipBlanks(Closing(pretty, c, k)) == [c] + k
  {
    SkipIndent(pretty, k);
    SkipIndent(pretty - 1, [c] + k);
    SkipOne('\n', Indent(pretty, k));
    SkipOne(' ', k);
    SkipOne('\n', Indent(pretty - 1, [c] + k));
  }

  /** Blanks before a value do not matter. */
  lemma ReadSkips(s: string, t: string)
    requires SkipBlanks(s) == SkipBlanks(t)
    ensures ReadValue(s) == ReadValue(t)
  {
  }

  // Scalars.

  lemma ReadShownInt(n: int, k: string)
    requires !StartsWithDigit(k)
    ensures ReadInt(ShowInt(n, k)) == Ok(n, k)
  {
    var a := if n < 0 then -n else n;
    ReadShownNat(a, k);
    var t := ShowNat(a, k);
    if n < 0 {
      assert ShowInt(n, k)[1..] == t;
    }
  }

  predicate IsScalar(v: Value) {
    !v.Object? && !v.Array?
  }

  /** How a printed value begins. */
  lemma FirstChar(v: Value, pretty: int, k: string)
    ensures
      var s := ShowValue(v, pretty, k);
      && s != [] && !IsBlank(s[0]) && s[0] != ']' && s[0] != '}'
      && (s[0] == '{' <==> v.Object?) && (s[0] == '[' <==> v.Array?)
  {
  }

  /** Text that begins with none of the letters of the keywords is no keyword. */
  lemma NoWord(s: string)
    requires s != [] && (IsDigit(s[0]) || s[0] == '-')
    ensures forall word | word in {"null", "undefined", "true", "false", "NumberLong("} :: !StartsWith(s, word)
  {
    forall word | word in {"null", "undefined", "true", "false", "NumberLong("} ensures !StartsWith(s, word) {
      if |word| <= |s| {
        assert s[..|word|][0] == s[0] != word[0];
      }
    }
  }

  lemma ReadShownWord(v: Value, pretty: int, k: string)
    requires v.Null? || v.Undefined? || v.Bool?
    ensures ReadScalar(ShowValue(v, pretty, k)) == Ok(v, k)
  {
    var s := ShowValue(v, pretty, k);
    match v
    case Null => assert s[..4] == "null" && s[4..] == k;
    case Undefined => assert s[..9] == "undefined" && s[9..] == k && s[..4] == "unde";
    case Bool(true) => assert s[..4] == "true" && s[4..] == k;
    case Bool(false) => assert s[..5] == "false" && s[5..] == k && s[..4] == "fals";
  }

  lemma ReadShownLong(l: Int64, k: string)
    ensures ReadScalar(ShowValue(Long(l), 0, k)) == Ok(Long(l), k)
  {
    hide ReadInt;
    var s := ShowValue(Long(l), 0, k);
    ReadShownInt(l, ")" + k);
    assert (")" + k)[1..] == k;
    assert s[..11] == "NumberLong(" && s[11..] == ShowInt(l, ")" + k);
    assert s[..4] == "Numb" && s[..5] == "Numbe" && s[..9] == "NumberLon";
  }

  lemma ReadShownScalar(v: Value, pretty: int, k: string)
    requires IsScalar(v) && !StartsWithDigit(k)
    ensures ReadScalar(ShowValue(v, pretty, k)) == Ok(v, k)
  {
    hide ReadChars, ReadInt, StartsWith, ReadLong;
    match v
    case Int(i) =>
      ReadShownInt(i, k);
      NoWord(ShowInt(i, k));
    case Long(l) =>
      ReadShownLong(l, k);
    case Str(str) =>
      assert ShowValue(v, pretty, k)[1..] == ShowEscaped(str, "\"" + k);
      ReadEscaped(str, k);
    case _ =>
      ReadShownWord(v, pretty, k);
  }

  lemma ReadShownAtom(v: Value, pretty: int, k: string)
    requires IsScalar(v) && !StartsWithDigit(k)
    ensures ReadValue(ShowValue(v, pretty, k)) == Ok(v, k)
  {
    FirstChar(v, pretty, k);
    ReadShownScalar(v, pretty, k);
  }

  // The round trip, for a value, a member and the lists of members and items.

  lemma {:induction false} ReadShown(v: Value, pretty: int, k: string)
    requires !StartsWithDigit(k)
    ensures ReadValue(ShowValue(v, pretty, k)) == Ok(Normal(v), k)
    decreases v, 1
  {
    var s := ShowValue(v, pretty, k);
    FirstChar(v, pretty, k);
    if IsScalar(v) {
      ReadShownAtom(v, pretty, k);
    } else if v.fields == [] {
      assert s[1..] == [s[1]] + k;
      assert s[1..][1..] == k;
    } else if v.Object? {
      assert s[1..] == ShowMembers(v.fields, pretty, false, k);
      ReadShownMembers(v.fields, pretty, k);
    } else {
      assert s[1..] == [' '] + ShowItems(v.fields, 0, pretty, k);
      SkipOne(' ', ShowItems(v.fields, 0, pretty, k));
      ReadShownItems(v.fields, 0, pretty, k);
    }
  }

  // One step of the reader.

  lemma MemberStep(s: string, name: string, u: string, w: string, v: Value, k: string)
    requires s != [] && s[0] == '"' && ReadChars(s[1..]) == Ok(name, u)
    requires SkipBlanks(u) == [':'] + w && ReadValue(w) == Ok(v, k)
    ensures ReadMember(s) == Ok(Field(name, v), k)
  {
    hide ReadValue, ReadChars;
    assert ([':'] + w)[1..] == w;
  }

  lemma MembersStep(s: string, f: Field, u: string, c: char, w: string, more: Parsed<seq<Field>>)
    requires ReadMember(s) == Ok(f, u) && SkipBlanks(u) == [c] + w
    requires if c == '}' then more == Ok([], w) else c == ',' && more == ReadMembers(w) && more.Ok?
    ensures ReadMembers(s) == Ok([f] + more.value, more.rest)
  {
    hide ReadMember;
    assert ([c] + w)[1..] == w;
    assert [f] + [] == [f];
  }

  lemma ItemsStep(s: string, index: nat, v: Value, u: string, c: char, w: string, more: Parsed<seq<Field>>)
    requires ReadValue(s) == Ok(v, u) && SkipBlanks(u) == [c] + w
    requires if c == ']' then more == Ok([], w) else c == ',' && more == ReadItems(w, index + 1) && more.Ok?
    ensures ReadItems(s, index) == Ok([Field(Show(index), v)] + more.value, more.rest)
  {
    hide ReadValue;
    assert ([c] + w)[1..] == w;
    assert [Field(Show(index), v)] + [] == [Field(Show(index), v)];
  }

  lemma MembersSkip(s: string, t: string)
    requires SkipBlanks(s) == SkipBlanks(t)
    ensures ReadMembers(s) == ReadMembers(t)
  {
    assert ReadMember(s) == ReadMember(t);
  }

  lemma ItemsSkip(s: string, t: string, index: nat)
    requires SkipBlanks(s) == SkipBlanks(t)
    ensures ReadItems(s, index) == ReadItems(t, index)
  {
    ReadSkips(s, t);
  }

  lemma {:induction false} ReadShownMember(f: Field, pretty: int, k: string)
    requires !StartsWithDigit(k)
    ensures ReadMember(ShowField(f, pretty, false, k)) == Ok(Field(f.name, Normal(f.value)), k)
    ensures ShowField(f, pretty, false, k)[0] == '"'
    decreases f, 2
  {
    hide ReadValue, ReadMember, ReadChars, ShowEscaped, ShowValue, SkipBlanks, Normal;
    var t := ShowValue(f.value, pretty, k);
    var s := ShowField(f, pretty, false, k);
    assert "\" : " + t == "\"" + (" : " + t);
    assert s[1..] == ShowEscaped(f.name, "\"" + (" : " + t));
    ReadEscaped(f.name, " : " + t);
    assert " : " + t == [' '] + ([':'] + ([' '] + t));
    SkipOne(' ', [':'] + ([' '] + t));
    SkipNone([':'] + ([' '] + t));
    SkipOne(' ', t);
    ReadSkips([' '] + t, t);
    ReadShown(f.value, pretty, k);
    MemberStep(s, f.name, " : " + t, [' '] + t, Normal(f.value), k);
  }

  lemma SkipNone(s: string)
    requires s == [] || !IsBlank(s[0])
    ensures SkipBlanks(s) == s
  {
  }

  /** Also says that the list does not look empty. */
  lemma {:induction false} ReadShownMembers(fields: seq<Field>, pretty: int, k: string)
    requires fields != []
    ensures
      var s := ShowMembers(fields, pretty, false, k);
      var t := SkipBlanks(s);
      && t != [] && t[0] != '}'
      && ReadMembers(t) == ReadMembers(s) == Ok(NormalMembers(fields), k)
    decreases fields, 0
  {
    hide ReadMember, ReadMembers, SkipBlanks, Normal, ShowField;
    var after := if |fields| == 1 then Closing(pretty, '}', k) else "," + ShowMembers(fields[1..], pretty, false, k);
    var field := ShowField(fields[0], Deeper(pretty), false, after);
    var s := ShowMembers(fields, pretty, false, k);
    var f := Field(fields[0].name, Normal(fields[0].value));
    ReadShownMember(fields[0], Deeper(pretty), after);
    SkipLayout(pretty, '}', field);
    SkipNone(field);
    MembersSkip(s, field);
    if |fields| == 1 {
      SkipLayout(pretty, '}', k);
      MembersStep(field, f, after, '}', k, Ok([], k));
    } else {
      var more := ShowMembers(fields[1..], pretty, false, k);
      ReadShownMembers(fields[1..], pretty, k);
      SkipNone([','] + more);
      MembersStep(field, f, after, ',', more, ReadMembers(more));
    }
  }

  lemma {:induction false} ReadShownItems(fields: seq<Field>, count: nat, pretty: int, k: string)
    requires fields != []
    ensures
      var s := ShowItems(fields, count, pretty, k);
      var t := SkipBlanks(s);
      && t != [] && t[0] != ']'
      && ReadItems(t, count) == ReadItems(s, count) == Ok(Slots(fields, count), k)
    decreases fields, Strtol(fields[0].name) - count
  {
    hide ReadItems, ReadValue, SkipBlanks, Normal, ShowValue, Strtol, Slots, ShowItems;
    var gap := Strtol(fields[0].name) > count;
    var v := if gap then Undefined else fields[0].value;
    var rest := if gap then fields else fields[1..];
    var after := if rest == [] then Closing(pretty, ']', k) else ", " + ShowItems(rest, count + 1, pretty, k);
    var item := ShowValue(v, Deeper(pretty), after);
    var s := ShowItems(fields, count, pretty, k);
    ItemText(fields, count, pretty, k);
    FirstChar(v, Deeper(pretty), after);
    SkipLayout(pretty, ']', item);
    SkipNone(item);
    ItemsSkip(s, item, count);
    if gap {
      ReadShownAtom(v, Deeper(pretty), after);
    } else {
      ReadShown(v, Deeper(pretty), after);
    }
    NormalOfUndefined();
    if rest == [] {
      NoSlots(count + 1);
      SkipLayout(pretty, ']', k);
      ItemsStep(item, count, Normal(v), after, ']', k, Ok([], k));
    } else {
      var more := ShowItems(rest, count + 1, pretty, k);
      assert after == [','] + ([' '] + more);
      SkipNone([','] + ([' '] + more));
      SkipOne(' ', more);
      ReadShownItems(rest, count + 1, pretty, k);
      ItemsSkip([' '] + more, more, count + 1);
      ItemsStep(item, count, Normal(v), after, ',', [' '] + more, ReadItems(more, count + 1));
    }
    SlotsStep(fields, count);
  }

  lemma NormalOfUndefined()
    ensures Normal(Undefined) == Undefined
  {
  }

  lemma ItemText(fields: seq<Field>, count: nat, pretty: int, k: string)
    requires fields != []
    ensures
      var gap := Strtol(fields[0].name) > count;
      var rest := if gap then fields else fields[1..];
      var after := if rest == [] then Closing(pretty, ']', k) else ", " + ShowItems(rest, count + 1, pretty, k);
      ShowItems(fields, count, pretty, k) ==
        BeforeItem(pretty, ShowValue(if gap then Undefined else fields[0].value, Deeper(pretty), after))
  {
  }

  lemma SlotsStep(fields: seq<Field>, count: nat)
    requires fields != []
    ensures
      var gap := Strtol(fields[0].name) > count;
      Slots(fields, count) ==
        [Field(Show(count), Normal(if gap then Undefined else fields[0].value))]
        + Slots(if gap then fields else fields[1..], count + 1)
  {
  }

  lemma {:induction false} ReadShownPositions(fields: seq<Field>, count: nat, pretty: int, k: string)
    requires fields != []
    ensures
      var s := ShowMembers(fields, pretty, true, k);
      var t := SkipBlanks(s);
      && t != [] && t[0] != ']'
      && ReadItems(t, count) == ReadItems(s, count) == Ok(Positions(fields, count), k)
  {
    hide ReadItems, ReadValue, SkipBlanks, Normal, ShowValue;
    var v := fields[0].value;
    var after := if |fields| == 1 then Closing(pretty, ']', k) else "," + ShowMembers(fields[1..], pretty, true, k);
    var item := ShowValue(v, Deeper(pretty), after);
    var s := ShowMembers(fields, pretty, true, k);
    assert ShowField(fields[0], Deeper(pretty), true, after) == item;
    FirstChar(v, Deeper(pretty), after);
    SkipLayout(pretty, ']', item);
    SkipNone(item);
    ItemsSkip(s, item, count);
    ReadShown(v, Deeper(pretty), after);
    if |fields| == 1 {
      SkipLayout(pretty, ']', k);
      ItemsStep(item, count, Normal(v), after, ']', k, Ok([], k));
    } else {
      var more := ShowMembers(fields[1..], pretty, true, k);
      SkipNone([','] + more);
      ReadShownPositions(fields[1..], count + 1, pretty, k);
      ItemsStep(item, count, Normal(v), after, ',', more, ReadItems(more, count + 1));
    }
  }

  // The results.

  function DocumentValue(fields: seq<Field>, isArray: bool): Value {
    if isArray then Array(Positions(fields, 0)) else Object(NormalMembers(fields))
  }

  /** Every document is recovered from its text, at every layout level. */
  lemma DocumentRoundTrip(fields: seq<Field>, pretty: int, isArray: bool)
    ensures ReadValue(ShowDocument(fields, pretty, isArray, "")) == Ok(DocumentValue(fields, isArray), "")
  {
    var s := ShowDocument(fields, pretty, isArray, "");
    if fields == [] {
      assert s[1..] == [s[1]] && s[1..][1..] == "";
    } else {
      assert s[1..] == ShowMembers(fields, pretty, isArray, "");
      if isArray {
        ReadShownPositions(fields, 0, pretty, "");
      } else {
        ReadShownMembers(fields, pretty, "");
      }
    }
  }

  /** Arrays whose elements are named 0, 1, 2, ... at every depth. */
  predicate Dense(v: Value)
    decreases v, 1
  {
    match v
    case Object(fields) => DenseMembers(fields)
    case Array(fields) => DenseItems(fields, 0)
    case _ => true
  }

  predicate DenseMembers(fields: seq<Field>)
    decreases fields, 0
  {
    fields == [] || (Dense(fields[0].value) && DenseMembers(fields[1..]))
  }

  predicate DenseItems(fields: seq<Field>, count: nat)
    decreases fields, 0
  {
    fields == [] || (fields[0].name == Show(count) && Dense(fields[0].value) && DenseItems(fields[1..], count + 1))
  }

  lemma {:induction false} DenseIsNormal(v: Value)
    requires Dense(v)
    ensures Normal(v) == v
    decreases v, 1
  {
    match v
    case Object(fields) => DenseMembersNormal(fields);
    case Array(fields) => DenseItemsNormal(fields, 0);
    case _ =>
  }

  lemma {:induction false} DenseMembersNormal(fields: seq<Field>)
    requires DenseMembers(fields)
    ensures NormalMembers(fields) == fields
    decreases fields, 0
  {
    if fields == [] {
    } else {
      DenseIsNormal(fields[0].value);
      DenseMembersNormal(fields[1..]);
      assert fields == [fields[0]] + fields[1..];
    }
  }

  lemma {:induction false} DenseItemsNormal(fields: seq<Field>, count: nat)
    requires DenseItems(fields, count)
    ensures Slots(fields, count) == fields
    decreases fields, 0
  {
    if fields == [] {
    } else {
      StrtolShown(count);
      DenseIsNormal(fields[0].value);
      DenseItemsNormal(fields[1..], count + 1);
      assert fields == [fields[0]] + fields[1..];
    }
  }

  /** A document with ordinary arrays is recovered exactly. */
  lemma DenseRoundTrip(v: Value, pretty: int)
    requires Dense(v)
    ensures ReadValue(ShowValue(v, pretty, "")) == Ok(v, "")
  {
    ReadShown(v, pretty, "");
    DenseIsNormal(v);
  }

  /** Printing loses nothing: equal texts, in whatever layout, are of equal values. */
  lemma PrintingInjective(v: Value, w: Value, pretty: int, pretty': int)
    requires Dense(v) && Dense(w) && ShowValue(v, pretty, "") == ShowValue(w, pretty', "")
    ensures v == w
  {
    DenseRoundTrip(v, pretty);
    DenseRoundTrip(w, pretty');
  }

  /** For any value, with any array indices, two texts say the same thing exactly when the
      values agree after filling the gaps; so the layout level never matters. */
  lemma LayoutOnly(v: Value, w: Value, pretty: int, pretty': int)
    ensures ReadValue(ShowValue(v, pretty, "")) == ReadValue(ShowValue(w, pretty', "")) <==> Normal(v) == Normal(w)
  {
    ReadShown(v, pretty, "");
    ReadShown(w, pretty', "");
  }

  // Sparse arrays.

  function Index(f: Field): int {
    Strtol(f.name)
  }

  predicate Increasing(fields: seq<Field>) {
    forall i, j :: 0 <= i < j < |fields| ==> Index(fields[i]) < Index(fields[j])
  }

  lemma RestIncreasing(fields: seq<Field>)
    requires |fields| > 1 && Increasing(fields)
    ensures Increasing(fields[1..]) && Index(fields[1..][0]) > Index(fields[0])
  {
  }

  lemma IncreasingEnds(fields: seq<Field>, i: nat)
    requires Increasing(fields) && i < |fields|
    ensures Index(fields[0]) <= Index(fields[i]) <= Index(fields[|fields| - 1])
  {
  }

  lemma {:induction false} SlotsLength(fields: seq<Field>, count: nat)
    requires fields != [] && Increasing(fields) && count <= Index(fields[0])
    ensures |Slots(fields, count)| == Index(fields[|fields| - 1]) + 1 - count
    decreases fields, Index(fields[0]) - count
  {
    SlotsStep(fields, count);
    hide Strtol, Normal, Increasing, Slots;
    if Index(fields[0]) > count {
      SlotsLength(fields, count + 1);
    } else if |fields| > 1 {
      RestIncreasing(fields);
      SlotsLength(fields[1..], count + 1);
    } else {
      NoSlots(count + 1);
    }
  }

  lemma NoSlots(count: nat)
    ensures Slots([], count) == []
  {
  }

  /** Every slot but the first is one of the rest. */
  lemma SlotShift(fields: seq<Field>, count: nat, j: nat)
    requires fields != [] && 0 < j < |Slots(fields, count)|
    ensures
      var rest := if Index(fields[0]) > count then fields else fields[1..];
      && rest != [] && j - 1 < |Slots(rest, count + 1)| && Slots(fields, count)[j] == Slots(rest, count + 1)[j - 1]
  {
    SlotsStep(fields, count);
    hide Strtol, Normal, Slots;
    MoreSlots(if Index(fields[0]) > count then fields else fields[1..], count + 1);
  }

  lemma FirstSlot(fields: seq<Field>, count: nat)
    requires fields != []
    ensures
      var v := if Index(fields[0]) > count then Undefined else Normal(fields[0].value);
      Slots(fields, count) != [] && Slots(fields, count)[0] == Field(Show(count), v)
  {
  }

  lemma {:induction false} SlotsHold(fields: seq<Field>, count: nat, i: nat)
    requires fields != [] && Increasing(fields) && count <= Index(fields[0]) && i < |fields|
    ensures 0 <= Index(fields[i]) - count < |Slots(fields, count)|
    ensures Slots(fields, count)[Index(fields[i]) - count].value == Normal(fields[i].value)
    decreases fields, Index(fields[0]) - count
  {
    SlotsLength(fields, count);
    IncreasingEnds(fields, i);
    FirstSlot(fields, count);
    var at := Index(fields[i]) - count;
    if at > 0 {
      SlotShift(fields, count, at);
    }
    hide Index, Normal, Increasing, Slots;
    if Index(fields[0]) > count {
      SlotsHold(fields, count + 1, i);
    } else if i > 0 {
      assert at > 0;
      RestIncreasing(fields);
      assert fields[1..][i - 1] == fields[i];
      SlotsHold(fields[1..], count + 1, i - 1);
    }
  }

  lemma {:induction false} SlotNames(fields: seq<Field>, count: nat, j: nat)
    requires fields != [] && j < |Slots(fields, count)|
    ensures Slots(fields, count)[j].name == Show(count + j)
    decreases fields, Index(fields[0]) - count
  {
    FirstSlot(fields, count);
    if j == 0 {
      assert count + j == count;
    } else {
      SlotShift(fields, count, j);
      hide Index, Slots;
      assert count + j == (count + 1) + (j - 1);
      SlotNames(if Index(fields[0]) > count then fields else fields[1..], count + 1, j - 1);
    }
  }

  lemma MoreSlots(fields: seq<Field>, count: nat)
    ensures Slots(fields, count) != [] <==> fields != []
  {
  }

  /** No element has that index. */
  predicate Absent(fields: seq<Field>, n: int) {
    forall i :: 0 <= i < |fields| ==> Index(fields[i]) != n
  }

  lemma AbsentRest(fields: seq<Field>, n: int)
    requires Absent(fields, n) && fields != []
    ensures Index(fields[0]) != n && Absent(fields[1..], n)
  {
  }

  lemma {:induction false} SlotsGap(fields: seq<Field>, count: nat, j: nat)
    requires fields != [] && Increasing(fields) && count <= Index(fields[0]) && j < |Slots(fields, count)|
    requires Absent(fields, count + j)
    ensures Slots(fields, count)[j].value == Undefined
    decreases fields, Index(fields[0]) - count
  {
    FirstSlot(fields, count);
    AbsentRest(fields, count + j);
    if j == 0 {
      assert Index(fields[0]) > count;
    } else {
      SlotShift(fields, count, j);
      hide Index, Increasing, Slots, Absent;
      assert count + j == (count + 1) + (j - 1);
      if Index(fields[0]) > count {
        SlotsGap(fields, count + 1, j - 1);
      } else {
        RestIncreasing(fields);
        SlotsGap(fields[1..], count + 1, j - 1);
      }
    }
  }

  /** The text of an array with increasing indices has one slot for every index up to the
      last: the element of that index, or `undefined`. */
  lemma SparseArray(fields: seq<Field>, pretty: int)
    requires fields != [] && Increasing(fields) && 0 <= Index(fields[0])
    ensures
      var r := ReadValue(ShowValue(Array(fields), pretty, ""));
      && r.Ok? && r.rest == "" && r.value.Array?
      && |r.value.fields| == Index(fields[|fields| - 1]) + 1
      && (forall i :: 0 <= i < |fields| ==>
            && 0 <= Index(fields[i]) < |r.value.fields|
            && r.value.fields[Index(fields[i])].value == Normal(fields[i].value))
      && (forall j :: 0 <= j < |r.value.fields| ==>
            || r.value.fields[j] == Field(Show(j), Undefined)
            || (r.value.fields[j].name == Show(j) && exists i :: 0 <= i < |fields| && Index(fields[i]) == j))
  {
    hide Strtol, ReadValue, ShowValue, Slots;
    ReadShown(Array(fields), pretty, "");
    forall i | 0 <= i < |fields|
      ensures
        && |Slots(fields, 0)| == Index(fields[|fields| - 1]) + 1
        && 0 <= Index(fields[i]) < |Slots(fields, 0)|
        && Slots(fields, 0)[Index(fields[i])].value == Normal(fields[i].value)
    {
      SlotsLength(fields, 0);
      SlotsHold(fields, 0, i);
    }
    forall j | 0 <= j < |Slots(fields, 0)|
      ensures
        || Slots(fields, 0)[j] == Field(Show(j), Undefined)
        || (Slots(fields, 0)[j].name == Show(j) && exists i :: 0 <= i < |fields| && Index(fields[i]) == j)
    {
      SlotNames(fields, 0, j);
      if Absent(fields, j) {
        SlotsGap(fields, 0, j);
      }
    }
    assert Index(fields[0]) >= 0;
  }
}
