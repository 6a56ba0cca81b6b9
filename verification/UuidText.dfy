/**
 HexUtils: hexadecimal text of a UUID's bytes to UUID text and back, in the byte orders
 of the legacy drivers.
 */
module UuidText {
  import opened Wrappers

  datatype Encoding = DefaultEncoding | JavaLegacy | CSharpLegacy | PythonLegacy

  /** std::string::substr: throws (None) past the end, and is cut off at the end. */
  function Substr(s: string, pos: nat, n: nat): Option<string> {
    if pos > |s| then None else Some(if pos + n <= |s| then s[pos..pos + n] else s[pos..])
  }

  /** The byte pairs of s at the given positions, one after the other. */
  function Pairs(s: string, positions: seq<nat>): Option<string> {
    if positions == [] then Some("")
    else
      var first, rest := Substr(s, positions[0], 2), Pairs(s, positions[1..]);
      if first.None? || rest.None? then None else Some(first.value + rest.value)
  }

  /** The two reversed halves of the Java byte order. */
  function JavaOrder(hex: string): Option<string> {
    var msb, lsb := Substr(hex, 0, 16), Substr(hex, 16, 16);
    if msb.None? || lsb.None? then None
    else
      var m, l := Pairs(msb.value, [14, 12, 10, 8, 6, 4, 2, 0]), Pairs(lsb.value, [14, 12, 10, 8, 6, 4, 2, 0]);
      if m.None? || l.None? then None else Some(m.value + l.value)
  }

  /** The .NET byte order: the first three groups reversed. */
  function CSharpOrder(hex: string): Option<string> {
    var abc, d := Pairs(hex, [6, 4, 2, 0, 10, 8, 14, 12]), Substr(hex, 16, 16);
    if abc.None? || d.None? then None else Some(abc.value + d.value)
  }

  function Order(hex: string, encoding: Encoding): Option<string> {
    match encoding
    case JavaLegacy => JavaOrder(hex)
    case CSharpLegacy => CSharpOrder(hex)
    case _ => Some(hex)
  }

  /** Dashes in the places of section 3 of RFC 4122. */
  function Dashed(s: string): Option<string> {
    var a, b, c, d, e := Substr(s, 0, 8), Substr(s, 8, 4), Substr(s, 12, 4), Substr(s, 16, 4), Substr(s, 20, 12);
    if a.None? || b.None? || c.None? || d.None? || e.None? then None
    else Some(a.value + "-" + b.value + "-" + c.value + "-" + d.value + "-" + e.value)
  }

  function HexToUuid(hex: string, encoding: Encoding): Option<string> {
    var s := Order(hex, encoding);
    if s.None? then None else Dashed(s.value)
  }

  predicate IsExtra(c: char) {
    c == '{' || c == '}' || c == '-'
  }

  /** Replacing every match of [{}-] by nothing. */
  function Strip(s: string): (r: string)
    ensures |r| <= |s|
  {
    if s == "" then "" else (if IsExtra(s[0]) then "" else [s[0]]) + Strip(s[1..])
  }

  function UuidToHex(uuid: string, encoding: Encoding): string {
    var hex := Strip(uuid);
    if |hex| != 32 then ""
    else
      var s := Order(hex, encoding);
      if s.Some? then s.value else ""
  }

  predicate Plain(s: string) {
    forall i :: 0 <= i < |s| ==> !IsExtra(s[i])
  }

  // Stripping.

  lemma {:induction false} StripConcat(a: string, b: string)
    ensures Strip(a + b) == Strip(a) + Strip(b)
  {
    if a == "" {
      assert a + b == b;
    } else {
      assert (a + b)[1..] == a[1..] + b;
      StripConcat(a[1..], b);
    }
  }

  lemma {:induction false} StripPlain(s: string)
    ensures Strip(s) == s <==> Plain(s)
    ensures |Strip(s)| == |s| <==> Plain(s)
    ensures Plain(Strip(s))
  {
    if s == "" {
    } else {
      StripPlain(s[1..]);
      assert s == [s[0]] + s[1..];
      assert Plain(s) <==> !IsExtra(s[0]) && Plain(s[1..]);
    }
  }

  lemma StripDash(x: string, y: string)
    ensures Strip(x + "-" + y) == Strip(x) + Strip(y)
  {
    StripConcat(x + "-", y);
    StripConcat(x, "-");
    assert Strip("-") == "";
    assert Strip(x) + "" == Strip(x);
  }

  lemma Pieces(s: string)
    requires |s| == 32
    ensures s == s[0..8] + s[8..12] + s[12..16] + s[16..20] + s[20..32]
  {
  }

  lemma StripDashed(s: string)
    requires |s| == 32
    ensures Dashed(s).Some? && Strip(Dashed(s).value) == Strip(s)
  {
    var a, b, c, d, e := s[0..8], s[8..12], s[12..16], s[16..20], s[20..32];
    assert Dashed(s) == Some(a + "-" + b + "-" + c + "-" + d + "-" + e);
    Pieces(s);
    hide Strip, Dashed;
    StripDash(a, b);
    StripDash(a + "-" + b, c);
    StripDash(a + "-" + b + "-" + c, d);
    StripDash(a + "-" + b + "-" + c + "-" + d, e);
    StripConcat(a, b);
    StripConcat(a + b, c);
    StripConcat(a + b + c, d);
    StripConcat(a + b + c + d, e);
  }

  // The byte orders.

  /** Where the byte at position b of the reordered text comes from. */
  function Source(encoding: Encoding, b: nat): nat
    requires b < 16
  {
    match encoding
    case JavaLegacy => if b < 8 then 7 - b else 23 - b
    case CSharpLegacy => if b < 4 then 3 - b else if b < 6 then 9 - b else if b < 8 then 13 - b else b
    case _ => b
  }

  lemma {:induction false} PairsAt(s: string, positions: seq<nat>)
    requires forall i :: 0 <= i < |positions| ==> positions[i] + 2 <= |s|
    ensures Pairs(s, positions).Some? && |Pairs(s, positions).value| == 2 * |positions|
    ensures forall i :: 0 <= i < |positions| ==>
              Pairs(s, positions).value[2 * i] == s[positions[i]]
                  && Pairs(s, positions).value[2 * i + 1] == s[positions[i] + 1]
  {
    if positions == [] {
    } else {
      PairsAt(s, positions[1..]);
      var r, t := Pairs(s, positions).value, Pairs(s, positions[1..]).value;
      assert r == s[positions[0]..positions[0] + 2] + t;
      forall i | 0 <= i < |positions|
        ensures r[2 * i] == s[positions[i]] && r[2 * i + 1] == s[positions[i] + 1]
      {
        if i > 0 {
          assert r[2 * i] == t[2 * (i - 1)] && r[2 * i + 1] == t[2 * (i - 1) + 1];
          assert positions[i] == positions[1..][i - 1];
        }
      }
    }
  }

  /** Each order moves whole bytes, to the places that Source gives. */
  lemma OrderBytes(hex: string, encoding: Encoding, b: nat)
    requires |hex| == 32 && b < 16
    ensures Order(hex, encoding).Some? && |Order(hex, encoding).value| == 32
    ensures Order(hex, encoding).value[2 * b] == hex[2 * Source(encoding, b)]
    ensures Order(hex, encoding).value[2 * b + 1] == hex[2 * Source(encoding, b) + 1]
  {
    match encoding
    case JavaLegacy => JavaBytes(hex, b);
    case CSharpLegacy => CSharpBytes(hex, b);
    case _ =>
  }

  lemma JavaBytes(hex: string, b: nat)
    requires |hex| == 32 && b < 16
    ensures JavaOrder(hex).Some? && |JavaOrder(hex).value| == 32
    ensures
      var r, from := JavaOrder(hex).value, Source(JavaLegacy, b);
      r[2 * b] == hex[2 * from] && r[2 * b + 1] == hex[2 * from + 1]
  {
    hide Pairs;
    var back: seq<nat> := [14, 12, 10, 8, 6, 4, 2, 0];
    PairsAt(hex[0..16], back);
    PairsAt(hex[16..32], back);
    var i := if b < 8 then b else b - 8;
    assert back[i] == 14 - 2 * i;
  }

  lemma CSharpBytes(hex: string, b: nat)
    requires |hex| == 32 && b < 16
    ensures CSharpOrder(hex).Some? && |CSharpOrder(hex).value| == 32
    ensures
      var r, from := CSharpOrder(hex).value, Source(CSharpLegacy, b);
      r[2 * b] == hex[2 * from] && r[2 * b + 1] == hex[2 * from + 1]
  {
    hide Pairs;
    var mixed: seq<nat> := [6, 4, 2, 0, 10, 8, 14, 12];
    PairsAt(hex, mixed);
    if b < 8 {
      assert mixed[b] == 2 * Source(CSharpLegacy, b);
    }
  }

  /** Every order is its own inverse and a permutation of the bytes. */
  lemma OrderInvolution(hex: string, encoding: Encoding)
    requires |hex| == 32
    ensures Order(hex, encoding).Some? && Order(Order(hex, encoding).value, encoding) == Some(hex)
  {
    hide Order;
    OrderBytes(hex, encoding, 0);
    var r := Order(hex, encoding).value;
    OrderBytes(r, encoding, 0);
    var t := Order(r, encoding).value;
    forall k | 0 <= k < 32 ensures t[k] == hex[k] {
      var b := k / 2;
      OrderBytes(r, encoding, b);
      OrderBytes(hex, encoding, Source(encoding, b));
      assert Source(encoding, Source(encoding, b)) == b;
    }
    assert t == hex;
  }

  lemma OrderPlain(hex: string, encoding: Encoding)
    requires |hex| == 32 && Plain(hex)
    ensures Order(hex, encoding).Some? && |Order(hex, encoding).value| == 32 && Plain(Order(hex, encoding).value)
  {
    hide Order;
    OrderBytes(hex, encoding, 0);
    forall k | 0 <= k < 32 ensures !IsExtra(Order(hex, encoding).value[k]) {
      OrderBytes(hex, encoding, k / 2);
    }
  }

  /** The text made from hexadecimal digits turns back into them exactly when there are 32
      characters and none of them is a brace or a dash. */
  lemma RoundTrip(hex: string, encoding: Encoding)
    ensures
      var uuid := HexToUuid(hex, encoding);
      uuid.Some? && UuidToHex(uuid.value, encoding) == hex <==> |hex| == 32 && Plain(hex)
  {
    if |hex| == 32 && Plain(hex) {
      OrderPlain(hex, encoding);
      var r := Order(hex, encoding).value;
      OrderInvolution(hex, encoding);
      StripDashed(r);
      StripPlain(r);
    } else {
      var uuid := HexToUuid(hex, encoding);
      if uuid.Some? && UuidToHex(uuid.value, encoding) == hex {
        var stripped := Strip(uuid.value);
        StripPlain(uuid.value);
        if |stripped| == 32 {
          OrderPlain(stripped, encoding);
        }
        assert false;
      }
    }
  }

  // Binaries of another length, which subtype 3 and 4 allow.

  lemma OrderOfLonger(hex: string, encoding: Encoding)
    requires |hex| > 32
    ensures Order(hex, encoding).Some? && |Order(hex, encoding).value| >= 32
  {
    hide Pairs;
    PairsAt(hex[0..16], [14, 12, 10, 8, 6, 4, 2, 0]);
    PairsAt(hex[16..32], [14, 12, 10, 8, 6, 4, 2, 0]);
    PairsAt(hex, [6, 4, 2, 0, 10, 8, 14, 12]);
  }

  /** More than 16 bytes are printed as a UUID that does not turn back into them. */
  lemma LongerIsLost(hex: string, encoding: Encoding)
    requires |hex| > 32
    ensures HexToUuid(hex, encoding).Some? && UuidToHex(HexToUuid(hex, encoding).value, encoding) != hex
  {
    RoundTrip(hex, encoding);
    OrderOfLonger(hex, encoding);
    hide Order;
  }

  /** Fewer than 10 bytes make the printer throw. */
  lemma ShorterThrows(hex: string, encoding: Encoding)
    requires |hex| < 20
    ensures HexToUuid(hex, encoding).None?
  {
    if encoding.CSharpLegacy? && |hex| >= 16 {
      PairsAt(hex, [6, 4, 2, 0, 10, 8, 14, 12]);
    }
  }

  predicate DashAt(i: nat) {
    i == 8 || i == 13 || i == 18 || i == 23
  }

  lemma DashedAt(s: string, i: nat)
    requires |s| == 32 && Plain(s) && i < 36
    ensures Dashed(s).Some? && |Dashed(s).value| == 36
    ensures Dashed(s).value[i] == '-' <==> DashAt(i)
  {
    var a, b, c, d, e := s[0..8], s[8..12], s[12..16], s[16..20], s[20..32];
    assert Dashed(s) == Some(a + "-" + b + "-" + c + "-" + d + "-" + e);
  }

  /** Digits are printed in the groups of section 3 of RFC 4122: 8, 4, 4, 4 and 12. */
  lemma TextLayout(hex: string, encoding: Encoding)
    requires |hex| == 32 && Plain(hex)
    ensures HexToUuid(hex, encoding).Some? && |HexToUuid(hex, encoding).value| == 36
    ensures forall i :: 0 <= i < 36 ==> (HexToUuid(hex, encoding).value[i] == '-' <==> DashAt(i))
  {
    hide Order, Dashed, DashAt;
    OrderPlain(hex, encoding);
    DashedAt(Order(hex, encoding).value, 0);
    forall i | 0 <= i < 36 ensures HexToUuid(hex, encoding).value[i] == '-' <==> DashAt(i) {
      DashedAt(Order(hex, encoding).value, i);
    }
  }

  /** Braces around the text, and where its dashes stand, make no difference. */
  lemma OnlyStrippedMatters(a: string, b: string, encoding: Encoding)
    requires Strip(a) == Strip(b)
    ensures UuidToHex(a, encoding) == UuidToHex(b, encoding) == UuidToHex("{" + a + "}", encoding)
  {
    StripConcat("{" + a, "}");
    StripConcat("{", a);
    assert Strip("{") == "" && Strip("}") == "";
    assert "" + Strip(a) + "" == Strip(a);
  }
}
