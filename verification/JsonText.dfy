/**
 * The JSON strings and numbers the telemetry server writes (src/telemetry/json_serializer.cpp) and its
 * hand-written field reader (src/telemetry/aggregator_tcp_server.cpp). Section 7 of RFC 8259 gives the escapes,
 * section 3 of RFC 3629 the encoding of code points.
 */
module JsonText {
  import opened Common

  type Byte = x: int | 0 <= x < 0x100
  type Text = seq<Byte>

  const QUOTE: Byte := 0x22
  const BACKSLASH: Byte := 0x5C
  const SLASH: Byte := 0x2F
  const LOWER_U: Byte := 0x75
  const COLON: Byte := 0x3A
  const ZERO: Byte := 0x30

  /* ---------- hexadecimal digits ---------- */

  function HexDigit(v: nat): (c: Byte)
    requires v < 16
  {
    if v < 10 then ZERO + v else 0x61 + v - 10
  }

  /** from_chars in base 16, on one byte. */
  function HexValue(c: Byte): (v: Option<nat>)
    ensures v.Some? ==> v.value < 16
  {
    if 0x30 <= c <= 0x39 then Some(c - 0x30)
    else if 0x61 <= c <= 0x66 then Some(c - 0x61 + 10)
    else if 0x41 <= c <= 0x46 then Some(c - 0x41 + 10)
    else None
  }

  /** "%04x" */
  function Hex4Text(v: nat): (s: Text)
    requires v < 0x1_0000
    ensures |s| == 4
  {
    [HexDigit(v / 0x1000), HexDigit(v / 0x100 % 16), HexDigit(v / 16 % 16), HexDigit(v % 16)]
  }

  /** parse_hex4 */
  function Hex4(line: Text, at: nat): (v: Option<nat>)
    ensures v.Some? ==> v.value < 0x1_0000 && at + 4 <= |line|
  {
    if at + 4 > |line| then None
    else
      var a, b, c, d := HexValue(line[at]), HexValue(line[at + 1]), HexValue(line[at + 2]), HexValue(line[at + 3]);
      if a.Some? && b.Some? && c.Some? && d.Some? then
        Some(0x1000 * a.value + 0x100 * b.value + 16 * c.value + d.value)
      else None
  }

  lemma Hex4OfText(line: Text, at: nat, v: nat)
    requires v < 0x1_0000 && at + 4 <= |line| && line[at..at + 4] == Hex4Text(v)
    ensures Hex4(line, at) == Some(v)
  {
    hide HexDigit, HexValue;
    var s := line[at..at + 4];
    assert line[at] == s[0] && line[at + 1] == s[1] && line[at + 2] == s[2] && line[at + 3] == s[3];
    HexDigitRead(v / 0x1000);
    HexDigitRead(v / 0x100 % 16);
    HexDigitRead(v / 16 % 16);
    HexDigitRead(v % 16);
    FourDigits(v);
  }

  lemma FourDigits(v: nat)
    ensures 0x1000 * (v / 0x1000) + 0x100 * (v / 0x100 % 16) + 16 * (v / 16 % 16) + v % 16 == v
  {
    assert v / 0x100 == 16 * (v / 0x1000) + v / 0x100 % 16 && v / 16 == 16 * (v / 0x100) + v / 16 % 16;
  }

  /** Digits in either case, and nothing else. */
  lemma HexValues(c: Byte)
    ensures 0x41 <= c <= 0x46 ==> HexValue(c) == HexValue(c + 0x20) == Some(c - 0x37)
    ensures 0x30 <= c <= 0x39 ==> HexValue(c) == Some(c - 0x30)
    ensures HexValue(c).Some? <==> 0x30 <= c <= 0x39 || 0x41 <= c <= 0x46 || 0x61 <= c <= 0x66
  {
  }

  lemma HexDigitRead(v: nat)
    requires v < 16
    ensures HexValue(HexDigit(v)) == Some(v)
  {
  }

  /* ---------- escape_quoted ---------- */

  /** One \u escape. */
  function Unit(v: nat): (s: Text)
    requires v < 0x1_0000
    ensures |s| == 6
  {
    [BACKSLASH, LOWER_U] + Hex4Text(v)
  }

  function EscapeByte(c: Byte): Text {
    if c == QUOTE then [BACKSLASH, QUOTE]
    else if c == BACKSLASH then [BACKSLASH, BACKSLASH]
    else if c == 0x0A then [BACKSLASH, 0x6E]
    else if c == 0x0D then [BACKSLASH, 0x72]
    else if c == 0x09 then [BACKSLASH, 0x74]
    else if c < 0x20 then Unit(c)
    else [c]
  }

  function EscapeAll(s: Text): Text {
    if s == [] then [] else EscapeByte(s[0]) + EscapeAll(s[1..])
  }

  function Escaped(s: Text): Text {
    [QUOTE] + EscapeAll(s) + [QUOTE]
  }

  method EscapeQuoted(out: Text, s: Text) returns (out': Text)
    ensures out' == out + Escaped(s)
  {
    hide EscapeByte;
    out' := out + [QUOTE];
    for i := 0 to |s|
      invariant out' + EscapeAll(s[i..]) == out + [QUOTE] + EscapeAll(s)
    {
      assert s[i..][1..] == s[i + 1..];
      assert out' + (EscapeByte(s[i]) + EscapeAll(s[i + 1..])) == (out' + EscapeByte(s[i])) + EscapeAll(s[i + 1..]);
      out' := out' + EscapeByte(s[i]);
    }
    assert out' + EscapeAll([]) == out';
    assert s[|s|..] == [];
    assert out + [QUOTE] + EscapeAll(s) + [QUOTE] == out + Escaped(s);
    out' := out' + [QUOTE];
  }

  predicate HexByte(c: Byte) {
    0x30 <= c <= 0x39 || 0x41 <= c <= 0x46 || 0x61 <= c <= 0x66
  }

  /** Zero or more characters of a JSON string, by the grammar of section 7 of RFC 8259. */
  predicate JsonChars(t: Text) {
    if t == [] then true
    else if t[0] == BACKSLASH then
      || (|t| >= 2 && t[1] in {QUOTE, BACKSLASH, SLASH, 0x62, 0x66, 0x6E, 0x72, 0x74} && JsonChars(t[2..]))
      || (|t| >= 6 && t[1] == LOWER_U && (forall k | 2 <= k < 6 :: HexByte(t[k])) && JsonChars(t[6..]))
    else t[0] >= 0x20 && t[0] != QUOTE && JsonChars(t[1..])
  }

  lemma ByteIsJson(c: Byte, rest: Text)
    requires JsonChars(rest)
    ensures JsonChars(EscapeByte(c) + rest)
  {
    var t := EscapeByte(c) + rest;
    assert t[|EscapeByte(c)|..] == rest;
  }

  /** For every byte string escape_quoted writes a JSON string: no control byte, quote or backslash is left raw. */
  lemma {:induction false} EscapedIsJson(s: Text)
    ensures JsonChars(EscapeAll(s)) && forall i | 0 <= i < |EscapeAll(s)| :: EscapeAll(s)[i] >= 0x20
  {
    if s != [] {
      EscapedIsJson(s[1..]);
      ByteIsJson(s[0], EscapeAll(s[1..]));
    }
  }

  /** The letters of the short escapes, and the digits of the long ones. */
  lemma EscapesAre(c: Byte)
    ensures EscapeByte(c) ==
      match c
      case 0x22 => [0x5C, 0x22]
      case 0x5C => [0x5C, 0x5C]
      case 0x0A => [0x5C, 0x6E]
      case 0x0D => [0x5C, 0x72]
      case 0x09 => [0x5C, 0x74]
      case _ =>
        if c >= 0x20 then [c]
        else [0x5C, 0x75, 0x30, 0x30, 0x30 + c / 16, if c % 16 < 10 then 0x30 + c % 16 else 0x57 + c % 16]
  {
  }

  /* ---------- append_utf8 ---------- */

  function Utf8(p: nat): (s: Text)
    requires p < 0x11_0000
  {
    if p < 0x80 then [p]
    else if p < 0x800 then [0xC0 + p / 0x40, 0x80 + p % 0x40]
    else if p < 0x1_0000 then [0xE0 + p / 0x1000, 0x80 + p / 0x40 % 0x40, 0x80 + p % 0x40]
    else [0xF0 + p / 0x4_0000, 0x80 + p / 0x1000 % 0x40, 0x80 + p / 0x40 % 0x40, 0x80 + p % 0x40]
  }

  predicate Continuation(c: Byte) {
    0x80 <= c < 0xC0
  }

  /** Section 3 of RFC 3629: the code point of one well-formed sequence; shortest forms and no surrogates. */
  function FromUtf8(s: Text): Option<nat> {
    if |s| == 1 && s[0] < 0x80 then Some(s[0])
    else if |s| == 2 && 0xC2 <= s[0] < 0xE0 && Continuation(s[1]) then Some(Joined(s[0] - 0xC0, s[1..]))
    else if |s| == 3 && 0xE0 <= s[0] < 0xF0 && Continuation(s[1]) && Continuation(s[2]) then
      var p := Joined(s[0] - 0xE0, s[1..]);
      if p >= 0x800 && !Surrogate(p) then Some(p) else None
    else if |s| == 4 && 0xF0 <= s[0] < 0xF5 && Continuation(s[1]) && Continuation(s[2]) && Continuation(s[3]) then
      var p := Joined(s[0] - 0xF0, s[1..]);
      if 0x1_0000 <= p < 0x11_0000 then Some(p) else None
    else None
  }

  /** The payload bits of the lead byte, then six from every continuation byte. */
  function Joined(lead: nat, rest: Text): nat
    decreases |rest|
  {
    if rest == [] || !Continuation(rest[0]) then lead else Joined(lead * 0x40 + (rest[0] - 0x80), rest[1..])
  }

  predicate HighSurrogate(u: nat) {
    0xD800 <= u <= 0xDBFF
  }

  predicate LowSurrogate(u: nat) {
    0xDC00 <= u <= 0xDFFF
  }

  predicate Surrogate(u: nat) {
    0xD800 <= u <= 0xDFFF
  }

  lemma Utf8IsWellFormed(p: nat)
    requires p < 0x11_0000 && !Surrogate(p)
    ensures FromUtf8(Utf8(p)) == Some(p)
  {
    var s := Utf8(p);
    var a, b := p / 0x40, p / 0x1000;
    assert a == b * 0x40 + a % 0x40;
    assert b == p / 0x4_0000 * 0x40 + b % 0x40;
    if |s| == 2 {
      JoinedOne(p, s[1..]);
    } else if |s| == 3 {
      JoinedTwo(p, s[1..]);
    } else if |s| == 4 {
      JoinedThree(p, s[1..]);
    }
    hide Joined;
  }

  /** The last six bits follow the rest. */
  lemma JoinedOne(p: nat, rest: Text)
    requires |rest| >= 1 && rest == [0x80 + p % 0x40]
    ensures Joined(p / 0x40, rest) == p
  {
    assert p == p / 0x40 * 0x40 + p % 0x40;
    assert Joined(p / 0x40, rest) == Joined(p, rest[1..]);
  }

  lemma JoinedTwo(p: nat, rest: Text)
    requires |rest| == 2 && rest == [0x80 + p / 0x40 % 0x40, 0x80 + p % 0x40]
    ensures Joined(p / 0x1000, rest) == p
  {
    var a := p / 0x40;
    assert a == p / 0x1000 * 0x40 + a % 0x40;
    assert Joined(p / 0x1000, rest) == Joined(a, rest[1..]);
    JoinedOne(p, rest[1..]);
  }

  lemma JoinedThree(p: nat, rest: Text)
    requires |rest| == 3 && rest == [0x80 + p / 0x1000 % 0x40, 0x80 + p / 0x40 % 0x40, 0x80 + p % 0x40]
    ensures Joined(p / 0x4_0000, rest) == p
  {
    var b := p / 0x1000;
    assert b == p / 0x4_0000 * 0x40 + b % 0x40;
    assert Joined(p / 0x4_0000, rest) == Joined(b, rest[1..]);
    JoinedTwo(p, rest[1..]);
  }

  /* ---------- find_string_field ---------- */

  function Pair(high: nat, low: nat): (p: nat)
    requires HighSurrogate(high) && LowSurrogate(low)
    ensures 0x1_0000 <= p < 0x11_0000
  {
    0x1_0000 + (high - 0xD800) * 0x400 + (low - 0xDC00)
  }

  /** The byte a one-letter escape stands for. */
  function Unescaped(c: Byte): Option<Byte> {
    if c == QUOTE || c == BACKSLASH || c == SLASH then Some(c)
    else if c == 0x62 then Some(0x08)
    else if c == 0x66 then Some(0x0C)
    else if c == 0x6E then Some(0x0A)
    else if c == 0x72 then Some(0x0D)
    else if c == 0x74 then Some(0x09)
    else None
  }

  /** A \u escape whose u stands at i: the code point and the index behind the escape. */
  function UnicodeEscape(line: Text, i: nat): (r: Option<(nat, nat)>)
    ensures r.Some? ==> r.value.0 < 0x11_0000 && i < r.value.1 <= |line|
  {
    match Hex4(line, i + 1)
    case None => None
    case Some(unit) =>
      if LowSurrogate(unit) then None
      else if HighSurrogate(unit) then
        var low :=
          if i + 6 < |line| && line[i + 5] == BACKSLASH && line[i + 6] == LOWER_U then Hex4(line, i + 7) else None;
        if low.Some? && LowSurrogate(low.value) then Some((Pair(unit, low.value), i + 11)) else None
      else Some((unit, i + 5))
  }

  /** The string whose text goes on at i, up to its closing quote. */
  function StringFrom(line: Text, i: nat): Option<Text>
    decreases |line| - i
  {
    if i >= |line| then None
    else if line[i] == QUOTE then Some([])
    else if line[i] != BACKSLASH then Then([line[i]], StringFrom(line, i + 1))
    else if i + 1 >= |line| then None
    else if line[i + 1] == LOWER_U then
      match UnicodeEscape(line, i + 1)
      case None => None
      case Some((point, next)) => Then(Utf8(point), StringFrom(line, next))
    else match Unescaped(line[i + 1])
      case None => None
      case Some(c) => Then([c], StringFrom(line, i + 2))
  }

  function Then(head: Text, tail: Option<Text>): Option<Text> {
    if tail.Some? then Some(head + tail.value) else None
  }

  predicate IsSpace(c: Byte) {
    c == 0x20 || 0x09 <= c <= 0x0D
  }

  predicate MatchesAt(line: Text, pattern: Text, at: nat) {
    at + |pattern| <= |line| && line[at..at + |pattern|] == pattern
  }

  /** string_view::find from index at on. */
  function Find(line: Text, pattern: Text, at: nat): (r: Option<nat>)
    requires at <= |line|
    ensures r.Some? ==> at <= r.value && MatchesAt(line, pattern, r.value)
    ensures r.Some? ==> forall k | at <= k < r.value :: !MatchesAt(line, pattern, k)
    ensures r == None ==> forall k | at <= k <= |line| :: !MatchesAt(line, pattern, k)
    decreases |line| - at
  {
    if MatchesAt(line, pattern, at) then Some(at) else if at == |line| then None else Find(line, pattern, at + 1)
  }

  function SkipSpace(line: Text, i: nat): (r: nat)
    requires i <= |line|
    ensures i <= r <= |line| && (forall k | i <= k < r :: IsSpace(line[k])) && (r < |line| ==> !IsSpace(line[r]))
    decreases |line| - i
  {
    if i < |line| && IsSpace(line[i]) then SkipSpace(line, i + 1) else i
  }

  function Key(name: Text): Text {
    [QUOTE] + name + [QUOTE, COLON]
  }

  /** find_field_value */
  function FieldValue(line: Text, name: Text): (r: Option<nat>)
    ensures r.Some? ==> r.value <= |line|
  {
    match Find(line, Key(name), 0)
    case None => None
    case Some(at) => Some(SkipSpace(line, at + |Key(name)|))
  }

  function StringField(line: Text, name: Text): Option<Text> {
    match FieldValue(line, name)
    case None => None
    case Some(at) => if at >= |line| || line[at] != QUOTE then None else StringFrom(line, at + 1)
  }

  method FindFieldValue(line: Text, name: Text) returns (at: Option<nat>)
    ensures at == FieldValue(line, name)
  {
    var pos := Find(line, Key(name), 0);
    if pos == None {
      return None;
    }
    var i := pos.value + |Key(name)|;
    while i < |line| && IsSpace(line[i])
      invariant i <= |line| && SkipSpace(line, i) == SkipSpace(line, pos.value + |Key(name)|)
    {
      i := i + 1;
    }
    return Some(i);
  }

  method FindStringField(line: Text, name: Text) returns (value: Option<Text>)
    ensures value == StringField(line, name)
  {
    hide UnicodeEscape, Unescaped, Utf8;
    var at := FindFieldValue(line, name);
    if at == None || at.value >= |line| || line[at.value] != QUOTE {
      return None;
    }
    var out: Text := [];
    var i := at.value + 1;
    ThenNothing(StringFrom(line, i));
    while i < |line|
      invariant Then(out, StringFrom(line, i)) == StringFrom(line, at.value + 1)
      decreases |line| - i
    {
      ghost var was := out;
      if line[i] == QUOTE {
        assert out + [] == out;
        return Some(out);
      }
      if line[i] != BACKSLASH {
        ThenThen(out, [line[i]], StringFrom(line, i + 1));
        out := out + [line[i]];
        i := i + 1;
        continue;
      }
      if i + 1 >= |line| {
        return None;
      }
      if line[i + 1] == LOWER_U {
        var escape := UnicodeEscape(line, i + 1);
        if escape == None {
          return None;
        }
        ThenThen(out, Utf8(escape.value.0), StringFrom(line, escape.value.1));
        out := out + Utf8(escape.value.0);
        i := escape.value.1;
      } else {
        var c := Unescaped(line[i + 1]);
        if c == None {
          return None;
        }
        ThenThen(out, [c.value], StringFrom(line, i + 2));
        out := out + [c.value];
        i := i + 2;
      }
    }
    return None;
  }

  lemma ThenNothing(tail: Option<Text>)
    ensures Then([], tail) == tail
  {
    if tail.Some? {
      assert [] + tail.value == tail.value;
    }
  }

  lemma ThenThen(a: Text, b: Text, tail: Option<Text>)
    ensures Then(a, Then(b, tail)) == Then(a + b, tail)
  {
    if tail.Some? {
      assert a + (b + tail.value) == (a + b) + tail.value;
    }
  }

  /* ---------- reading undoes writing ---------- */

  lemma UnitRead(line: Text, i: nat, v: nat)
    requires v < 0x1_0000 && MatchesAt(line, Unit(v), i)
    ensures line[i] == BACKSLASH && line[i + 1] == LOWER_U && Hex4(line, i + 2) == Some(v)
  {
    MatchSplit(line, [BACKSLASH, LOWER_U], Hex4Text(v), i);
    assert line[i..i + 2][0] == BACKSLASH && line[i..i + 2][1] == LOWER_U;
    Hex4OfText(line, i + 2, v);
  }

  /** One escaped byte. */
  lemma EscapedByteRead(line: Text, i: nat, c: Byte)
    requires MatchesAt(line, EscapeByte(c), i)
    ensures StringFrom(line, i) == Then([c], StringFrom(line, i + |EscapeByte(c)|))
  {
    var e := EscapeByte(c);
    if |e| == 6 {
      UnitRead(line, i, c);
      hide Unit, Hex4, MatchesAt;
    } else {
      assert line[i] == line[i..i + |e|][0] && (|e| == 2 ==> line[i + 1] == line[i..i + |e|][1]);
      hide UnicodeEscape, MatchesAt;
    }
  }

  lemma {:induction false} EscapedAllRead(line: Text, i: nat, s: Text)
    requires MatchesAt(line, EscapeAll(s) + [QUOTE], i)
    ensures StringFrom(line, i) == Some(s)
    decreases |s|
  {
    hide EscapeByte, UnicodeEscape, Unescaped;
    if s == [] {
      assert line[i..i + 1][0] == QUOTE;
    } else {
      var e, rest := EscapeByte(s[0]), EscapeAll(s[1..]) + [QUOTE];
      assert EscapeAll(s) + [QUOTE] == e + rest;
      MatchSplit(line, e, rest, i);
      EscapedByteRead(line, i, s[0]);
      EscapedAllRead(line, i + |e|, s[1..]);
      assert [s[0]] + s[1..] == s;
    }
  }

  lemma MatchSplit(line: Text, a: Text, b: Text, i: nat)
    requires MatchesAt(line, a + b, i)
    ensures MatchesAt(line, a, i) && MatchesAt(line, b, i + |a|)
  {
    var s := line[i..i + |a + b|];
    assert s[..|a|] == a && s[|a|..] == b;
  }

  /** A key, blanks, and an escaped string at its first match: the reader returns the string, whatever its bytes. */
  lemma StringFieldUndoesEscape(line: Text, name: Text, blanks: Text, s: Text, at: nat)
    requires Find(line, [QUOTE] + name + [QUOTE, COLON], 0) == Some(at)
    requires forall k | 0 <= k < |blanks| :: blanks[k] in {0x20, 0x09, 0x0A, 0x0B, 0x0C, 0x0D}
    requires MatchesAt(line, blanks + Escaped(s), at + |name| + 3)
    ensures StringField(line, name) == Some(s)
  {
    hide Find, StringFrom, EscapeAll;
    var i := at + |Key(name)|;
    MatchSplit(line, blanks, Escaped(s), i);
    var q := i + |blanks|;
    assert Escaped(s) == [QUOTE] + (EscapeAll(s) + [QUOTE]);
    MatchSplit(line, [QUOTE], EscapeAll(s) + [QUOTE], q);
    assert line[q..q + 1][0] == QUOTE;
    assert forall k | i <= k < q :: line[k] == blanks[k - i];
    SkippedTo(line, i, q);
    EscapedAllRead(line, q + 1, s);
  }

  /** Nothing but a quote may follow the key and the blanks. */
  lemma NoStringThere(line: Text, name: Text, blanks: Text, at: nat)
    requires Find(line, [QUOTE] + name + [QUOTE, COLON], 0) == Some(at)
    requires forall k | 0 <= k < |blanks| :: blanks[k] in {0x20, 0x09, 0x0A, 0x0B, 0x0C, 0x0D}
    requires MatchesAt(line, blanks, at + |name| + 3)
    requires var q := at + |name| + 3 + |blanks|;
             q < |line| ==> line[q] !in {QUOTE, 0x20, 0x09, 0x0A, 0x0B, 0x0C, 0x0D}
    ensures StringField(line, name) == None
  {
    hide Find, StringFrom, Key, SkipSpace, IsSpace, MatchesAt;
    KeyIs(name);
    BlanksPassed(line, at + |Key(name)|, blanks);
    assert FieldValue(line, name) == Some(at + |Key(name)| + |blanks|);
  }

  lemma BlanksPassed(line: Text, i: nat, blanks: Text)
    requires MatchesAt(line, blanks, i)
    requires forall k | 0 <= k < |blanks| :: blanks[k] in {0x20, 0x09, 0x0A, 0x0B, 0x0C, 0x0D}
    requires i + |blanks| < |line| ==> line[i + |blanks|] !in {0x20, 0x09, 0x0A, 0x0B, 0x0C, 0x0D}
    ensures SkipSpace(line, i) == i + |blanks|
  {
    hide SkipSpace;
    var q := i + |blanks|;
    forall k | i <= k < q ensures IsSpace(line[k]) {
      assert line[k] == line[i..q][k - i];
    }
  }

  lemma SkippedTo(line: Text, i: nat, q: nat)
    requires i <= q < |line| && (forall k | i <= k < q :: IsSpace(line[k])) && !IsSpace(line[q])
    ensures SkipSpace(line, i) == q
  {
    hide SkipSpace;
  }

  /* ---------- escapes from other writers ---------- */

  /** The one-letter escapes of section 7 of RFC 8259. */
  lemma EscapeTable(line: Text, i: nat)
    requires i + 1 < |line| && line[i] == BACKSLASH && line[i + 1] != LOWER_U
    ensures var rest := StringFrom(line, i + 2);
            StringFrom(line, i) ==
              match line[i + 1]
              case 0x22 => Then([0x22], rest)
              case 0x5C => Then([0x5C], rest)
              case 0x2F => Then([0x2F], rest)
              case 0x62 => Then([0x08], rest)
              case 0x66 => Then([0x0C], rest)
              case 0x6E => Then([0x0A], rest)
              case 0x72 => Then([0x0D], rest)
              case 0x74 => Then([0x09], rest)
              case _ => None
  {
  }

  /** Section 7 of RFC 8259: one \u escape, or two for a code point outside the basic plane. */
  function UnicodeText(p: nat): Text
    requires p < 0x11_0000 && !Surrogate(p)
  {
    if p < 0x1_0000 then Unit(p)
    else
      var v := p - 0x1_0000;
      Unit(0xD800 + v / 0x400) + Unit(0xDC00 + v % 0x400)
  }

  /** Every code point's escape is read as its UTF-8; Utf8IsWellFormed says that it is. */
  lemma UnicodeTextRead(line: Text, i: nat, p: nat)
    requires p < 0x11_0000 && !Surrogate(p) && MatchesAt(line, UnicodeText(p), i)
    ensures StringFrom(line, i) == Then(Utf8(p), StringFrom(line, i + |UnicodeText(p)|))
  {
    hide Utf8, Hex4Text, Hex4, Unit, MatchesAt;
    if p < 0x1_0000 {
      UnitRead(line, i, p);
    } else {
      var v := p - 0x1_0000;
      MatchSplit(line, Unit(0xD800 + v / 0x400), Unit(0xDC00 + v % 0x400), i);
      UnitRead(line, i, 0xD800 + v / 0x400);
      UnitRead(line, i + 6, 0xDC00 + v % 0x400);
    }
  }

  /** A low surrogate alone, or a high one without its partner, is refused. */
  lemma LoneSurrogateRefused(line: Text, i: nat, unit: nat)
    requires i + 1 < |line| && line[i] == BACKSLASH && line[i + 1] == LOWER_U && Hex4(line, i + 2) == Some(unit)
    requires Surrogate(unit)
    ensures StringFrom(line, i).Some? ==>
      && HighSurrogate(unit) && i + 7 < |line| && line[i + 6] == BACKSLASH && line[i + 7] == LOWER_U
      && Hex4(line, i + 8).Some? && LowSurrogate(Hex4(line, i + 8).value)
  {
  }

  /* ---------- numbers ---------- */

  const MAX_U32: nat := 0xFFFF_FFFF

  predicate IsDigit(c: Byte) {
    0x30 <= c <= 0x39
  }

  /** The number a run of digits stands for. */
  function Decimal(s: Text): (v: int) {
    if s == [] then 0 else Decimal(s[..|s| - 1]) * 10 + (s[|s| - 1] - ZERO)
  }

  predicate Digits(s: Text) {
    forall k | 0 <= k < |s| :: IsDigit(s[k])
  }

  /** The end of the digits from i on. */
  function DigitsEnd(line: Text, i: nat): (r: nat)
    requires i <= |line|
    ensures i <= r <= |line| && (forall k | i <= k < r :: IsDigit(line[k])) && (r < |line| ==> !IsDigit(line[r]))
    decreases |line| - i
  {
    if i < |line| && IsDigit(line[i]) then DigitsEnd(line, i + 1) else i
  }

  /** What find_uint_field should return: the number in front, if there is one and it fits 32 bits. */
  function UintField(line: Text, name: Text): Option<nat> {
    match FieldValue(line, name)
    case None => None
    case Some(at) =>
      var digits := line[at..DigitsEnd(line, at)];
      DecimalNatural(digits);
      if digits == [] || Decimal(digits) > MAX_U32 then None else Some(Decimal(digits))
  }

  lemma {:induction false} DecimalNatural(s: Text)
    ensures Digits(s) ==> Decimal(s) >= 0
  {
    if s != [] {
      DecimalNatural(s[..|s| - 1]);
    }
  }

  /** Longer numbers are not smaller. */
  lemma {:induction false} DecimalGrows(s: Text, k: nat)
    requires Digits(s) && k <= |s|
    ensures 0 <= Decimal(s[..k]) <= Decimal(s)
  {
    DecimalNatural(s);
    if k == |s| {
      assert s[..k] == s;
    } else {
      var t := s[..|s| - 1];
      DecimalGrows(t, k);
      assert t[..k] == s[..k];
    }
  }

  lemma PrefixGrows(line: Text, at: nat, i: nat, end: nat)
    requires at <= i <= end <= |line| && forall k | at <= k < end :: IsDigit(line[k])
    ensures Decimal(line[at..i]) <= Decimal(line[at..end])
  {
    assert line[at..i] == line[at..end][..i - at];
    DecimalGrows(line[at..end], i - at);
  }

  lemma DecimalOfNone(s: Text)
    requires s == []
    ensures Decimal(s) == 0
  {
  }

  lemma DecimalOfNext(line: Text, at: nat, i: nat)
    requires at <= i < |line|
    ensures Decimal(line[at..i + 1]) == Decimal(line[at..i]) * 10 + (line[i] - ZERO)
  {
    assert line[at..i + 1][..i - at] == line[at..i];
  }

  /** The loop gives up at the first prefix that does not fit; that is right because longer numbers are larger. */
  method FindUintField(line: Text, name: Text) returns (value: Option<nat>)
    ensures value == UintField(line, name)
  {
    hide Decimal, DigitsEnd, Digits, FieldValue;
    var start := FindFieldValue(line, name);
    if start == None {
      return None;
    }
    var at := start.value;
    DecimalOfNone(line[at..at]);
    var acc, any, i := 0, false, at;
    while i < |line| && IsDigit(line[i])
      invariant at <= i <= DigitsEnd(line, at) && any == (i > at)
      invariant acc == Decimal(line[at..i]) && 0 <= acc <= MAX_U32
    {
      DecimalOfNext(line, at, i);
      acc := acc * 10 + (line[i] - ZERO);
      if acc > MAX_U32 {
        PrefixGrows(line, at, i + 1, DigitsEnd(line, at));
        return None;
      }
      any := true;
      i := i + 1;
    }
    if !any {
      return None;
    }
    return Some(acc);
  }

  /** emit_u32 and emit_u64: "%llu" */
  function Printed(v: nat): (s: Text)
    ensures s != []
  {
    if v < 10 then [ZERO + v] else Printed(v / 10) + [ZERO + v % 10]
  }

  lemma {:induction false} PrintedIsNumber(v: nat)
    ensures Digits(Printed(v)) && Decimal(Printed(v)) == v
  {
    if v >= 10 {
      PrintedIsNumber(v / 10);
      var s := Printed(v);
      assert s[..|s| - 1] == Printed(v / 10);
    } else {
      assert Printed(v)[..0] == [];
    }
  }

  /** A printed number at the first match of the key, and no digit behind it: read back exactly when it fits 32 bits. */
  lemma UintFieldUndoesPrint(line: Text, name: Text, v: nat, at: nat)
    requires Find(line, [QUOTE] + name + [QUOTE, COLON], 0) == Some(at)
    requires var i := at + |name| + 3;
             MatchesAt(line, Printed(v), i) && (i + |Printed(v)| < |line| ==> !IsDigit(line[i + |Printed(v)|]))
    ensures UintField(line, name) == if v < 0x1_0000_0000 then Some(v) else None
  {
    KeyIs(name);
    hide *;
    PrintedRead(line, name, v, at);
  }

  lemma PrintedRead(line: Text, name: Text, v: nat, at: nat)
    requires Find(line, Key(name), 0) == Some(at)
    requires var i := at + |Key(name)|;
             MatchesAt(line, Printed(v), i) && (i + |Printed(v)| < |line| ==> !IsDigit(line[i + |Printed(v)|]))
    ensures UintField(line, name) == if v <= MAX_U32 then Some(v) else None
  {
    hide *;
    var i := at + |Key(name)|;
    PrintedIsNumber(v);
    DigitsRead(line, i, Printed(v));
    FieldAt(line, name, at);
    NumberAt(line, name, i, Printed(v));
  }

  lemma KeyIs(name: Text)
    ensures Key(name) == [QUOTE] + name + [QUOTE, COLON] && |Key(name)| == |name| + 3 && MAX_U32 == 0xFFFF_FFFF
  {
  }

  lemma FieldAt(line: Text, name: Text, at: nat)
    requires Find(line, Key(name), 0) == Some(at)
    requires at + |Key(name)| < |line| && IsDigit(line[at + |Key(name)|])
    ensures FieldValue(line, name) == Some(at + |Key(name)|)
  {
    hide Find, Key, SkipSpace, MatchesAt, IsSpace, IsDigit;
    NoSpace(line, at + |Key(name)|);
  }

  lemma NumberAt(line: Text, name: Text, i: nat, s: Text)
    requires FieldValue(line, name) == Some(i) && s != [] && Decimal(s) >= 0
    requires DigitsEnd(line, i) == i + |s| && line[i..i + |s|] == s
    ensures UintField(line, name) == if Decimal(s) <= MAX_U32 then Some(Decimal(s)) else None
  {
    hide FieldValue, DigitsEnd, Decimal;
  }

  /** A run of digits with no digit behind it is read as a whole. */
  lemma DigitsRead(line: Text, i: nat, s: Text)
    requires s != [] && Digits(s) && MatchesAt(line, s, i)
    requires i + |s| < |line| ==> !IsDigit(line[i + |s|])
    ensures i < |line| && IsDigit(line[i])
    ensures DigitsEnd(line, i) == i + |s| && line[i..i + |s|] == s
  {
    assert forall k | i <= k < i + |s| :: line[k] == line[i..i + |s|][k - i];
    DigitsEndIs(line, i, i + |s|);
    assert IsDigit(s[0]);
  }

  lemma NoSpace(line: Text, i: nat)
    requires i < |line| && IsDigit(line[i])
    ensures SkipSpace(line, i) == i
  {
  }

  lemma DigitsEndIs(line: Text, i: nat, end: nat)
    requires i <= end <= |line| && (forall k | i <= k < end :: IsDigit(line[k]))
    requires end < |line| ==> !IsDigit(line[end])
    ensures DigitsEnd(line, i) == end
  {
    hide DigitsEnd;
  }
}
