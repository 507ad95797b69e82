/** Canonical text read back: the text determines the value. */
module JsonReading {
  import opened Optional
  import opened CanonicalJson

  /******* The parser: the grammar of RFC 8259 without insignificant whitespace. It is wider for
           numbers, where any run of digits, signs, points and exponent letters is read as one. *******/

  function HexValue(u: CodeUnit): Option<int> {
    if 48 <= u <= 57 then Some(u as int - 48)
    else if 97 <= u <= 102 then Some(u as int - 87)
    else if 65 <= u <= 70 then Some(u as int - 55)
    else None
  }

  function ParseHex4(t: Text): (r: Option<CodeUnit>)
    requires |t| >= 4
  {
    match (HexValue(t[0]), HexValue(t[1]), HexValue(t[2]), HexValue(t[3]))
    case (Some(a), Some(b), Some(c), Some(d)) =>
      var u := a * 4096 + b * 256 + c * 16 + d;
      if 0 <= u < 0x10000 then Some(u as CodeUnit) else None
    case _ => None
  }

  /** The character a two-character escape stands for. */
  function UnescapeUnit(u: CodeUnit): Option<CodeUnit> {
    if u == QUOTE || u == BACKSLASH || u == 47 then Some(u)
    else if u == 98 then Some(8)
    else if u == 116 then Some(9)
    else if u == 110 then Some(10)
    else if u == 102 then Some(12)
    else if u == 114 then Some(13)
    else None
  }

  datatype Parsed<+T> = Parsed(value: T, rest: Text)

  /** The rest of a string after its opening quote. */
  function ParseString(t: Text): (r: Option<Parsed<Text>>)
    ensures r.Some? ==> |r.value.rest| < |t|
  {
    if t == [] then None
    else if t[0] == QUOTE then Some(Parsed([], t[1..]))
    else if t[0] == BACKSLASH then
      if |t| >= 6 && t[1] == LETTER_U then
        match ParseHex4(t[2..6])
        case None => None
        case Some(u) => PrependUnit(u, ParseString(t[6..]))
      else if |t| >= 2 && UnescapeUnit(t[1]).Some? then
        PrependUnit(UnescapeUnit(t[1]).value, ParseString(t[2..]))
      else None
    else if t[0] < 32 then None
    else PrependUnit(t[0], ParseString(t[1..]))
  }

  function PrependUnit(u: CodeUnit, r: Option<Parsed<Text>>): Option<Parsed<Text>> {
    match r
    case None => None
    case Some(p) => Some(Parsed([u] + p.value, p.rest))
  }

  function NumberPrefix(t: Text): (n: nat)
    ensures n <= |t|
  {
    if t == [] || !IsNumberUnit(t[0]) then 0 else 1 + NumberPrefix(t[1..])
  }

  function ParseValue(t: Text): (r: Option<Parsed<Value>>)
    ensures r.Some? ==> |r.value.rest| < |t|
    decreases |t|, 0
  {
    if t == [] then None
    else if NULL <= t then Some(Parsed(VNull, t[4..]))
    else if TRUE <= t then Some(Parsed(VBool(true), t[4..]))
    else if FALSE <= t then Some(Parsed(VBool(false), t[5..]))
    else if t[0] == QUOTE then
      match ParseString(t[1..])
      case None => None
      case Some(p) => Some(Parsed(VStr(p.value), p.rest))
    else if t[0] == OPEN_BRACKET then
      if |t| > 1 && t[1] == CLOSE_BRACKET then Some(Parsed(VArr([]), t[2..]))
      else
        match ParseItems(t[1..])
        case None => None
        case Some(p) => Some(Parsed(VArr(p.value), p.rest))
    else if t[0] == OPEN_BRACE then
      if |t| > 1 && t[1] == CLOSE_BRACE then Some(Parsed(VObj(map[]), t[2..]))
      else
        match ParseMembers(t[1..])
        case None => None
        case Some(p) => Some(Parsed(VObj(p.value), p.rest))
    else
      var n := NumberPrefix(t);
      if n == 0 then None else Some(Parsed(VNum(t[..n]), t[n..]))
  }

  function ParseItems(t: Text): (r: Option<Parsed<seq<Value>>>)
    ensures r.Some? ==> |r.value.rest| < |t|
    decreases |t|, 1
  {
    match ParseValue(t)
    case None => None
    case Some(p) =>
      if p.rest == [] then None
      else if p.rest[0] == CLOSE_BRACKET then Some(Parsed([p.value], p.rest[1..]))
      else if p.rest[0] == COMMA then
        match ParseItems(p.rest[1..])
        case None => None
        case Some(q) => Some(Parsed([p.value] + q.value, q.rest))
      else None
  }

  function ParseMembers(t: Text): (r: Option<Parsed<map<Text, Value>>>)
    ensures r.Some? ==> |r.value.rest| < |t|
    decreases |t|, 1
  {
    if t == [] || t[0] != QUOTE then None
    else
      match ParseString(t[1..])
      case None => None
      case Some(k) =>
        if k.rest == [] || k.rest[0] != COLON then None
        else
          match ParseValue(k.rest[1..])
          case None => None
          case Some(p) =>
            if p.rest == [] then None
            else if p.rest[0] == CLOSE_BRACE then Some(Parsed(map[k.value := p.value], p.rest[1..]))
            else if p.rest[0] == COMMA then
              match ParseMembers(p.rest[1..])
              case None => None
              case Some(q) => Some(Parsed(q.value[k.value := p.value], q.rest))
            else None
  }

  /******* Parsing the canonical text back *******/

  lemma HexDigitRoundTrip(d: int)
    requires 0 <= d < 16
    ensures HexValue(HexDigit(d)) == Some(d)
  {
  }

  lemma HexRoundTrip(u: CodeUnit)
    ensures ParseHex4(Hex4(u)) == Some(u)
  {
    var cs := u as int / 16;
    var bs := cs / 16;
    HexDigitRoundTrip(bs / 16);
    HexDigitRoundTrip(bs % 16);
    HexDigitRoundTrip(cs % 16);
    HexDigitRoundTrip(u as int % 16);
  }

  lemma RawUnit(u: CodeUnit, t: Text)
    requires u >= 32 && u != QUOTE && u != BACKSLASH
    ensures ParseString([u] + t) == PrependUnit(u, ParseString(t))
  {
    assert ([u] + t)[1..] == t;
  }

  lemma EscapedUnit(u: CodeUnit, letter: CodeUnit, t: Text)
    requires letter != LETTER_U && UnescapeUnit(letter) == Some(u)
    ensures ParseString([BACKSLASH, letter] + t) == PrependUnit(u, ParseString(t))
  {
    var e := [BACKSLASH, letter] + t;
    assert e[0] == BACKSLASH && e[1] == letter && e[2..] == t;
  }

  lemma HexEscapeSplits(hex: Text, t: Text)
    requires |hex| == 4
    ensures var e := [BACKSLASH, LETTER_U] + hex + t;
            |e| >= 6 && e[0] == BACKSLASH && e[1] == LETTER_U && e[2..6] == hex && e[6..] == t
  {
  }

  lemma HexUnit(u: CodeUnit, t: Text)
    ensures ParseString([BACKSLASH, LETTER_U] + Hex4(u) + t) == PrependUnit(u, ParseString(t))
  {
    HexRoundTrip(u);
    HexEscapeSplits(Hex4(u), t);
  }

  lemma UnitRoundTrip(u: CodeUnit, t: Text)
    ensures ParseString(EscapeUnit(u) + t) == PrependUnit(u, ParseString(t))
  {
    if |EscapeUnit(u)| == 6 {
      HexUnit(u, t);
    } else if |EscapeUnit(u)| == 2 {
      EscapedUnit(u, EscapeUnit(u)[1], t);
      assert EscapeUnit(u) == [BACKSLASH, EscapeUnit(u)[1]];
    } else {
      RawUnit(u, t);
    }
  }

  lemma FirstTwo(s: Text, rest: Text)
    requires |s| > 1
    ensures s[..2] + rest == [s[0]] + ([s[1]] + rest)
  {
    assert s[..2] == [s[0]] + [s[1]];
    Associate([s[0]], [s[1]], rest);
  }

  lemma EscapePair(s: Text)
    requires |s| > 1 && IsHighSurrogate(s[0]) && IsLowSurrogate(s[1])
    ensures Escape(s) == [s[0]] + ([s[1]] + Escape(s[2..]))
  {
    assert Escape(s) == s[..2] + Escape(s[2..]);
    FirstTwo(s, Escape(s[2..]));
  }

  lemma EscapeNext(s: Text)
    requires s != [] && !(|s| > 1 && IsHighSurrogate(s[0]) && IsLowSurrogate(s[1]))
    ensures Escape(s) == EscapeUnit(s[0]) + Escape(s[1..])
  {
  }

  lemma Associate(a: Text, b: Text, c: Text)
    ensures a + b + c == a + (b + c)
  {
  }

  lemma GlueComma(a: Text, b: Text, close: Text, rest: Text)
    ensures a + [COMMA] + b + close + rest == a + ([COMMA] + (b + close + rest))
  {
  }

  lemma GluePair(u: CodeUnit, v: CodeUnit, b: Text, rest: Text)
    ensures ([u] + ([v] + b)) + [QUOTE] + rest == [u] + ([v] + (b + [QUOTE] + rest))
  {
    Glue([v], b, rest);
    Glue([u], [v] + b, rest);
  }

  lemma SplitFirst(s: Text)
    requires s != []
    ensures s == [s[0]] + s[1..]
  {
  }

  lemma SplitPair(s: Text)
    requires |s| > 1
    ensures s == [s[0]] + ([s[1]] + s[2..])
  {
  }

  lemma CancelPrefix(p: Text, a: Text, b: Text)
    requires p + a == p + b
    ensures a == b
  {
    assert (p + a)[|p|..] == a && (p + b)[|p|..] == b;
  }

  lemma Glue(a: Text, b: Text, rest: Text)
    ensures (a + b) + [QUOTE] + rest == a + (b + [QUOTE] + rest)
  {
  }

  /** `text`, placed after an opening quote, reads as `s` and leaves `rest`. */
  ghost predicate ReadsString(text: Text, s: Text, rest: Text) {
    ParseString(text) == Some(Parsed(s, rest))
  }

  lemma ReadsUnit(u: CodeUnit, text: Text, s: Text, rest: Text)
    requires ReadsString(text, s, rest)
    ensures ReadsString(EscapeUnit(u) + text, [u] + s, rest)
  {
    UnitRoundTrip(u, text);
  }

  lemma ReadsRaw(u: CodeUnit, text: Text, s: Text, rest: Text)
    requires ReadsString(text, s, rest)
    requires u >= 32 && u != QUOTE && u != BACKSLASH
    ensures ReadsString([u] + text, [u] + s, rest)
  {
    RawUnit(u, text);
  }

  lemma ReadsEnd(rest: Text)
    ensures ReadsString([QUOTE] + rest, [], rest)
  {
    assert ([QUOTE] + rest)[1..] == rest;
  }

  lemma ReadsRawPair(high: CodeUnit, low: CodeUnit, text: Text, s: Text, rest: Text)
    requires IsHighSurrogate(high) && IsLowSurrogate(low)
    requires ReadsString(text, s, rest)
    ensures ReadsString([high] + ([low] + text), [high] + ([low] + s), rest)
  {
    ReadsRaw(low, text, s, rest);
    ReadsRaw(high, [low] + text, [low] + s, rest);
  }

  lemma ReadsPair(s: Text, rest: Text)
    requires |s| > 1 && IsHighSurrogate(s[0]) && IsLowSurrogate(s[1])
    requires ReadsString(Escape(s[2..]) + [QUOTE] + rest, s[2..], rest)
    ensures ReadsString(Escape(s) + [QUOTE] + rest, s, rest)
  {
    var inner := Escape(s[2..]);
    ReadsRawPair(s[0], s[1], inner + [QUOTE] + rest, s[2..], rest);
    EscapePair(s);
    GluePair(s[0], s[1], inner, rest);
    SplitPair(s);
  }

  lemma ReadsNext(s: Text, rest: Text)
    requires s != [] && !(|s| > 1 && IsHighSurrogate(s[0]) && IsLowSurrogate(s[1]))
    requires ReadsString(Escape(s[1..]) + [QUOTE] + rest, s[1..], rest)
    ensures ReadsString(Escape(s) + [QUOTE] + rest, s, rest)
  {
    var text := Escape(s[1..]) + [QUOTE] + rest;
    ReadsUnit(s[0], text, s[1..], rest);
    SplitFirst(s);
    assert Escape(s) + [QUOTE] + rest == EscapeUnit(s[0]) + text by {
      EscapeNext(s);
      Glue(EscapeUnit(s[0]), Escape(s[1..]), rest);
    }
  }

  lemma {:induction false} StringRoundTrip(s: Text, rest: Text)
    ensures ReadsString(Escape(s) + [QUOTE] + rest, s, rest)
  {
    if s == [] {
      ReadsEnd(rest);
      assert Escape(s) + [QUOTE] + rest == [QUOTE] + rest;
    } else if |s| > 1 && IsHighSurrogate(s[0]) && IsLowSurrogate(s[1]) {
      StringRoundTrip(s[2..], rest);
      ReadsPair(s, rest);
    } else {
      StringRoundTrip(s[1..], rest);
      ReadsNext(s, rest);
    }
  }

  /** Nothing that could lengthen a number comes next. */
  predicate Delimited(rest: Text) {
    rest == [] || !IsNumberUnit(rest[0])
  }

  lemma {:induction false} NumberPrefixStops(digits: Text, rest: Text)
    requires forall u :: u in digits ==> IsNumberUnit(u)
    requires Delimited(rest)
    ensures NumberPrefix(digits + rest) == |digits|
  {
    if digits == [] {
      assert digits + rest == rest;
    } else {
      assert (digits + rest)[1..] == digits[1..] + rest;
      NumberPrefixStops(digits[1..], rest);
    }
  }

  lemma ItemSmaller(items: seq<Json>)
    requires items != []
    ensures Size(items[0]) <= ItemsSize(items) && ItemsSize(items[1..]) < ItemsSize(items)
  {
  }

  lemma MembersMeaningKeys(ms: seq<Member>, k: Text)
    ensures k in MembersMeaning(ms) <==> exists i :: 0 <= i < |ms| && ms[i].key == k && !ms[i].value.Undefined?
  {
    if ms != [] {
      MembersMeaningKeys(ms[1..], k);
      if exists i :: 0 <= i < |ms| && ms[i].key == k && !ms[i].value.Undefined? {
        var i :| 0 <= i < |ms| && ms[i].key == k && !ms[i].value.Undefined?;
        if i > 0 { assert ms[1..][i - 1] == ms[i]; }
      }
      if exists i :: 0 <= i < |ms[1..]| && ms[1..][i].key == k && !ms[1..][i].value.Undefined? {
        var i :| 0 <= i < |ms[1..]| && ms[1..][i].key == k && !ms[1..][i].value.Undefined?;
        assert ms[i + 1] == ms[1..][i];
      }
    }
  }

  lemma {:induction false} DefinedMeaning(ms: seq<Member>)
    requires DistinctKeys(ms)
    ensures MembersMeaning(Defined(ms)) == MembersMeaning(ms)
    ensures DistinctKeys(Defined(ms))
  {
    if ms != [] {
      assert forall i, j :: 0 <= i < j < |ms[1..]| ==> ms[1..][i].key != ms[1..][j].key;
      DefinedMeaning(ms[1..]);
      if !ms[0].value.Undefined? {
        var r := [ms[0]] + Defined(ms[1..]);
        assert r[1..] == Defined(ms[1..]);
        forall i, j | 0 <= i < j < |r| ensures r[i].key != r[j].key {
          assert r[j] in Defined(ms[1..]);
          assert r[j] in ms[1..];
          if i == 0 {
            var k :| 0 <= k < |ms[1..]| && ms[1..][k] == r[j];
            assert ms[k + 1] == r[j];
          }
        }
      }
    }
  }

  lemma MembersMeaningNext(ms: seq<Member>)
    requires ms != [] && !ms[0].value.Undefined?
    ensures MembersMeaning(ms) == MembersMeaning(ms[1..])[ms[0].key := Meaning(ms[0].value)]
    ensures |ms| == 1 ==> MembersMeaning(ms) == map[ms[0].key := Meaning(ms[0].value)]
  {
  }

  lemma {:induction false} InsertMeaning(le: (Text, Text) -> bool, m: Member, ms: seq<Member>)
    requires !m.value.Undefined?
    requires forall x :: x in ms ==> x.key != m.key && !x.value.Undefined?
    ensures MembersMeaning(Insert(le, m, ms)) == MembersMeaning([m] + ms)
  {
    assert ([m] + ms)[1..] == ms;
    if ms != [] && !le(m.key, ms[0].key) {
      assert ms[0] in ms;
      InsertMeaning(le, m, ms[1..]);
      InsertBehind(m, ms, Insert(le, m, ms[1..]));
    }
  }

  lemma InsertBehind(m: Member, ms: seq<Member>, tail: seq<Member>)
    requires ms != [] && ms[0].key != m.key && !m.value.Undefined? && !ms[0].value.Undefined?
    requires MembersMeaning(tail) == MembersMeaning([m] + ms[1..])
    ensures MembersMeaning([ms[0]] + tail) == MembersMeaning([m] + ms)
  {
    assert ([ms[0]] + tail)[1..] == tail && ([m] + ms)[1..] == ms && ([m] + ms[1..])[1..] == ms[1..];
    MembersMeaningNext([ms[0]] + tail);
    MembersMeaningNext([m] + ms);
    MembersMeaningNext([m] + ms[1..]);
    MembersMeaningNext(ms);
  }

  lemma SortedKeysDiffer(le: (Text, Text) -> bool, m: Member, ms: seq<Member>)
    requires forall x :: x in ms ==> x.key != m.key && !x.value.Undefined?
    ensures forall x :: x in Sort(le, ms) ==> x.key != m.key && !x.value.Undefined?
  {
    forall x | x in Sort(le, ms) ensures x in ms {
      assert x in multiset(Sort(le, ms)) && x in multiset(ms);
    }
  }

  lemma {:induction false} SortMeaning(le: (Text, Text) -> bool, ms: seq<Member>)
    requires DistinctKeys(ms)
    requires forall x :: x in ms ==> !x.value.Undefined?
    ensures MembersMeaning(Sort(le, ms)) == MembersMeaning(ms)
  {
    if ms != [] {
      var rest := ms[1..];
      assert forall i, j :: 0 <= i < j < |rest| ==> rest[i].key != rest[j].key;
      SortMeaning(le, rest);
      SortedKeysDiffer(le, ms[0], rest);
      InsertMeaning(le, ms[0], Sort(le, rest));
      MembersMeaningNext(ms);
      MembersMeaningNext([ms[0]] + Sort(le, rest));
      assert ([ms[0]] + Sort(le, rest))[1..] == Sort(le, rest);
    }
  }

  /** The members an object prints: the defined ones, sorted. */
  lemma PrintedMembers(le: (Text, Text) -> bool, ms: seq<Member>)
    requires DistinctKeys(ms)
    ensures MembersMeaning(Sort(le, Defined(ms))) == MembersMeaning(ms)
    ensures forall m :: m in Sort(le, Defined(ms)) <==> m in ms && !m.value.Undefined?
  {
    DefinedMeaning(ms);
    SortMeaning(le, Defined(ms));
    forall m ensures m in Sort(le, Defined(ms)) <==> m in Defined(ms) {
      assert m in Sort(le, Defined(ms)) <==> m in multiset(Sort(le, Defined(ms)));
      assert m in Defined(ms) <==> m in multiset(Defined(ms));
    }
  }

  /** `text` reads as the value, the items or the members, and leaves `rest`. */
  ghost predicate Reads(text: Text, v: Value, rest: Text) {
    ParseValue(text) == Some(Parsed(v, rest))
  }

  ghost predicate ReadsItems(text: Text, vs: seq<Value>, rest: Text) {
    ParseItems(text) == Some(Parsed(vs, rest))
  }

  ghost predicate ReadsMembers(text: Text, m: map<Text, Value>, rest: Text) {
    ParseMembers(text) == Some(Parsed(m, rest))
  }

  lemma ReadsWord(v: Json, rest: Text)
    requires v.Undefined? || v.NonFinite? || v.Null? || v.Bool?
    ensures forall le :: Reads(Print(le, v) + rest, Meaning(v), rest)
  {
    var word := if v.Bool? then if v.b then TRUE else FALSE else NULL;
    var t := word + rest;
    assert t[..|word|] == word && t[|word|..] == rest && t[0] == word[0];
  }

  lemma ReadsNumber(digits: Text, rest: Text)
    requires digits != [] && forall u :: u in digits ==> IsNumberUnit(u)
    requires Delimited(rest)
    ensures Reads(digits + rest, VNum(digits), rest)
  {
    var t := digits + rest;
    NumberPrefixStops(digits, rest);
    assert t[0] == digits[0] && digits[0] in digits;
    assert t[..|digits|] == digits && t[|digits|..] == rest;
  }

  /** Text that opens with a quote, a bracket or a brace is not one of the three words. */
  lemma NotAWord(u: CodeUnit, text: Text)
    requires u == QUOTE || u == OPEN_BRACKET || u == OPEN_BRACE
    ensures ([u] + text)[0] == u && ([u] + text)[1..] == text
    ensures !(NULL <= [u] + text) && !(TRUE <= [u] + text) && !(FALSE <= [u] + text)
  {
    var t := [u] + text;
    assert t[0] != NULL[0] && t[0] != TRUE[0] && t[0] != FALSE[0];
  }

  lemma ReadsQuoted(text: Text, s: Text, rest: Text)
    requires ReadsString(text, s, rest)
    ensures Reads([QUOTE] + text, VStr(s), rest)
  {
    NotAWord(QUOTE, text);
  }

  lemma BracketStartsNoItem(text: Text)
    requires text != [] && text[0] == CLOSE_BRACKET
    ensures ParseItems(text).None?
  {
  }

  lemma ReadsArray(text: Text, vs: seq<Value>, rest: Text)
    requires ReadsItems(text, vs, rest)
    ensures Reads([OPEN_BRACKET] + text, VArr(vs), rest)
  {
    NotAWord(OPEN_BRACKET, text);
    if text != [] && text[0] == CLOSE_BRACKET {
      BracketStartsNoItem(text);
      assert false;
    }
  }

  lemma TwoUnits(u: CodeUnit, v: CodeUnit, rest: Text)
    ensures var t := [u] + [v] + rest; |t| > 1 && t[0] == u && t[1] == v && t[2..] == rest && t == [u] + ([v] + rest)
  {
  }

  lemma ReadsEmptyArray(rest: Text)
    ensures Reads([OPEN_BRACKET] + [CLOSE_BRACKET] + rest, VArr([]), rest)
  {
    TwoUnits(OPEN_BRACKET, CLOSE_BRACKET, rest);
    NotAWord(OPEN_BRACKET, [CLOSE_BRACKET] + rest);
  }

  lemma ReadsObject(text: Text, m: map<Text, Value>, rest: Text)
    requires ReadsMembers(text, m, rest)
    ensures Reads([OPEN_BRACE] + text, VObj(m), rest)
  {
    NotAWord(OPEN_BRACE, text);
  }

  lemma ReadsEmptyObject(rest: Text)
    ensures Reads([OPEN_BRACE] + [CLOSE_BRACE] + rest, VObj(map[]), rest)
  {
    TwoUnits(OPEN_BRACE, CLOSE_BRACE, rest);
    NotAWord(OPEN_BRACE, [CLOSE_BRACE] + rest);
  }

  lemma LastItem(t: Text, v: Value, rest: Text)
    requires Reads(t, v, [CLOSE_BRACKET] + rest)
    ensures ReadsItems(t, [v], rest)
  {
    assert ([CLOSE_BRACKET] + rest)[1..] == rest;
  }

  lemma NextItem(t: Text, v: Value, inner: Text, vs: seq<Value>, rest: Text)
    requires Reads(t, v, [COMMA] + inner)
    requires ReadsItems(inner, vs, rest)
    ensures ReadsItems(t, [v] + vs, rest)
  {
    assert ([COMMA] + inner)[1..] == inner;
  }

  lemma LastMember(text: Text, key: Text, value: Text, v: Value, rest: Text)
    requires ReadsString(text, key, [COLON] + value)
    requires Reads(value, v, [CLOSE_BRACE] + rest)
    ensures ReadsMembers([QUOTE] + text, map[key := v], rest)
  {
    assert ([QUOTE] + text)[1..] == text && ([COLON] + value)[1..] == value;
    assert ([CLOSE_BRACE] + rest)[1..] == rest;
  }

  lemma NextMember(text: Text, key: Text, value: Text, v: Value, inner: Text, m: map<Text, Value>, rest: Text)
    requires ReadsString(text, key, [COLON] + value)
    requires Reads(value, v, [COMMA] + inner)
    requires ReadsMembers(inner, m, rest)
    ensures ReadsMembers([QUOTE] + text, m[key := v], rest)
  {
    assert ([QUOTE] + text)[1..] == text && ([COLON] + value)[1..] == value;
    assert ([COMMA] + inner)[1..] == inner;
  }

  lemma ReadsPrintedString(le: (Text, Text) -> bool, s: Text, rest: Text)
    ensures Reads(Print(le, Str(s)) + rest, VStr(s), rest)
  {
    StringRoundTrip(s, rest);
    ReadsQuoted(Escape(s) + [QUOTE] + rest, s, rest);
    assert Print(le, Str(s)) + rest == [QUOTE] + (Escape(s) + [QUOTE] + rest);
  }

  lemma ReadsPrintedArray(le: (Text, Text) -> bool, items: seq<Json>, rest: Text)
    requires items != [] ==> ReadsItems(PrintItems(le, items) + [CLOSE_BRACKET] + rest, ItemsMeaning(items), rest)
    ensures Reads(Print(le, Arr(items)) + rest, VArr(ItemsMeaning(items)), rest)
  {
    var inner := PrintItems(le, items) + [CLOSE_BRACKET] + rest;
    assert Print(le, Arr(items)) + rest == [OPEN_BRACKET] + inner;
    if items == [] {
      ReadsEmptyArray(rest);
      assert [OPEN_BRACKET] + inner == [OPEN_BRACKET] + [CLOSE_BRACKET] + rest;
    } else {
      ReadsArray(inner, ItemsMeaning(items), rest);
    }
  }

  lemma ReadsBraces(inside: Text, m: map<Text, Value>, rest: Text)
    requires inside == [] ==> m == map[]
    requires inside != [] ==> ReadsMembers(inside + [CLOSE_BRACE] + rest, m, rest)
    ensures Reads([OPEN_BRACE] + inside + [CLOSE_BRACE] + rest, VObj(m), rest)
  {
    assert [OPEN_BRACE] + inside + [CLOSE_BRACE] + rest == [OPEN_BRACE] + (inside + [CLOSE_BRACE] + rest);
    if inside == [] {
      ReadsEmptyObject(rest);
    } else {
      ReadsObject(inside + [CLOSE_BRACE] + rest, m, rest);
    }
  }

  /** Reading the canonical text of a value gives back what the value means, and nothing of what
      follows it is consumed. */
  lemma {:induction false} ParsePrinted(le: (Text, Text) -> bool, v: Json, rest: Text)
    requires WellFormed(v)
    requires Delimited(rest)
    ensures Reads(Print(le, v) + rest, Meaning(v), rest)
    decreases Size(v), 0
  {
    match v
    case Num(digits) =>
      ReadsNumber(digits, rest);
    case Str(s) =>
      ReadsPrintedString(le, s, rest);
    case Arr(items) =>
      if items != [] { ParsePrintedItems(le, items, rest); }
      ReadsPrintedArray(le, items, rest);
    case Obj(members) =>
      ParsePrintedObject(le, members, rest);
    case _ =>
      ReadsWord(v, rest);
  }

  lemma {:induction false} ParsePrintedObject(le: (Text, Text) -> bool, members: seq<Member>, rest: Text)
    requires WellFormed(Obj(members))
    ensures Reads(Print(le, Obj(members)) + rest, Meaning(Obj(members)), rest)
    decreases MembersSize(members), 3
  {
    var ms := Sort(le, Defined(members));
    PrintedMembers(le, members);
    if ms != [] { ParsePrintedMembers(le, ms, rest); }
    ReadsBraces(PrintMembers(le, ms), MembersMeaning(ms), rest);
  }

  lemma {:induction false} ParsePrintedItems(le: (Text, Text) -> bool, items: seq<Json>, rest: Text)
    requires items != []
    requires forall item :: item in items ==> WellFormed(item)
    ensures ReadsItems(PrintItems(le, items) + [CLOSE_BRACKET] + rest, ItemsMeaning(items), rest)
    decreases ItemsSize(items), 1
  {
    ItemSmaller(items);
    if |items| == 1 {
      ParsePrinted(le, items[0], [CLOSE_BRACKET] + rest);
      ReadsPrintedLastItem(le, items, rest);
    } else {
      var inner := PrintItems(le, items[1..]) + [CLOSE_BRACKET] + rest;
      ParsePrinted(le, items[0], [COMMA] + inner);
      ParsePrintedItems(le, items[1..], rest);
      ReadsPrintedNextItem(le, items, inner, rest);
    }
  }

  lemma ReadsPrintedLastItem(le: (Text, Text) -> bool, items: seq<Json>, rest: Text)
    requires |items| == 1
    requires Reads(Print(le, items[0]) + ([CLOSE_BRACKET] + rest), Meaning(items[0]), [CLOSE_BRACKET] + rest)
    ensures ReadsItems(PrintItems(le, items) + [CLOSE_BRACKET] + rest, ItemsMeaning(items), rest)
  {
    var t := PrintItems(le, items) + [CLOSE_BRACKET] + rest;
    assert t == Print(le, items[0]) + ([CLOSE_BRACKET] + rest);
    LastItem(t, Meaning(items[0]), rest);
    assert ItemsMeaning(items) == [Meaning(items[0])];
  }

  lemma ReadsPrintedNextItem(le: (Text, Text) -> bool, items: seq<Json>, inner: Text, rest: Text)
    requires |items| > 1
    requires inner == PrintItems(le, items[1..]) + [CLOSE_BRACKET] + rest
    requires Reads(Print(le, items[0]) + ([COMMA] + inner), Meaning(items[0]), [COMMA] + inner)
    requires ReadsItems(inner, ItemsMeaning(items[1..]), rest)
    ensures ReadsItems(PrintItems(le, items) + [CLOSE_BRACKET] + rest, ItemsMeaning(items), rest)
  {
    var t := PrintItems(le, items) + [CLOSE_BRACKET] + rest;
    GlueComma(Print(le, items[0]), PrintItems(le, items[1..]), [CLOSE_BRACKET], rest);
    NextItem(t, Meaning(items[0]), inner, ItemsMeaning(items[1..]), rest);
  }

  /** How one member's text, followed by `after`, splits at its opening quote and its colon. */
  lemma PrintedMember(le: (Text, Text) -> bool, m: Member, after: Text)
    ensures PrintMember(le, m) + after == [QUOTE] + (Escape(m.key) + [QUOTE] + ([COLON] + (Print(le, m.value) + after)))
  {
  }

  lemma PrintedNextMember(le: (Text, Text) -> bool, ms: seq<Member>, rest: Text)
    requires |ms| > 1
    ensures PrintMembers(le, ms) + [CLOSE_BRACE] + rest ==
            PrintMember(le, ms[0]) + ([COMMA] + (PrintMembers(le, ms[1..]) + [CLOSE_BRACE] + rest))
  {
    PrintMembersNext(le, ms);
    GlueComma(PrintMember(le, ms[0]), PrintMembers(le, ms[1..]), [CLOSE_BRACE], rest);
  }

  lemma PrintMembersNext(le: (Text, Text) -> bool, ms: seq<Member>)
    requires |ms| > 1
    ensures PrintMembers(le, ms) == PrintMember(le, ms[0]) + [COMMA] + PrintMembers(le, ms[1..])
  {
  }

  lemma PrintedLastMember(le: (Text, Text) -> bool, ms: seq<Member>, rest: Text)
    requires |ms| == 1
    ensures PrintMembers(le, ms) + [CLOSE_BRACE] + rest == PrintMember(le, ms[0]) + ([CLOSE_BRACE] + rest)
  {
    Associate(PrintMember(le, ms[0]), [CLOSE_BRACE], rest);
  }

  lemma {:induction false} ParsePrintedMembers(le: (Text, Text) -> bool, ms: seq<Member>, rest: Text)
    requires ms != []
    requires forall m :: m in ms ==> WellFormed(m.value) && !m.value.Undefined?
    ensures ReadsMembers(PrintMembers(le, ms) + [CLOSE_BRACE] + rest, MembersMeaning(ms), rest)
    decreases MembersSize(ms), 1
  {
    var m := ms[0];
    var inner := PrintMembers(le, ms[1..]) + [CLOSE_BRACE] + rest;
    var after := if |ms| == 1 then [CLOSE_BRACE] + rest else [COMMA] + inner;
    var value := Print(le, m.value) + after;
    StringRoundTrip(m.key, [COLON] + value);
    ParsePrinted(le, m.value, after);
    PrintedMember(le, m, after);
    MembersMeaningNext(ms);
    var text := Escape(m.key) + [QUOTE] + ([COLON] + value);
    if |ms| == 1 {
      PrintedLastMember(le, ms, rest);
      LastMember(text, m.key, value, Meaning(m.value), rest);
    } else {
      ParsePrintedMembers(le, ms[1..], rest);
      PrintedNextMember(le, ms, rest);
      NextMember(text, m.key, value, Meaning(m.value), inner, MembersMeaning(ms[1..]), rest);
    }
  }

  /** The text determines the value, whatever the collation does. */
  lemma PrintInjective(le: (Text, Text) -> bool, a: Json, b: Json)
    requires WellFormed(a) && WellFormed(b)
    requires Print(le, a) == Print(le, b)
    ensures Meaning(a) == Meaning(b)
  {
    ParsePrinted(le, a, []);
    ParsePrinted(le, b, []);
    assert Print(le, a) + [] == Print(le, a) && Print(le, b) + [] == Print(le, b);
  }
}
