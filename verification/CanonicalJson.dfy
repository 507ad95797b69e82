/** Canonical JSON text: keys sorted at every level, undefined entries dropped. Plan hashes, stale-plan
    detection and the audit chain all rest on two facts about it: the text determines the value
    (`JsonReading`, by parsing it back), and the value determines the text as long as the collation
    never ties two keys of one object (`CanonicalForm`). */
module CanonicalJson {
  /** A JavaScript string is a sequence of UTF-16 code units, lone surrogates included. */
  newtype CodeUnit = u: int | 0 <= u < 0x10000
  type Text = seq<CodeUnit>

  /** A value as the program holds it. A finite number is carried as the decimal text JavaScript
      prints for it; object members keep their insertion order. */
  datatype Json =
    | Undefined
    | NonFinite
    | Null
    | Bool(b: bool)
    | Num(digits: Text)
    | Str(s: Text)
    | Arr(items: seq<Json>)
    | Obj(members: seq<Member>)

  datatype Member = Member(key: Text, value: Json)

  /** What a value means once key order and undefined entries are forgotten. */
  datatype Value =
    | VNull
    | VBool(b: bool)
    | VNum(digits: Text)
    | VStr(s: Text)
    | VArr(items: seq<Value>)
    | VObj(members: map<Text, Value>)

  const QUOTE: CodeUnit := 34
  const COMMA: CodeUnit := 44
  const COLON: CodeUnit := 58
  const BACKSLASH: CodeUnit := 92
  const LETTER_U: CodeUnit := 117
  const OPEN_BRACKET: CodeUnit := 91
  const CLOSE_BRACKET: CodeUnit := 93
  const OPEN_BRACE: CodeUnit := 123
  const CLOSE_BRACE: CodeUnit := 125
  const NULL: Text := [110, 117, 108, 108]
  const TRUE: Text := [116, 114, 117, 101]
  const FALSE: Text := [102, 97, 108, 115, 101]

  /******* Values *******/

  /** The characters of a JSON number: digits, sign, point and exponent. */
  predicate IsNumberUnit(u: CodeUnit) {
    48 <= u <= 57 || u == 45 || u == 43 || u == 46 || u == 101 || u == 69
  }

  predicate DistinctKeys(ms: seq<Member>) {
    forall i, j :: 0 <= i < j < |ms| ==> ms[i].key != ms[j].key
  }

  predicate WellFormed(v: Json) {
    match v
    case Num(digits) => digits != [] && forall u :: u in digits ==> IsNumberUnit(u)
    case Arr(items) => forall item :: item in items ==> WellFormed(item)
    case Obj(members) => DistinctKeys(members) && forall m :: m in members ==> WellFormed(m.value)
    case _ => true
  }

  function Size(v: Json): (n: nat)
    ensures n > 0
  {
    match v
    case Arr(items) => 1 + ItemsSize(items)
    case Obj(members) => 1 + MembersSize(members)
    case _ => 1
  }

  function ItemsSize(items: seq<Json>): nat {
    if items == [] then 0 else Size(items[0]) + ItemsSize(items[1..])
  }

  function MembersSize(ms: seq<Member>): nat {
    if ms == [] then 0 else Size(ms[0].value) + MembersSize(ms[1..])
  }

  function Meaning(v: Json): Value {
    match v
    case Undefined => VNull
    case NonFinite => VNull
    case Null => VNull
    case Bool(b) => VBool(b)
    case Num(digits) => VNum(digits)
    case Str(s) => VStr(s)
    case Arr(items) => VArr(ItemsMeaning(items))
    case Obj(members) => VObj(MembersMeaning(members))
  }

  function ItemsMeaning(items: seq<Json>): (vs: seq<Value>)
    ensures |vs| == |items|
  {
    if items == [] then [] else [Meaning(items[0])] + ItemsMeaning(items[1..])
  }

  function MembersMeaning(ms: seq<Member>): map<Text, Value> {
    if ms == [] then map[]
    else if ms[0].value.Undefined? then MembersMeaning(ms[1..])
    else MembersMeaning(ms[1..])[ms[0].key := Meaning(ms[0].value)]
  }

  /******* The printer *******/

  function HexDigit(d: int): CodeUnit
    requires 0 <= d < 16
  {
    (if d < 10 then 48 + d else 87 + d) as CodeUnit
  }

  function Hex4(u: CodeUnit): Text {
    var n := u as int;
    [HexDigit(n / 16 / 16 / 16), HexDigit(n / 16 / 16 % 16), HexDigit(n / 16 % 16), HexDigit(n % 16)]
  }

  predicate IsHighSurrogate(u: CodeUnit) { 0xD800 <= u < 0xDC00 }

  predicate IsLowSurrogate(u: CodeUnit) { 0xDC00 <= u < 0xE000 }

  function EscapeUnit(u: CodeUnit): Text {
    if u == QUOTE || u == BACKSLASH then [BACKSLASH, u]
    else if u == 8 then [BACKSLASH, 98]
    else if u == 9 then [BACKSLASH, 116]
    else if u == 10 then [BACKSLASH, 110]
    else if u == 12 then [BACKSLASH, 102]
    else if u == 13 then [BACKSLASH, 114]
    else if u < 32 || IsHighSurrogate(u) || IsLowSurrogate(u) then [BACKSLASH, LETTER_U] + Hex4(u)
    else [u]
  }

  /** A surrogate pair is printed as it is; a surrogate on its own is escaped. */
  function Escape(s: Text): Text {
    if s == [] then []
    else if |s| > 1 && IsHighSurrogate(s[0]) && IsLowSurrogate(s[1]) then s[..2] + Escape(s[2..])
    else EscapeUnit(s[0]) + Escape(s[1..])
  }

  function Quote(s: Text): Text {
    [QUOTE] + Escape(s) + [QUOTE]
  }

  function Defined(ms: seq<Member>): (r: seq<Member>)
    ensures MembersSize(r) <= MembersSize(ms)
    ensures forall m :: m in r <==> m in ms && !m.value.Undefined?
  {
    if ms == [] then []
    else if ms[0].value.Undefined? then Defined(ms[1..])
    else [ms[0]] + Defined(ms[1..])
  }

  /** Puts `m` in front of the first member that does not sort before it, so equal keys keep
      the order they came in. */
  function Insert(le: (Text, Text) -> bool, m: Member, ms: seq<Member>): (r: seq<Member>)
    ensures MembersSize(r) == Size(m.value) + MembersSize(ms)
    ensures multiset(r) == multiset([m]) + multiset(ms)
  {
    if ms == [] then [m]
    else if le(m.key, ms[0].key) then [m] + ms
    else
      assert ms == [ms[0]] + ms[1..];
      [ms[0]] + Insert(le, m, ms[1..])
  }

  function Sort(le: (Text, Text) -> bool, ms: seq<Member>): (r: seq<Member>)
    ensures MembersSize(r) == MembersSize(ms)
    ensures multiset(r) == multiset(ms)
  {
    if ms == [] then []
    else
      assert ms == [ms[0]] + ms[1..];
      Insert(le, ms[0], Sort(le, ms[1..]))
  }

  function Print(le: (Text, Text) -> bool, v: Json): Text
    decreases Size(v), 0
  {
    match v
    case Undefined => NULL
    case NonFinite => NULL
    case Null => NULL
    case Bool(b) => if b then TRUE else FALSE
    case Num(digits) => digits
    case Str(s) => Quote(s)
    case Arr(items) => [OPEN_BRACKET] + PrintItems(le, items) + [CLOSE_BRACKET]
    case Obj(members) => [OPEN_BRACE] + PrintMembers(le, Sort(le, Defined(members))) + [CLOSE_BRACE]
  }

  function PrintItems(le: (Text, Text) -> bool, items: seq<Json>): Text
    decreases ItemsSize(items), 1
  {
    if items == [] then []
    else if |items| == 1 then Print(le, items[0])
    else Print(le, items[0]) + [COMMA] + PrintItems(le, items[1..])
  }

  function PrintMember(le: (Text, Text) -> bool, m: Member): Text
    decreases Size(m.value), 1
  {
    Quote(m.key) + [COLON] + Print(le, m.value)
  }

  function PrintMembers(le: (Text, Text) -> bool, ms: seq<Member>): Text
    decreases MembersSize(ms), 2
  {
    if ms == [] then []
    else if |ms| == 1 then PrintMember(le, ms[0])
    else PrintMember(le, ms[0]) + [COMMA] + PrintMembers(le, ms[1..])
  }

  /******* Records with fixed fields *******/

  function UnitOf(c: char): CodeUnit {
    if c as int < 0x10000 then c as int as CodeUnit else 0xFFFD
  }

  /** A field name written as a literal. */
  function Ascii(s: string): (t: Text)
    ensures |t| == |s| && forall i :: 0 <= i < |s| ==> t[i] == UnitOf(s[i])
  {
    seq(|s|, i requires 0 <= i < |s| => UnitOf(s[i]))
  }

  lemma NamesDiffer(s: string, t: string)
    requires |s| != |t| || (|s| > 0 && UnitOf(s[0]) != UnitOf(t[0]))
    ensures Ascii(s) != Ascii(t)
  {
    if |s| == |t| { assert Ascii(s)[0] != Ascii(t)[0]; }
  }

  predicate SameField(a: Json, b: Json) {
    (a.Undefined? <==> b.Undefined?) && Meaning(a) == Meaning(b)
  }

  /******* Hashing *******/

  ghost predicate Injective(digest: Text -> Text) {
    forall a, b :: digest(a) == digest(b) ==> a == b
  }

  function Hash(digest: Text -> Text, le: (Text, Text) -> bool, v: Json): Text {
    digest(Print(le, v))
  }
}
