/** JSON documents as written (RFC 8259, sections 2 to 7): a syntax tree that
    keeps the insignificant whitespace, its text, the value it denotes, and the
    decoder the rollout reader relies on. */
module JsonText {

  type Char = c: int | 0 <= c < 0x11_0000
  type Text = seq<Char>

  datatype Option<+T> = None | Some(value: T)

  const QUOTE: Char := 0x22
  const BACKSLASH: Char := 0x5c
  const LBRACE: Char := 0x7b
  const RBRACE: Char := 0x7d
  const LBRACKET: Char := 0x5b
  const RBRACKET: Char := 0x5d
  const COLON: Char := 0x3a
  const COMMA: Char := 0x2c
  const MINUS: Char := 0x2d
  const ZERO: Char := 0x30
  const LOWER_U: Char := 0x75

  const NULL_TEXT: Text := [0x6e, 0x75, 0x6c, 0x6c]
  const TRUE_TEXT: Text := [0x74, 0x72, 0x75, 0x65]
  const FALSE_TEXT: Text := [0x66, 0x61, 0x6c, 0x73, 0x65]

  // Words Python's decoder reads as numbers although RFC 8259 has none of them.
  const NAN_TEXT: Text := [0x4e, 0x61, 0x4e]
  const INFINITY_TEXT: Text := [0x49, 0x6e, 0x66, 0x69, 0x6e, 0x69, 0x74, 0x79]
  const MINUS_INFINITY_TEXT: Text := [0x2d, 0x49, 0x6e, 0x66, 0x69, 0x6e, 0x69, 0x74, 0x79]

  predicate IsJsonSpace(c: Char) { c == 0x20 || c == 0x09 || c == 0x0a || c == 0x0d }

  predicate IsDigit(c: Char) { 0x30 <= c <= 0x39 }

  predicate AllSpace(s: Text) { forall i :: 0 <= i < |s| ==> IsJsonSpace(s[i]) }

  /** `t` stands in `text` at `pos`. */
  predicate At(text: Text, pos: nat, t: Text) {
    pos + |t| <= |text| && text[pos..pos + |t|] == t
  }

  lemma {:induction false} AtSplit(text: Text, pos: nat, a: Text, b: Text)
    ensures At(text, pos, a + b) <==> At(text, pos, a) && At(text, pos + |a|, b)
  {
    if pos + |a| + |b| <= |text| {
      var whole := text[pos..pos + |a| + |b|];
      assert whole[..|a|] == text[pos..pos + |a|];
      assert whole[|a|..] == text[pos + |a|..pos + |a| + |b|];
      assert (a + b)[..|a|] == a && (a + b)[|a|..] == b;
      assert whole == whole[..|a|] + whole[|a|..];
    }
  }

  lemma {:induction false} AtChar(text: Text, pos: nat, c: Char)
    ensures At(text, pos, [c]) <==> pos < |text| && text[pos] == c
  {
    if pos < |text| { assert text[pos..pos + 1] == [text[pos]]; }
  }

  // ---- the tree and its text --------------------------------------------------

  /** One character of a string as written. */
  datatype StringChar = Plain(c: Char) | Escaped(e: Char) | Unicode(hex: Text)

  datatype Value =
    | Null | True | False
    | Number(lexeme: Text)
    | String(chars: seq<StringChar>)
    | Array(inner: Text, items: seq<Item>)
    | Object(inner: Text, members: seq<Member>)

  /** Whitespace before and after an element; `inner` above fills an empty pair. */
  datatype Item = Item(before: Text, value: Value, after: Text)

  datatype Member = Member(before: Text, key: seq<StringChar>, mid: Text, lead: Text, value: Value, after: Text)

  function HexValue(c: Char): (r: Option<nat>)
    ensures r.Some? ==> r.value < 16
  {
    if 0x30 <= c <= 0x39 then Some(c - 0x30)
    else if 0x61 <= c <= 0x66 then Some(c - 0x61 + 10)
    else if 0x41 <= c <= 0x46 then Some(c - 0x41 + 10)
    else None
  }

  predicate IsHex4(hex: Text) {
    |hex| == 4 && HexValue(hex[0]).Some? && HexValue(hex[1]).Some? && HexValue(hex[2]).Some? && HexValue(hex[3]).Some?
  }

  function CodeOf(hex: Text): (n: nat)
    requires IsHex4(hex)
    ensures n < 0x1_0000
  {
    HexValue(hex[0]).value * 4096 + HexValue(hex[1]).value * 256 + HexValue(hex[2]).value * 16 + HexValue(hex[3]).value
  }

  function PrintChar(c: StringChar): Text
    requires CharOk(c)
  {
    match c
    case Plain(x) => [x]
    case Escaped(e) => [BACKSLASH, e]
    case Unicode(hex) => [BACKSLASH, LOWER_U] + hex
  }

  const SIMPLE_ESCAPES: map<Char, Char> :=
    map[QUOTE := QUOTE, BACKSLASH := BACKSLASH, 0x2f := 0x2f, 0x62 := 0x08, 0x66 := 0x0c, 0x6e := 0x0a,
        0x72 := 0x0d, 0x74 := 0x09]

  predicate CharOk(c: StringChar) {
    match c
    case Plain(x) => x >= 0x20 && x != QUOTE && x != BACKSLASH
    case Escaped(e) => e in SIMPLE_ESCAPES
    case Unicode(hex) => IsHex4(hex)
  }

  predicate CharsOk(cs: seq<StringChar>) { forall i :: 0 <= i < |cs| ==> CharOk(cs[i]) }

  function PrintChars(cs: seq<StringChar>): Text
    requires CharsOk(cs)
  {
    if cs == [] then [] else PrintChar(cs[0]) + PrintChars(cs[1..])
  }

  function PrintString(cs: seq<StringChar>): Text
    requires CharsOk(cs)
  {
    [QUOTE] + PrintChars(cs) + [QUOTE]
  }

  // Numbers: -? (0 | [1-9] digits) (. digits+)? ([eE] [+-]? digits+)?

  function SkipDigits(text: Text, pos: nat): (r: nat)
    ensures r >= pos && (pos <= |text| ==> r <= |text|)
    decreases |text| - pos
  {
    if pos < |text| && IsDigit(text[pos]) then SkipDigits(text, pos + 1) else pos
  }

  /** The longest number at `pos`, as the decoder's pattern matches it. */
  function ScanNumber(text: Text, pos: nat): (r: Option<nat>)
    ensures r.Some? ==> pos < r.value <= |text|
  {
    var p := if pos < |text| && text[pos] == MINUS then pos + 1 else pos;
    if p >= |text| || !IsDigit(text[p]) then None
    else
      var q := if text[p] == ZERO then p + 1 else SkipDigits(text, p);
      var f := ScanFraction(text, q);
      Some(ScanExponent(text, f))
  }

  function ScanFraction(text: Text, q: nat): (f: nat)
    requires q <= |text|
    ensures q <= f <= |text|
  {
    if q + 1 < |text| && text[q] == 0x2e && IsDigit(text[q + 1]) then SkipDigits(text, q + 1) else q
  }

  function ScanExponent(text: Text, f: nat): (e: nat)
    requires f <= |text|
    ensures f <= e <= |text|
  {
    if f < |text| && (text[f] == 0x65 || text[f] == 0x45) then
      var g := if f + 1 < |text| && (text[f + 1] == 0x2b || text[f + 1] == MINUS) then f + 2 else f + 1;
      if g < |text| && IsDigit(text[g]) then SkipDigits(text, g) else f
    else f
  }

  predicate IsNumber(lexeme: Text) { ScanNumber(lexeme, 0) == Some(|lexeme|) }

  predicate WellFormed(v: Value) {
    match v
    case Number(lexeme) => IsNumber(lexeme)
    case String(chars) => CharsOk(chars)
    case Array(inner, items) => AllSpace(inner) && forall i :: i in items ==> ItemOk(i)
    case Object(inner, members) => AllSpace(inner) && forall m :: m in members ==> MemberOk(m)
    case _ => true
  }

  predicate ItemOk(i: Item) { AllSpace(i.before) && AllSpace(i.after) && WellFormed(i.value) }

  predicate MemberOk(m: Member) {
    && AllSpace(m.before) && AllSpace(m.mid) && AllSpace(m.lead) && AllSpace(m.after)
    && CharsOk(m.key) && WellFormed(m.value)
  }

  function Print(v: Value): Text
    requires WellFormed(v)
  {
    match v
    case Null => NULL_TEXT
    case True => TRUE_TEXT
    case False => FALSE_TEXT
    case Number(lexeme) => lexeme
    case String(chars) => PrintString(chars)
    case Array(inner, items) => [LBRACKET] + ((if items == [] then inner else PrintItems(items)) + [RBRACKET])
    case Object(inner, members) => [LBRACE] + ((if members == [] then inner else PrintMembers(members)) + [RBRACE])
  }

  function PrintItem(i: Item): Text
    requires ItemOk(i)
  {
    i.before + (Print(i.value) + i.after)
  }

  function PrintItems(items: seq<Item>): Text
    requires items != [] && forall i :: i in items ==> ItemOk(i)
  {
    assert items[0] in items;
    if |items| == 1 then PrintItem(items[0])
    else PrintItem(items[0]) + ([COMMA] + PrintItems(items[1..]))
  }

  function PrintMember(m: Member): Text
    requires MemberOk(m)
  {
    m.before + (PrintString(m.key) + (m.mid + ([COLON] + (m.lead + (Print(m.value) + m.after)))))
  }

  function PrintMembers(members: seq<Member>): Text
    requires members != [] && forall m :: m in members ==> MemberOk(m)
  {
    assert members[0] in members;
    if |members| == 1 then PrintMember(members[0])
    else PrintMember(members[0]) + ([COMMA] + PrintMembers(members[1..]))
  }

  // ---- what a tree denotes -------------------------------------------------------

  datatype Json =
    | JNull | JBool(b: bool) | JNumber(lexeme: Text) | JString(s: Text)
    | JArray(items: seq<Json>) | JObject(members: map<Text, Json>)

  predicate IsHigh(n: int) { 0xd800 <= n <= 0xdbff }
  predicate IsLow(n: int) { 0xdc00 <= n <= 0xdfff }

  function Combine(high: nat, low: nat): Char
    requires IsHigh(high) && IsLow(low)
  {
    0x1_0000 + (high - 0xd800) * 1024 + (low - 0xdc00)
  }

  function CharOf(c: StringChar): Char
    requires CharOk(c)
  {
    match c case Plain(x) => x case Escaped(e) => SIMPLE_ESCAPES[e] case Unicode(hex) => CodeOf(hex)
  }

  /** The code of a \u escape; nothing else takes part in a surrogate pair. */
  function UnitOf(c: StringChar): int
    requires CharOk(c)
  {
    if c.Unicode? then CodeOf(c.hex) else -1
  }

  function DenoteChars(cs: seq<StringChar>): Text
    requires CharsOk(cs)
  {
    if cs == [] then []
    else if |cs| >= 2 && IsHigh(UnitOf(cs[0])) && IsLow(UnitOf(cs[1])) then
      [Combine(UnitOf(cs[0]), UnitOf(cs[1]))] + DenoteChars(cs[2..])
    else [CharOf(cs[0])] + DenoteChars(cs[1..])
  }

  function Denote(v: Value): Json
    requires WellFormed(v)
  {
    match v
    case Null => JNull
    case True => JBool(true)
    case False => JBool(false)
    case Number(lexeme) => JNumber(lexeme)
    case String(chars) => JString(DenoteChars(chars))
    case Array(_, items) => JArray(DenoteItems(items))
    case Object(_, members) => JObject(DenoteMembers(members, map[]))
  }

  function DenoteItems(items: seq<Item>): seq<Json>
    requires forall i :: i in items ==> ItemOk(i)
  {
    if items == [] then []
    else
      assert ItemOk(items[0]);
      [Denote(items[0].value)] + DenoteItems(items[1..])
  }

  /** Later members replace earlier ones of the same name. */
  function DenoteMembers(members: seq<Member>, before: map<Text, Json>): map<Text, Json>
    requires forall m :: m in members ==> MemberOk(m)
  {
    if members == [] then before
    else
      assert MemberOk(members[0]);
      DenoteMembers(members[1..], before[DenoteChars(members[0].key) := Denote(members[0].value)])
  }
}
