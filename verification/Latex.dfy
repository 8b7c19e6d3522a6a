/** The LaTeX math renderer (packages/tui/src/latex.ts) as functions of the
    source text, the cursor and text mode. Strings are UTF-16 code units. The
    symbol tables are a parameter. */
module Latex {

  type Unit = u: int | 0 <= u < 0x1_0000
  type Text = seq<Unit>

  datatype Option<+T> = None | Some(value: T)

  const BACKSLASH: Unit := 0x5c
  const LBRACE: Unit := 0x7b
  const RBRACE: Unit := 0x7d
  const LBRACKET: Unit := 0x5b
  const RBRACKET: Unit := 0x5d
  const LPAREN: Unit := 0x28
  const RPAREN: Unit := 0x29
  const CARET: Unit := 0x5e
  const UNDERSCORE: Unit := 0x5f
  const AMPERSAND: Unit := 0x26
  const STAR: Unit := 0x2a
  const DOT: Unit := 0x2e
  const SLASH: Unit := 0x2f
  const COMMA: Unit := 0x2c
  const SPACE: Unit := 0x20
  const UPPER_C: Unit := 0x43
  const SQUARE_ROOT: Unit := 0x221a
  const CUBE_ROOT: Unit := 0x221b
  const FOURTH_ROOT: Unit := 0x221c
  const NEGATION: Unit := 0x338

  predicate IsLetter(u: Unit) { 0x41 <= u <= 0x5a || 0x61 <= u <= 0x7a }

  /** JavaScript's \s. */
  predicate IsSpace(u: Unit) {
    || 0x09 <= u <= 0x0d || u == 0x20 || u == 0xa0 || u == 0x1680 || 0x2000 <= u <= 0x200a
    || u == 0x2028 || u == 0x2029 || u == 0x202f || u == 0x205f || u == 0x3000 || u == 0xfeff
  }

  /** A string's code points, each as the units that encode it. */
  function Points(s: Text): seq<Text> {
    if s == [] then []
    else if |s| >= 2 && 0xd800 <= s[0] <= 0xdbff && 0xdc00 <= s[1] <= 0xdfff then [s[..2]] + Points(s[2..])
    else [s[..1]] + Points(s[1..])
  }

  function Encode(point: nat): Text
    requires point < 0x11_0000
  {
    if point < 0x1_0000 then [point] else [0xd800 + (point - 0x1_0000) / 0x400, 0xdc00 + (point - 0x1_0000) % 0x400]
  }

  type Base = b: int | 0 <= b < 0x10_0000

  datatype Style = Style(upper: Option<Base>, lower: Option<Base>, digit: Option<Base>, exceptions: map<Text, Text>)

  datatype Tables = Tables(
    escapes: map<Unit, Text>, symbols: map<Text, Text>, operators: set<Text>, spacing: map<Text, Text>, ignored: set<Text>,
    textCommands: set<Text>, fonts: set<Text>, alphabets: map<Text, Style>, accents: map<Text, Text>,
    superscripts: map<Text, Text>, subscripts: map<Text, Text>, fractions: map<Text, Text>,
    word: Text -> bool)  // only letters, digits and marks

  const LEFT: Text := [0x6c, 0x65, 0x66, 0x74]
  const RIGHT: Text := [0x72, 0x69, 0x67, 0x68, 0x74]
  const FRACTIONS: set<Text> := {[0x66, 0x72, 0x61, 0x63], [0x64, 0x66, 0x72, 0x61, 0x63], [0x74, 0x66, 0x72, 0x61, 0x63], [0x63, 0x66, 0x72, 0x61, 0x63]}
  const BINOM: Text := [0x62, 0x69, 0x6e, 0x6f, 0x6d]
  const SQRT: Text := [0x73, 0x71, 0x72, 0x74]
  const NOT: Text := [0x6e, 0x6f, 0x74]
  const BEGIN: Text := [0x62, 0x65, 0x67, 0x69, 0x6e]
  const END: Text := [0x65, 0x6e, 0x64]
  const STACKREL: Text := [0x73, 0x74, 0x61, 0x63, 0x6b, 0x72, 0x65, 0x6c]
  const OVERSET: Text := [0x6f, 0x76, 0x65, 0x72, 0x73, 0x65, 0x74]
  const UNDERSET: Text := [0x75, 0x6e, 0x64, 0x65, 0x72, 0x73, 0x65, 0x74]

  /** What a command name means, in the order the tables are asked. */
  datatype Kind =
    | Constant(text: Text)      // symbols, operator names, spacing, ignored and unknown commands
    | Delimiter
    | Literal                   // text mode
    | Font
    | Alphabet(style: Style)
    | Accent(mark: Text)
    | Fraction
    | Binomial
    | Root
    | Negation
    | Environment
    | Over
    | Under

  function KindOf(t: Tables, name: Text): Kind {
    if name in t.symbols then Constant(t.symbols[name])
    else if name in t.operators then Constant(name)
    else if name in t.spacing then Constant(t.spacing[name])
    else if name in t.ignored then if name == LEFT || name == RIGHT then Delimiter else Constant([])
    else if name in t.textCommands then Literal
    else if name in t.fonts then Font
    else if name in t.alphabets then Alphabet(t.alphabets[name])
    else if name in t.accents then Accent(t.accents[name])
    else if name in FRACTIONS then Fraction
    else if name == BINOM then Binomial
    else if name == SQRT then Root
    else if name == NOT then Negation
    else if name == BEGIN || name == END then Environment
    else if name == STACKREL || name == OVERSET then Over
    else if name == UNDERSET then Under
    else Constant(name)
  }

  // ---- what is made of rendered arguments ------------------------------------------------------

  function MapPoints(points: seq<Text>, table: map<Text, Text>): Option<Text> {
    if points == [] then Some([])
    else
      var before := MapPoints(points[..|points| - 1], table);
      var p := points[|points| - 1];
      if before.None? || p !in table then None else Some(before.value + table[p])
  }

  function MapScript(text: Text, table: map<Text, Text>): Option<Text> { MapPoints(Points(text), table) }

  function StylePoint(p: Text, style: Style): Text {
    if p in style.exceptions && style.exceptions[p] != [] then style.exceptions[p]
    else if |p| == 1 && 0x41 <= p[0] <= 0x5a && style.upper.Some? then Encode(style.upper.value + p[0] - 0x41)
    else if |p| == 1 && 0x61 <= p[0] <= 0x7a && style.lower.Some? then Encode(style.lower.value + p[0] - 0x61)
    else if |p| == 1 && 0x30 <= p[0] <= 0x39 && style.digit.Some? then Encode(style.digit.value + p[0] - 0x30)
    else p
  }

  function StyleAll(points: seq<Text>, style: Style): Text {
    if points == [] then [] else StyleAll(points[..|points| - 1], style) + StylePoint(points[|points| - 1], style)
  }

  function AccentAll(points: seq<Text>, mark: Text): Text {
    if points == [] then []
    else
      var p := points[|points| - 1];
      AccentAll(points[..|points| - 1], mark) + (if p != [] && IsSpace(p[0]) then p else p + mark)
  }

  predicate IsSimple(t: Tables, text: Text) { |Points(text)| == 1 || t.word(text) }

  function Parenthesize(t: Tables, text: Text): Text {
    if IsSimple(t, text) then text else [LPAREN] + text + [RPAREN]
  }

  function Scripted(text: Text, table: map<Text, Text>, operator: Unit): Text {
    match MapScript(text, table)
    case Some(mapped) => mapped
    case None => if |Points(text)| == 1 then [operator] + text else [operator, LBRACE] + text + [RBRACE]
  }

  function Divided(t: Tables, numerator: Text, denominator: Text): Text {
    var key := numerator + [SLASH] + denominator;
    if key in t.fractions then t.fractions[key]
    else Parenthesize(t, numerator) + [SLASH] + Parenthesize(t, denominator)
  }

  function Rooted(t: Tables, index: Option<Text>, radicand: Text): Text {
    var operand := Parenthesize(t, radicand);
    if index.None? then [SQUARE_ROOT] + operand
    else if index.value == [0x33] then [CUBE_ROOT] + operand
    else if index.value == [0x34] then [FOURTH_ROOT] + operand
    else
      var mapped := MapScript(index.value, t.superscripts);
      (if mapped.Some? then mapped.value else [CARET] + index.value) + [SQUARE_ROOT] + operand
  }

  function Stacked(base: Text, script: Text, table: map<Text, Text>, operator: Unit): Text {
    var mapped := MapScript(script, table);
    if mapped.Some? then base + mapped.value else base + [operator, LBRACE] + script + [RBRACE]
  }

  function Arity(k: Kind): nat {
    match k
    case Constant(_) => 0
    case Delimiter => 0
    case Fraction => 2
    case Binomial => 2
    case Over => 2
    case Under => 2
    case _ => 1
  }

  /** A command applied to its rendered arguments. */
  function Apply(t: Tables, k: Kind, index: Option<Text>, args: seq<Text>): Text
    requires |args| == Arity(k)
  {
    match k
    case Constant(text) => text
    case Delimiter => []
    case Literal => args[0]
    case Font => args[0]
    case Alphabet(style) => StyleAll(Points(args[0]), style)
    case Accent(mark) => AccentAll(Points(args[0]), mark)
    case Fraction => Divided(t, args[0], args[1])
    case Binomial => [UPPER_C, LPAREN] + args[0] + [COMMA] + args[1] + [RPAREN]
    case Root => Rooted(t, index, args[0])
    case Negation => args[0] + [NEGATION]
    case Environment => []
    case Over => Stacked(args[1], args[0], t.superscripts, CARET)
    case Under => Stacked(args[1], args[0], t.subscripts, UNDERSCORE)
  }

  // ---- the parser ---------------------------------------------------------------------------------

  datatype Parsed = Parsed(pos: nat, text: Text)

  function SkipSpace(src: Text, pos: nat): (r: nat)
    ensures pos <= r && (pos <= |src| ==> r <= |src|)
    decreases |src| - pos
  {
    if pos < |src| && IsSpace(src[pos]) then SkipSpace(src, pos + 1) else pos
  }

  function NameEnd(src: Text, pos: nat): (r: nat)
    ensures pos <= r && (pos <= |src| ==> r <= |src|)
    decreases |src| - pos
  {
    if pos < |src| && IsLetter(src[pos]) then NameEnd(src, pos + 1) else pos
  }

  predicate Is(src: Text, pos: nat, u: Unit) { pos < |src| && src[pos] == u }

  function IndexOf(src: Text, u: Unit, pos: nat): (r: Option<nat>)
    ensures r.Some? ==> pos <= r.value < |src|
    decreases |src| - pos
  {
    if pos >= |src| then None else if src[pos] == u then Some(pos) else IndexOf(src, u, pos + 1)
  }

  /** Atoms with their scripts until a closing brace or the end; `done` has been
      rendered already. On every source the parser ends: what is left of the
      source bounds the mutual recursion. */
  function ParseSequence(t: Tables, src: Text, pos: nat, textMode: bool, done: Text): (r: Parsed)
    requires pos <= |src|
    ensures pos <= r.pos <= |src|
    decreases |src|, |src| - pos, 4
  {
    if pos == |src| || src[pos] == RBRACE then Parsed(pos, done)
    else if (src[pos] == CARET || src[pos] == UNDERSCORE) && !textMode then
      var table := if src[pos] == CARET then t.superscripts else t.subscripts;
      var script := ParseArgument(t, src, pos + 1, textMode);
      ParseSequence(t, src, script.pos, textMode, done + Scripted(script.text, table, src[pos]))
    else if src[pos] == AMPERSAND then
      var spaced := if done != [] && IsSpace(done[|done| - 1]) then done else done + [SPACE];
      ParseSequence(t, src, pos + 1, textMode, spaced)
    else
      var atom := ParseAtom(t, src, pos, textMode);
      ParseSequence(t, src, atom.pos, textMode, done + atom.text)
  }

  function ParseAtom(t: Tables, src: Text, pos: nat, textMode: bool): (r: Parsed)
    requires pos <= |src|
    ensures pos <= r.pos <= |src| && (pos < |src| ==> pos < r.pos)
    decreases |src|, |src| - pos, 2
  {
    if pos == |src| then Parsed(pos, [])
    else if src[pos] == LBRACE then ParseGroup(t, src, pos, textMode)
    else if src[pos] == BACKSLASH then ParseCommand(t, src, pos, textMode)
    else Parsed(pos + 1, [src[pos]])
  }

  function ParseGroup(t: Tables, src: Text, pos: nat, textMode: bool): (r: Parsed)
    requires Is(src, pos, LBRACE)
    ensures pos < r.pos <= |src|
    decreases |src|, |src| - pos, 1
  {
    var content := ParseSequence(t, src, pos + 1, textMode, []);
    if Is(src, content.pos, RBRACE) then Parsed(content.pos + 1, content.text) else content
  }

  function ParseArgument(t: Tables, src: Text, pos: nat, textMode: bool): (r: Parsed)
    requires pos <= |src|
    ensures pos <= r.pos <= |src|
    decreases |src|, |src| - pos, 3
  {
    var p := SkipSpace(src, pos);
    if Is(src, p, LBRACE) then ParseGroup(t, src, p, textMode) else ParseAtom(t, src, p, textMode)
  }

  /** The optional index of a root, rendered on its own. */
  function ParseBracket(t: Tables, src: Text, pos: nat): (r: Option<Parsed>)
    requires 0 < pos <= |src|
    ensures r.Some? ==> pos < r.value.pos <= |src|
    decreases |src|, |src| - pos, 0
  {
    if !Is(src, pos, LBRACKET) then None
    else
      match IndexOf(src, RBRACKET, pos + 1)
      case None => None
      case Some(end) => Some(Parsed(end + 1, ParseSequence(t, src[pos + 1..end], 0, false, []).text))
  }

  function ParseCommand(t: Tables, src: Text, pos: nat, textMode: bool): (r: Parsed)
    requires Is(src, pos, BACKSLASH)
    ensures pos < r.pos <= |src|
    decreases |src|, |src| - pos, 1
  {
    if pos + 1 == |src| then Parsed(pos + 1, [])
    else if !IsLetter(src[pos + 1]) then
      Parsed(pos + 2, if src[pos + 1] in t.escapes then t.escapes[src[pos + 1]] else [src[pos + 1]])
    else
      var end := NameEnd(src, pos + 1);
      var p := if Is(src, end, STAR) then end + 1 else end;
      var k := KindOf(t, src[pos + 1..end]);
      if k.Constant? then Parsed(p, k.text)
      else if k.Delimiter? then ParseDelimiter(t, src, p, textMode)
      else if k.Negation? then
        var atom := ParseAtom(t, src, p, textMode);
        Parsed(atom.pos, Apply(t, k, None, [atom.text]))
      else
        var index := if k.Root? then ParseBracket(t, src, p) else None;
        var q := if index.Some? then index.value.pos else p;
        var first := ParseArgument(t, src, q, textMode || k.Literal?);
        if Arity(k) == 1 then
          Parsed(first.pos, Apply(t, k, if index.Some? then Some(index.value.text) else None, [first.text]))
        else
          var second := ParseArgument(t, src, first.pos, textMode);
          Parsed(second.pos, Apply(t, k, None, [first.text, second.text]))
  }

  function ParseDelimiter(t: Tables, src: Text, pos: nat, textMode: bool): (r: Parsed)
    requires pos <= |src|
    ensures pos <= r.pos <= |src|
    decreases |src|, |src| - pos, 3
  {
    var p := SkipSpace(src, pos);
    if p == |src| then Parsed(p, [])
    else if src[p] == DOT then Parsed(p + 1, [])
    else if src[p] == BACKSLASH then ParseCommand(t, src, p, textMode)
    else Parsed(p + 1, [src[p]])
  }

  function Parse(t: Tables, src: Text): Text { ParseSequence(t, src, 0, false, []).text }
}
