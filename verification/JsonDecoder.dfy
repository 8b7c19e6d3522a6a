/** The structural decoder: Python's `json` reading of the same texts, and its
    agreement with the trees they were printed from. */
module JsonDecoder {
  import opened JsonText

  /** The decoder's own whitespace: the four JSON characters. */
  function SkipSpace(text: Text, pos: nat): (r: nat)
    ensures pos <= r && (pos <= |text| ==> r <= |text|)
    decreases |text| - pos
  {
    if pos < |text| && IsJsonSpace(text[pos]) then SkipSpace(text, pos + 1) else pos
  }

  /** The four hexadecimal digits at `pos`. */
  function ReadHex(text: Text, pos: nat): (r: Option<nat>)
    ensures r.Some? ==> r.value < 0x1_0000 && pos + 4 <= |text|
  {
    if pos + 4 <= |text| && IsHex4(text[pos..pos + 4]) then Some(CodeOf(text[pos..pos + 4])) else None
  }

  datatype Read<+T> = Read(value: T, end: nat)

  /** One character, or the pair of escapes that make one, inside a string. */
  function ReadChar(text: Text, pos: nat): (r: Option<Read<Char>>)
    ensures r.Some? ==> pos < r.value.end <= |text|
  {
    if pos >= |text| || text[pos] < 0x20 || text[pos] == QUOTE then None
    else if text[pos] != BACKSLASH then Some(Read(text[pos], pos + 1))
    else if pos + 1 >= |text| then None
    else if text[pos + 1] != LOWER_U then
      if text[pos + 1] in SIMPLE_ESCAPES then Some(Read(SIMPLE_ESCAPES[text[pos + 1]], pos + 2)) else None
    else
      var high := ReadHex(text, pos + 2);
      if high.None? then None
      else if IsHigh(high.value) && pos + 7 < |text| && text[pos + 6] == BACKSLASH && text[pos + 7] == LOWER_U then
        var low := ReadHex(text, pos + 8);
        if low.None? then None
        else if IsLow(low.value) then Some(Read(Combine(high.value, low.value), pos + 12))
        else Some(Read(high.value, pos + 6))
      else Some(Read(high.value, pos + 6))
  }

  /** The rest of a string after its opening quote. */
  function ReadString(text: Text, pos: nat): (r: Option<Read<Text>>)
    ensures r.Some? ==> pos < r.value.end <= |text|
    decreases |text| - pos
  {
    if pos < |text| && text[pos] == QUOTE then Some(Read([], pos + 1))
    else
      var c := ReadChar(text, pos);
      if c.None? then None
      else
        var rest := ReadString(text, c.value.end);
        if rest.None? then None else Some(Read([c.value.value] + rest.value.value, rest.value.end))
  }

  predicate Is(text: Text, pos: nat, c: Char) { pos < |text| && text[pos] == c }

  /** `raw_decode`: the value that starts at `pos`. */
  function Decode(text: Text, pos: nat): (r: Option<Read<Json>>)
    ensures r.Some? ==> pos < r.value.end <= |text|
    decreases |text| - pos, 0
  {
    if Is(text, pos, QUOTE) then
      var s := ReadString(text, pos + 1);
      if s.None? then None else Some(Read(JString(s.value.value), s.value.end))
    else if Is(text, pos, LBRACE) then
      var p := SkipSpace(text, pos + 1);
      if Is(text, p, RBRACE) then Some(Read(JObject(map[]), p + 1)) else DecodeMembers(text, p, map[])
    else if Is(text, pos, LBRACKET) then
      var p := SkipSpace(text, pos + 1);
      if Is(text, p, RBRACKET) then Some(Read(JArray([]), p + 1)) else DecodeItems(text, p, [])
    else if At(text, pos, NULL_TEXT) then Some(Read(JNull, pos + 4))
    else if At(text, pos, TRUE_TEXT) then Some(Read(JBool(true), pos + 4))
    else if At(text, pos, FALSE_TEXT) then Some(Read(JBool(false), pos + 5))
    else DecodeNumber(text, pos)
  }

  function DecodeNumber(text: Text, pos: nat): (r: Option<Read<Json>>)
    ensures r.Some? ==> pos < r.value.end <= |text|
  {
    if At(text, pos, NAN_TEXT) then Some(Read(JNumber(NAN_TEXT), pos + 3))
    else if At(text, pos, INFINITY_TEXT) then Some(Read(JNumber(INFINITY_TEXT), pos + 8))
    else if At(text, pos, MINUS_INFINITY_TEXT) then Some(Read(JNumber(MINUS_INFINITY_TEXT), pos + 9))
    else
      var e := ScanNumber(text, pos);
      if e.None? then None else Some(Read(JNumber(text[pos..e.value]), e.value))
  }

  /** A nonempty array from its first element on. */
  function DecodeItems(text: Text, pos: nat, done: seq<Json>): (r: Option<Read<Json>>)
    ensures r.Some? ==> pos < r.value.end <= |text|
    decreases |text| - pos, 1
  {
    var v := Decode(text, pos);
    if v.None? then None
    else
      var p := SkipSpace(text, v.value.end);
      var done := done + [v.value.value];
      if Is(text, p, RBRACKET) then Some(Read(JArray(done), p + 1))
      else if Is(text, p, COMMA) then DecodeItems(text, SkipSpace(text, p + 1), done)
      else None
  }

  /** A nonempty object from its first name on; names must be strings. */
  function DecodeMembers(text: Text, pos: nat, done: map<Text, Json>): (r: Option<Read<Json>>)
    ensures r.Some? ==> pos < r.value.end <= |text|
    decreases |text| - pos, 1
  {
    if !Is(text, pos, QUOTE) then None
    else
      var k := ReadString(text, pos + 1);
      if k.None? then None
      else
        var c := SkipSpace(text, k.value.end);
        if !Is(text, c, COLON) then None
        else
          var v := Decode(text, SkipSpace(text, c + 1));
          if v.None? then None
          else
            var p := SkipSpace(text, v.value.end);
            var done := done[k.value.value := v.value.value];
            if Is(text, p, RBRACE) then Some(Read(JObject(done), p + 1))
            else if Is(text, p, COMMA) then DecodeMembers(text, SkipSpace(text, p + 1), done)
            else None
  }

  /** `json.loads`: one value with nothing but whitespace around it. */
  function Loads(text: Text): Option<Json> {
    var r := Decode(text, SkipSpace(text, 0));
    if r.Some? && SkipSpace(text, r.value.end) == |text| then Some(r.value.value) else None
  }

  // ---- decoding what was printed -----------------------------------------------------

  lemma {:induction false} SkipPrinted(text: Text, pos: nat, ws: Text)
    requires AllSpace(ws) && At(text, pos, ws)
    requires pos + |ws| < |text| ==> !IsJsonSpace(text[pos + |ws|])
    ensures SkipSpace(text, pos) == pos + |ws|
    decreases |ws|
  {
    if ws != [] {
      assert text[pos] == text[pos..pos + |ws|][0];
      assert text[pos + 1..pos + |ws|] == text[pos..pos + |ws|][1..];
      SkipPrinted(text, pos + 1, ws[1..]);
    }
  }

  lemma {:induction false} StringRoundTrip(text: Text, pos: nat, cs: seq<StringChar>)
    requires CharsOk(cs) && At(text, pos, PrintChars(cs) + [QUOTE])
    ensures ReadString(text, pos) == Some(Read(DenoteChars(cs), pos + |PrintChars(cs)| + 1))
    decreases |cs|
  {
    hide ReadChar, At, CharOk, UnitOf, CharOf, PrintChar, Combine, ReadString, PrintChars, DenoteChars;
    if cs == [] {
      StringEnds(text, pos);
    } else if PairFirst(cs) {
      StringPair(text, pos, cs);
      StringRoundTrip(text, pos + |PrintChar(cs[0])| + |PrintChar(cs[1])|, cs[2..]);
    } else {
      StringNext(text, pos, cs);
      StringRoundTrip(text, pos + |PrintChar(cs[0])|, cs[1..]);
    }
  }

  /** A high surrogate and a low one come first. */
  predicate PairFirst(cs: seq<StringChar>)
    requires CharsOk(cs)
  {
    |cs| >= 2 && IsHigh(UnitOf(cs[0])) && IsLow(UnitOf(cs[1]))
  }

  lemma {:induction false} StringEnds(text: Text, pos: nat)
    requires At(text, pos, PrintChars([]) + [QUOTE])
    ensures ReadString(text, pos) == Some(Read(DenoteChars([]), pos + |PrintChars([])| + 1))
  {
    AtChar(text, pos, QUOTE);
  }

  /** A surrogate pair, then the rest of the string. */
  lemma {:induction false} StringPair(text: Text, pos: nat, cs: seq<StringChar>)
    requires CharsOk(cs) && PairFirst(cs) && At(text, pos, PrintChars(cs) + [QUOTE])
    ensures CharsOk(cs[2..])
    ensures var next := pos + |PrintChar(cs[0])| + |PrintChar(cs[1])|;
            var end := pos + |PrintChars(cs)| + 1;
            && At(text, next, PrintChars(cs[2..]) + [QUOTE]) && end == next + |PrintChars(cs[2..])| + 1
            && (ReadString(text, next) == Some(Read(DenoteChars(cs[2..]), end)) ==>
                  ReadString(text, pos) == Some(Read(DenoteChars(cs), end)))
  {
    hide ReadChar, At, CharOk, UnitOf, CharOf, PrintChar, Combine, IsHigh, IsLow;
    var rest := cs[1..];
    var next := pos + |PrintChar(cs[0])|;
    assert rest[1..] == cs[2..] && rest[0] == cs[1];
    AtSplit(text, pos, PrintChars(cs), [QUOTE]);
    AtSplit(text, pos, PrintChar(cs[0]), PrintChars(rest));
    AtSplit(text, next, PrintChar(cs[1]), PrintChars(cs[2..]));
    assert PrintChars(cs) + [QUOTE] == PrintChar(cs[0]) + (PrintChar(cs[1]) + (PrintChars(cs[2..]) + [QUOTE]));
    AtSplit(text, pos, PrintChar(cs[0]), PrintChar(cs[1]) + (PrintChars(cs[2..]) + [QUOTE]));
    AtSplit(text, next, PrintChar(cs[1]), PrintChars(cs[2..]) + [QUOTE]);
    PairReads(text, pos, cs[0], cs[1]);
  }

  /** A character that is not half of a pair, then the rest of the string. */
  lemma {:induction false} StringNext(text: Text, pos: nat, cs: seq<StringChar>)
    requires CharsOk(cs) && cs != [] && !PairFirst(cs) && At(text, pos, PrintChars(cs) + [QUOTE])
    ensures CharsOk(cs[1..])
    ensures var next := pos + |PrintChar(cs[0])|;
            var end := pos + |PrintChars(cs)| + 1;
            && At(text, next, PrintChars(cs[1..]) + [QUOTE]) && end == next + |PrintChars(cs[1..])| + 1
            && (ReadString(text, next) == Some(Read(DenoteChars(cs[1..]), end)) ==>
                  ReadString(text, pos) == Some(Read(DenoteChars(cs), end)))
  {
    hide ReadChar, At, CharOk, UnitOf, CharOf, PrintChar, Combine, IsHigh, IsLow;
    var rest := cs[1..];
    AtSplit(text, pos, PrintChars(cs), [QUOTE]);
    AtSplit(text, pos, PrintChar(cs[0]), PrintChars(rest));
    assert PrintChars(cs) + [QUOTE] == PrintChar(cs[0]) + (PrintChars(rest) + [QUOTE]);
    AtSplit(text, pos, PrintChar(cs[0]), PrintChars(rest) + [QUOTE]);
    CharReads(text, pos, cs[0], rest);
  }

  lemma {:induction false} UnicodeAt(text: Text, pos: nat, c: StringChar)
    requires CharOk(c) && c.Unicode? && At(text, pos, PrintChar(c))
    ensures pos + 6 <= |text| && text[pos] == BACKSLASH && text[pos + 1] == LOWER_U
    ensures ReadHex(text, pos + 2) == Some(CodeOf(c.hex)) && |PrintChar(c)| == 6
  {
    hide IsHex4, CodeOf;
    assert |c.hex| == 4 by { HexHasFour(c.hex); }
    var t := text[pos..pos + 6];
    assert t[0] == text[pos] && t[1] == text[pos + 1];
    assert text[pos + 2..pos + 6] == t[2..] == c.hex;
  }

  lemma {:induction false} HexHasFour(hex: Text)
    requires IsHex4(hex)
    ensures |hex| == 4
  {}

  lemma {:induction false} PairReads(text: Text, pos: nat, high: StringChar, low: StringChar)
    requires CharOk(high) && CharOk(low) && IsHigh(UnitOf(high)) && IsLow(UnitOf(low))
    requires At(text, pos, PrintChar(high)) && At(text, pos + |PrintChar(high)|, PrintChar(low))
    ensures ReadChar(text, pos) == Some(Read(Combine(UnitOf(high), UnitOf(low)), pos + |PrintChar(high)| + |PrintChar(low)|))
    ensures text[pos] != QUOTE
  {
    hide ReadHex, IsHex4, CodeOf, At, PrintChar, CharOk, Combine;
    UnicodeAt(text, pos, high);
    UnicodeAt(text, pos + 6, low);
  }

  lemma {:induction false} CharReads(text: Text, pos: nat, c: StringChar, rest: seq<StringChar>)
    requires CharOk(c) && CharsOk(rest)
    requires At(text, pos, PrintChar(c)) && At(text, pos + |PrintChar(c)|, PrintChars(rest) + [QUOTE])
    requires rest != [] ==> !(IsHigh(UnitOf(c)) && IsLow(UnitOf(rest[0])))
    ensures ReadChar(text, pos) == Some(Read(CharOf(c), pos + |PrintChar(c)|))
    ensures text[pos] != QUOTE
  {
    hide ReadHex, IsHex4, CodeOf;
    match c
    case Plain(x) =>
      AtChar(text, pos, x);
    case Escaped(e) =>
      assert text[pos..pos + 2][0] == text[pos] && text[pos..pos + 2][1] == text[pos + 1];
      assert LOWER_U !in SIMPLE_ESCAPES;
    case Unicode(_) =>
      UnicodeAt(text, pos, c);
      AfterUnicode(text, pos + 6, rest);
  }

  /** What follows an escape: a \u escape that reads as the next character, or
      no \u escape at all. */
  lemma {:induction false} AfterUnicode(text: Text, pos: nat, rest: seq<StringChar>)
    requires CharsOk(rest) && At(text, pos, PrintChars(rest) + [QUOTE])
    ensures pos < |text|
    ensures pos + 1 < |text| && text[pos] == BACKSLASH && text[pos + 1] == LOWER_U ==>
              rest != [] && rest[0].Unicode? && ReadHex(text, pos + 2) == Some(CodeOf(rest[0].hex))
  {
    hide ReadHex, IsHex4, CodeOf;
    AtSplit(text, pos, PrintChars(rest), [QUOTE]);
    if rest == [] {
      AtChar(text, pos, QUOTE);
    } else {
      AtSplit(text, pos, PrintChar(rest[0]), PrintChars(rest[1..]));
      match rest[0]
      case Plain(x) => AtChar(text, pos, x);
      case Escaped(e) =>
        assert text[pos..pos + 2][1] == text[pos + 1];
        assert LOWER_U !in SIMPLE_ESCAPES;
      case Unicode(_) => UnicodeAt(text, pos, rest[0]);
    }
  }

  // ---- numbers ----------------------------------------------------------------------

  /** Where a bare word ends: the end of the text or a character that cannot
      continue it. */
  predicate Stops(text: Text, p: nat) {
    p >= |text| || text[p] == COMMA || text[p] == RBRACE || text[p] == RBRACKET || IsJsonSpace(text[p])
  }

  lemma {:induction false} AtIndex(text: Text, pos: nat, t: Text, k: nat)
    requires At(text, pos, t) && k < |t|
    ensures pos + k < |text| && text[pos + k] == t[k]
  {
    assert text[pos..pos + |t|][k] == text[pos + k];
  }

  lemma {:induction false} DigitsIn(text: Text, pos: nat, lexeme: Text, k: nat)
    requires At(text, pos, lexeme) && Stops(text, pos + |lexeme|) && k <= |lexeme|
    ensures SkipDigits(text, pos + k) == pos + SkipDigits(lexeme, k)
    decreases |lexeme| - k
  {
    if k < |lexeme| {
      AtIndex(text, pos, lexeme, k);
      DigitsIn(text, pos, lexeme, k + 1);
    }
  }

  lemma {:induction false} NumberRoundTrip(text: Text, pos: nat, lexeme: Text)
    requires IsNumber(lexeme) && At(text, pos, lexeme) && Stops(text, pos + |lexeme|)
    ensures ScanNumber(text, pos) == Some(pos + |lexeme|)
    ensures lexeme != [] && (IsDigit(lexeme[0]) || (lexeme[0] == MINUS && |lexeme| > 1 && IsDigit(lexeme[1])))
  {
    var n := |lexeme|;
    var p := if lexeme[0] == MINUS then 1 else 0;
    AtIndex(text, pos, lexeme, 0);
    AtIndex(text, pos, lexeme, p);
    DigitsIn(text, pos, lexeme, p);
    var q := if lexeme[p] == ZERO then p + 1 else SkipDigits(lexeme, p);
    FractionIn(text, pos, lexeme, q);
    ExponentIn(text, pos, lexeme, ScanFraction(lexeme, q));
  }

  lemma {:induction false} FractionIn(text: Text, pos: nat, lexeme: Text, q: nat)
    requires At(text, pos, lexeme) && Stops(text, pos + |lexeme|) && q <= |lexeme|
    ensures ScanFraction(text, pos + q) == pos + ScanFraction(lexeme, q)
  {
    if q < |lexeme| { AtIndex(text, pos, lexeme, q); }
    if q + 1 < |lexeme| {
      AtIndex(text, pos, lexeme, q + 1);
      DigitsIn(text, pos, lexeme, q + 1);
    }
  }

  lemma {:induction false} ExponentIn(text: Text, pos: nat, lexeme: Text, f: nat)
    requires At(text, pos, lexeme) && Stops(text, pos + |lexeme|) && f <= |lexeme|
    ensures ScanExponent(text, pos + f) == pos + ScanExponent(lexeme, f)
  {
    if f < |lexeme| { AtIndex(text, pos, lexeme, f); }
    if f + 1 < |lexeme| {
      AtIndex(text, pos, lexeme, f + 1);
      DigitsIn(text, pos, lexeme, f + 1);
    }
    if f + 2 < |lexeme| {
      AtIndex(text, pos, lexeme, f + 2);
    }
    if f + 2 <= |lexeme| {
      DigitsIn(text, pos, lexeme, f + 2);
    }
  }

  // ---- values -------------------------------------------------------------------------

  /** A value's text begins with none of the characters that could be taken for
      whitespace, a separator or the end of a container. */
  lemma {:induction false} PrintStarts(v: Value)
    requires WellFormed(v)
    ensures Print(v) != []
    ensures var c := Print(v)[0];
            !IsJsonSpace(c) && c != COMMA && c != COLON && c != RBRACE && c != RBRACKET
    ensures Print(v)[0] == QUOTE <==> v.String?
    ensures Print(v)[0] == LBRACE <==> v.Object?
    ensures Print(v)[0] == LBRACKET <==> v.Array?
    ensures Print(v)[0] == MINUS || IsDigit(Print(v)[0]) <==> v.Number?
  {
    hide PrintChars, PrintItems, PrintMembers;
    match v
    case Number(lexeme) =>
      assert lexeme[0..] == lexeme;
      NumberRoundTrip(lexeme, 0, lexeme);
    case _ =>
  }

  lemma {:induction false} WordsDiffer(text: Text, pos: nat)
    ensures At(text, pos, NULL_TEXT) ==> pos < |text| && text[pos] == 0x6e
    ensures At(text, pos, TRUE_TEXT) ==> pos < |text| && text[pos] == 0x74
    ensures At(text, pos, FALSE_TEXT) ==> pos < |text| && text[pos] == 0x66
  {
    if At(text, pos, NULL_TEXT) { AtIndex(text, pos, NULL_TEXT, 0); }
    if At(text, pos, TRUE_TEXT) { AtIndex(text, pos, TRUE_TEXT, 0); }
    if At(text, pos, FALSE_TEXT) { AtIndex(text, pos, FALSE_TEXT, 0); }
  }

  lemma {:induction false} NumberAt(text: Text, pos: nat, lexeme: Text)
    requires IsNumber(lexeme) && At(text, pos, lexeme) && Stops(text, pos + |lexeme|)
    ensures DecodeNumber(text, pos) == Some(Read(JNumber(lexeme), pos + |lexeme|))
  {
    hide ScanNumber, At, IsNumber;
    NumberRoundTrip(text, pos, lexeme);
    AtSlice(text, pos, lexeme);
    AtIndex(text, pos, lexeme, 0);
    if |lexeme| > 1 { AtIndex(text, pos, lexeme, 1); }
    if At(text, pos, NAN_TEXT) { AtIndex(text, pos, NAN_TEXT, 0); }
    if At(text, pos, INFINITY_TEXT) { AtIndex(text, pos, INFINITY_TEXT, 0); }
    if At(text, pos, MINUS_INFINITY_TEXT) {
      AtIndex(text, pos, MINUS_INFINITY_TEXT, 0);
      AtIndex(text, pos, MINUS_INFINITY_TEXT, 1);
    }
  }

  /** The first character of whitespace followed by a separator stops a word. */
  lemma {:induction false} SpaceStops(text: Text, pos: nat, ws: Text, c: Char)
    requires AllSpace(ws) && At(text, pos, ws + [c]) && (c == COMMA || c == RBRACE || c == RBRACKET)
    ensures Stops(text, pos)
    ensures SkipSpace(text, pos) == pos + |ws| && Is(text, pos + |ws|, c)
  {
    AtSplit(text, pos, ws, [c]);
    AtChar(text, pos + |ws|, c);
    if ws != [] { AtIndex(text, pos, ws, 0); }
    SkipPrinted(text, pos, ws);
  }

  /** Decoding a printed value gives the value it denotes and stops at its end. */
  lemma {:induction false} DecodeRoundTrip(text: Text, pos: nat, v: Value)
    requires WellFormed(v) && At(text, pos, Print(v)) && (v.Number? ==> Stops(text, pos + |Print(v)|))
    ensures Decode(text, pos) == Some(Read(Denote(v), pos + |Print(v)|))
    decreases v, 0
  {
    hide ReadString, DecodeNumber, PrintChars, DenoteChars, DecodeItems, DecodeMembers, At, IsNumber;
    PrintStarts(v);
    AtIndex(text, pos, Print(v), 0);
    WordsDiffer(text, pos);
    match v
    case Number(lexeme) =>
      NumberAt(text, pos, lexeme);
    case String(chars) =>
      StringAt(text, pos, chars);
    case Array(inner, items) =>
      ArrayRoundTrip(text, pos, inner, items);
    case Object(inner, members) =>
      ObjectRoundTrip(text, pos, inner, members);
    case _ =>
  }

  lemma {:induction false} ArrayRoundTrip(text: Text, pos: nat, inner: Text, items: seq<Item>)
    requires WellFormed(Array(inner, items)) && At(text, pos, Print(Array(inner, items))) && Is(text, pos, LBRACKET)
    ensures Decode(text, pos) == Some(Read(JArray(DenoteItems(items)), pos + |Print(Array(inner, items))|))
    decreases items, 2
  {
    hide DecodeItems, DecodeMembers, DecodeNumber, ReadString, At, SkipSpace, PrintItems, ItemOk, IsJsonSpace;
    var body := if items == [] then inner else PrintItems(items);
    AtSplit(text, pos, [LBRACKET], body + [RBRACKET]);
    if items == [] {
      SpaceStops(text, pos + 1, inner, RBRACKET);
    } else {
      ItemsRoundTrip(text, pos + 1, items, []);
      FirstItemStarts(text, pos + 1, items);
      assert [] + DenoteItems(items) == DenoteItems(items);
    }
  }

  lemma {:induction false} ObjectRoundTrip(text: Text, pos: nat, inner: Text, members: seq<Member>)
    requires WellFormed(Object(inner, members)) && At(text, pos, Print(Object(inner, members))) && Is(text, pos, LBRACE)
    ensures Decode(text, pos)
            == Some(Read(JObject(DenoteMembers(members, map[])), pos + |Print(Object(inner, members))|))
    decreases members, 2
  {
    hide DecodeItems, DecodeMembers, DecodeNumber, ReadString, At, SkipSpace, PrintMembers, MemberOk, IsJsonSpace;
    var body := if members == [] then inner else PrintMembers(members);
    AtSplit(text, pos, [LBRACE], body + [RBRACE]);
    if members == [] {
      SpaceStops(text, pos + 1, inner, RBRACE);
    } else {
      MembersRoundTrip(text, pos + 1, members, map[]);
      FirstMemberStarts(text, pos + 1, members);
    }
  }

  lemma {:induction false} ItemsStep(text: Text, pos: nat, done: seq<Json>, v: Read<Json>)
    requires Decode(text, pos) == Some(v)
    ensures var p := SkipSpace(text, v.end);
            && (Is(text, p, RBRACKET) ==> DecodeItems(text, pos, done) == Some(Read(JArray(done + [v.value]), p + 1)))
            && (Is(text, p, COMMA) ==>
                  DecodeItems(text, pos, done) == DecodeItems(text, SkipSpace(text, p + 1), done + [v.value]))
  {
    hide Decode, SkipSpace;
  }

  lemma {:induction false} MembersStep(text: Text, pos: nat, done: map<Text, Json>, k: Read<Text>, c: nat, v: Read<Json>)
    requires Is(text, pos, QUOTE) && ReadString(text, pos + 1) == Some(k)
    requires c == SkipSpace(text, k.end) && Is(text, c, COLON)
    requires Decode(text, SkipSpace(text, c + 1)) == Some(v)
    ensures var p := SkipSpace(text, v.end);
            var done' := done[k.value := v.value];
            && (Is(text, p, RBRACE) ==> DecodeMembers(text, pos, done) == Some(Read(JObject(done'), p + 1)))
            && (Is(text, p, COMMA) ==>
                  DecodeMembers(text, pos, done) == DecodeMembers(text, SkipSpace(text, p + 1), done'))
  {
    hide Decode, SkipSpace, ReadString;
  }

  lemma {:induction false} AtSlice(text: Text, pos: nat, t: Text)
    requires At(text, pos, t)
    ensures pos + |t| <= |text| && text[pos..pos + |t|] == t
  {}

  lemma {:induction false} StringAt(text: Text, pos: nat, cs: seq<StringChar>)
    requires CharsOk(cs) && At(text, pos, PrintString(cs))
    ensures Is(text, pos, QUOTE)
    ensures ReadString(text, pos + 1) == Some(Read(DenoteChars(cs), pos + |PrintString(cs)|))
  {
    hide At, PrintChars, ReadString, DenoteChars;
    assert PrintString(cs) == [QUOTE] + (PrintChars(cs) + [QUOTE]);
    AtSplit(text, pos, [QUOTE], PrintChars(cs) + [QUOTE]);
    AtChar(text, pos, QUOTE);
    StringRoundTrip(text, pos + 1, cs);
  }

  /** A printed item: where its value starts and ends, and what stops it. */
  lemma {:induction false} ItemAt(text: Text, pos: nat, item: Item, c: Char, tail: Text)
    requires ItemOk(item) && (c == COMMA || c == RBRACKET)
    requires At(text, pos, PrintItem(item) + ([c] + tail))
    ensures var start := pos + |item.before|;
            var end := start + |Print(item.value)|;
            && SkipSpace(text, pos) == start && At(text, start, Print(item.value)) && Stops(text, end)
            && SkipSpace(text, end) == pos + |PrintItem(item)| && Is(text, pos + |PrintItem(item)|, c)
            && At(text, pos + |PrintItem(item)| + 1, tail)
            && Is(text, start, Print(item.value)[0])
  {
    hide At, Print, SkipSpace;
    var start := pos + |item.before|;
    var end := start + |Print(item.value)|;
    var rest := [c] + tail;
    PrintStarts(item.value);
    assert PrintItem(item) + rest == item.before + (Print(item.value) + ((item.after + [c]) + tail));
    AtSplit(text, pos, item.before, Print(item.value) + ((item.after + [c]) + tail));
    AtSplit(text, start, Print(item.value), (item.after + [c]) + tail);
    AtSplit(text, end, item.after + [c], tail);
    AtIndex(text, start, Print(item.value), 0);
    SkipPrinted(text, pos, item.before);
    SpaceStops(text, end, item.after, c);
  }

  lemma {:induction false} FirstItemStarts(text: Text, pos: nat, items: seq<Item>)
    requires items != [] && (forall i :: i in items ==> ItemOk(i)) && At(text, pos, PrintItems(items) + [RBRACKET])
    ensures !Is(text, SkipSpace(text, pos), RBRACKET)
  {
    hide At, Print, SkipSpace;
    var c, tail := ItemTail(items);
    assert ItemOk(items[0]);
    ItemAt(text, pos, items[0], c, tail);
    PrintStarts(items[0].value);
  }

  /** The separator after the first item and what follows it. */
  lemma {:induction false} ItemTail(items: seq<Item>) returns (c: Char, tail: Text)
    requires items != [] && forall i :: i in items ==> ItemOk(i)
    ensures ItemOk(items[0])
    ensures PrintItems(items) + [RBRACKET] == PrintItem(items[0]) + ([c] + tail)
    ensures if |items| == 1 then c == RBRACKET && tail == []
            else c == COMMA && tail == PrintItems(items[1..]) + [RBRACKET]
  {
    hide Print;
    assert ItemOk(items[0]);
    if |items| == 1 {
      c, tail := RBRACKET, [];
      assert [RBRACKET] + [] == [RBRACKET];
    } else {
      c, tail := COMMA, PrintItems(items[1..]) + [RBRACKET];
      assert [COMMA] + (PrintItems(items[1..]) + [RBRACKET]) == ([COMMA] + PrintItems(items[1..])) + [RBRACKET];
    }
  }

  lemma {:induction false} ItemsRoundTrip(text: Text, pos: nat, items: seq<Item>, done: seq<Json>)
    requires items != [] && (forall i :: i in items ==> ItemOk(i)) && At(text, pos, PrintItems(items) + [RBRACKET])
    ensures DecodeItems(text, SkipSpace(text, pos), done)
            == Some(Read(JArray(done + DenoteItems(items)), pos + |PrintItems(items)| + 1))
    decreases items, 1
  {
    hide At, Print, SkipSpace, Decode, Denote, Stops, DecodeItems, Is;
    var c, tail := ItemTail(items);
    var first := items[0];
    ItemAt(text, pos, first, c, tail);
    assert items[0] in items && ItemOk(items[0]);
    var start := pos + |first.before|;
    DecodeRoundTrip(text, start, first.value);
    ItemsStep(text, start, done, Read(Denote(first.value), start + |Print(first.value)|));
    assert done + DenoteItems(items) == (done + [Denote(first.value)]) + DenoteItems(items[1..]);
    if |items| == 1 {
      assert (done + [Denote(first.value)]) + [] == done + [Denote(first.value)];
    } else {
      ItemsRoundTrip(text, pos + |PrintItem(first)| + 1, items[1..], done + [Denote(first.value)]);
    }
  }

  /** A printed member, part by part. */
  lemma {:induction false} MemberParts(text: Text, pos: nat, m: Member, c: Char, tail: Text)
    requires MemberOk(m) && At(text, pos, PrintMember(m) + ([c] + tail))
    ensures var name := pos + |m.before|;
            var colon := name + |PrintString(m.key)| + |m.mid|;
            var start := colon + 1 + |m.lead|;
            var end := start + |Print(m.value)|;
            && At(text, pos, m.before) && At(text, name, PrintString(m.key))
            && At(text, name + |PrintString(m.key)|, m.mid) && At(text, colon, [COLON])
            && At(text, colon + 1, m.lead) && At(text, start, Print(m.value))
            && At(text, end, m.after + [c]) && At(text, end, m.after) && At(text, end + |m.after|, [c])
            && At(text, end + |m.after| + 1, tail) && pos + |PrintMember(m)| == end + |m.after|
  {
    hide At, Print, PrintString;
    var key := PrintString(m.key);
    var name := pos + |m.before|;
    var colon := name + |key| + |m.mid|;
    var start := colon + 1 + |m.lead|;
    var end := start + |Print(m.value)|;
    var t4 := (m.after + [c]) + tail;
    var t3 := Print(m.value) + t4;
    var t2 := m.lead + t3;
    var t1 := m.mid + ([COLON] + t2);
    assert PrintMember(m) + ([c] + tail) == m.before + (key + t1);
    AtSplit(text, pos, m.before, key + t1);
    AtSplit(text, name, key, t1);
    AtSplit(text, name + |key|, m.mid, [COLON] + t2);
    AtSplit(text, colon, [COLON], t2);
    AtSplit(text, colon + 1, m.lead, t3);
    AtSplit(text, start, Print(m.value), t4);
    AtSplit(text, end, m.after + [c], tail);
    AtSplit(text, end, m.after, [c]);
  }

  /** A printed member: where its name and its value start and end. */
  lemma {:induction false} MemberAt(text: Text, pos: nat, m: Member, c: Char, tail: Text)
    requires MemberOk(m) && (c == COMMA || c == RBRACE)
    requires At(text, pos, PrintMember(m) + ([c] + tail))
    ensures var name := pos + |m.before|;
            var colon := name + |PrintString(m.key)| + |m.mid|;
            var start := colon + 1 + |m.lead|;
            var end := start + |Print(m.value)|;
            && SkipSpace(text, pos) == name && At(text, name, PrintString(m.key))
            && At(text, name + |PrintString(m.key)|, m.mid) && Is(text, colon, COLON)
            && At(text, colon + 1, m.lead)
            && SkipSpace(text, name + |PrintString(m.key)|) == colon && SkipSpace(text, colon + 1) == start
            && At(text, start, Print(m.value)) && Stops(text, end) && At(text, end, m.after)
            && SkipSpace(text, end) == pos + |PrintMember(m)| && Is(text, pos + |PrintMember(m)|, c)
            && At(text, pos + |PrintMember(m)| + 1, tail)
            && At(text, pos, m.before)
            && Is(text, start, Print(m.value)[0]) && Is(text, name, QUOTE)
  {
    hide At, Print, SkipSpace, PrintString, PrintMember;
    var key := PrintString(m.key);
    var name := pos + |m.before|;
    var colon := name + |key| + |m.mid|;
    var start := colon + 1 + |m.lead|;
    var end := start + |Print(m.value)|;
    MemberParts(text, pos, m, c, tail);
    PrintStarts(m.value);
    KeyStarts(m.key);
    AtIndex(text, name, key, 0);
    AtChar(text, colon, COLON);
    AtIndex(text, start, Print(m.value), 0);
    SkipPrinted(text, pos, m.before);
    SkipPrinted(text, name + |key|, m.mid);
    SkipPrinted(text, colon + 1, m.lead);
    SpaceStops(text, end, m.after, c);
  }

  lemma {:induction false} KeyStarts(cs: seq<StringChar>)
    requires CharsOk(cs)
    ensures PrintString(cs) != [] && PrintString(cs)[0] == QUOTE
  {}

  lemma {:induction false} MemberTail(members: seq<Member>) returns (c: Char, tail: Text)
    requires members != [] && forall m :: m in members ==> MemberOk(m)
    ensures MemberOk(members[0])
    ensures PrintMembers(members) + [RBRACE] == PrintMember(members[0]) + ([c] + tail)
    ensures if |members| == 1 then c == RBRACE && tail == []
            else c == COMMA && tail == PrintMembers(members[1..]) + [RBRACE]
  {
    hide Print, PrintString;
    assert MemberOk(members[0]);
    if |members| == 1 {
      c, tail := RBRACE, [];
      assert [RBRACE] + [] == [RBRACE];
    } else {
      c, tail := COMMA, PrintMembers(members[1..]) + [RBRACE];
      assert [COMMA] + (PrintMembers(members[1..]) + [RBRACE]) == ([COMMA] + PrintMembers(members[1..])) + [RBRACE];
    }
  }

  lemma {:induction false} FirstMemberStarts(text: Text, pos: nat, members: seq<Member>)
    requires members != [] && forall m :: m in members ==> MemberOk(m)
    requires At(text, pos, PrintMembers(members) + [RBRACE])
    ensures !Is(text, SkipSpace(text, pos), RBRACE)
  {
    hide At, Print, SkipSpace;
    var c, tail := MemberTail(members);
    MemberAt(text, pos, members[0], c, tail);
  }

  lemma {:induction false} MembersRoundTrip(text: Text, pos: nat, members: seq<Member>, done: map<Text, Json>)
    requires members != [] && forall m :: m in members ==> MemberOk(m)
    requires At(text, pos, PrintMembers(members) + [RBRACE])
    ensures DecodeMembers(text, SkipSpace(text, pos), done)
            == Some(Read(JObject(DenoteMembers(members, done)), pos + |PrintMembers(members)| + 1))
    decreases members, 1
  {
    hide At, Print, SkipSpace, Decode, Denote, Stops, ReadString, DenoteChars, PrintString, DecodeMembers, Is;
    var c, tail := MemberTail(members);
    var m := members[0];
    assert members[0] in members;
    MemberAt(text, pos, m, c, tail);
    var name := pos + |m.before|;
    var colon := name + |PrintString(m.key)| + |m.mid|;
    var start := colon + 1 + |m.lead|;
    StringAt(text, name, m.key);
    DecodeRoundTrip(text, start, m.value);
    MembersStep(text, name, done, Read(DenoteChars(m.key), name + |PrintString(m.key)|), colon,
                Read(Denote(m.value), start + |Print(m.value)|));
    if |members| > 1 {
      MembersRoundTrip(text, pos + |PrintMember(m)| + 1, members[1..], done[DenoteChars(m.key) := Denote(m.value)]);
    }
  }

  /** `loads` of a printed value with whitespace around it. */
  lemma {:induction false} LoadsRoundTrip(before: Text, v: Value, after: Text)
    requires WellFormed(v) && AllSpace(before) && AllSpace(after)
    ensures Loads(before + (Print(v) + after)) == Some(Denote(v))
  {
    hide Decode, Denote, Print, At, SkipSpace, WellFormed;
    var text := before + (Print(v) + after);
    assert At(text, 0, text) by { WholeIsAt(text); }
    AtSplit(text, 0, before, Print(v) + after);
    AtSplit(text, |before|, Print(v), after);
    PrintStarts(v);
    AtIndex(text, |before|, Print(v), 0);
    SkipPrinted(text, 0, before);
    if after != [] { AtIndex(text, |before| + |Print(v)|, after, 0); }
    SkipPrinted(text, |before| + |Print(v)|, after);
    DecodeRoundTrip(text, |before|, v);
  }

  lemma {:induction false} WholeIsAt(text: Text)
    ensures At(text, 0, text)
  {}
}
