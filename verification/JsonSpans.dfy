/** The span-only reader of rollout lines: it finds where the members of an
    object begin and end without decoding the values it passes over. */
module JsonSpans {
  import opened JsonText
  import opened JsonDecoder

  /** Python's `str.isspace`, wider than the four JSON characters. */
  predicate IsSpace(c: Char) {
    || 0x09 <= c <= 0x0d || 0x1c <= c <= 0x20 || c == 0x85 || c == 0xa0 || c == 0x1680
    || 0x2000 <= c <= 0x200a || c == 0x2028 || c == 0x2029 || c == 0x202f || c == 0x205f || c == 0x3000
  }

  function Space(text: Text, pos: nat): (r: nat)
    ensures pos <= r && (pos <= |text| ==> r <= |text|)
    decreases |text| - pos
  {
    if pos < |text| && IsSpace(text[pos]) then Space(text, pos + 1) else pos
  }

  method FindNonSpace(text: Text, pos: nat) returns (r: nat)
    ensures r == Space(text, pos)
  {
    r := pos;
    while r < |text| && IsSpace(text[r])
      invariant pos <= r && Space(text, r) == Space(text, pos)
    {
      r := r + 1;
    }
  }

  /** Just past the closing quote of a string whose opening quote is behind. */
  function StringEnd(text: Text, pos: nat): (r: Option<nat>)
    ensures r.Some? ==> pos < r.value <= |text|
    decreases |text| - pos
  {
    if pos >= |text| then None
    else if text[pos] == BACKSLASH then StringEnd(text, pos + 2)
    else if text[pos] == QUOTE then Some(pos + 1)
    else StringEnd(text, pos + 1)
  }

  /** None is the error raised for an unterminated string. */
  method SkipString(text: Text, pos: nat) returns (r: Option<nat>)
    ensures r == StringEnd(text, pos + 1)
  {
    var p := pos + 1;
    while p < |text|
      invariant StringEnd(text, p) == StringEnd(text, pos + 1)
      decreases |text| - p
    {
      if text[p] == BACKSLASH {
        p := p + 2;
      } else if text[p] == QUOTE {
        return Some(p + 1);
      } else {
        p := p + 1;
      }
    }
    return None;
  }

  predicate Opens(c: Char) { c == LBRACE || c == LBRACKET }
  predicate Closes(c: Char) { c == RBRACE || c == RBRACKET }

  /** Where `depth` open containers have all been closed. */
  function ContainerEnd(text: Text, pos: nat, depth: nat): (r: Option<nat>)
    ensures r.Some? && pos <= |text| ==> pos <= r.value <= |text|
    decreases |text| - pos
  {
    if depth == 0 then Some(pos)
    else if pos >= |text| then None
    else if text[pos] == QUOTE then
      var e := StringEnd(text, pos + 1);
      if e.None? then None else ContainerEnd(text, e.value, depth)
    else
      var depth' := if Opens(text[pos]) then depth + 1 else if Closes(text[pos]) then depth - 1 else depth;
      ContainerEnd(text, pos + 1, depth')
  }

  predicate EndsScalar(c: Char) { c == COMMA || Closes(c) || IsJsonSpace(c) }

  function ScalarEnd(text: Text, pos: nat): (r: nat)
    ensures pos <= r && (pos <= |text| ==> r <= |text|)
    decreases |text| - pos
  {
    if pos < |text| && !EndsScalar(text[pos]) then ScalarEnd(text, pos + 1) else pos
  }

  function ValueEnd(text: Text, pos: nat): (r: Option<nat>)
    ensures r.Some? ==> pos <= r.value <= |text|
  {
    if pos >= |text| then None
    else if text[pos] == QUOTE then StringEnd(text, pos + 1)
    else if Opens(text[pos]) then ContainerEnd(text, pos + 1, 1)
    else Some(ScalarEnd(text, pos))
  }

  /** The depth-counting scan. None stands for every exception it can raise. */
  method SkipValue(text: Text, pos: nat) returns (r: Option<nat>)
    ensures r == ValueEnd(text, pos)
  {
    if pos >= |text| { return None; }
    if text[pos] == QUOTE {
      r := SkipString(text, pos);
      return;
    }
    var p := pos;
    if Opens(text[pos]) {
      var depth := 1;
      p := pos + 1;
      while p < |text| && depth > 0
        invariant 0 <= depth && pos < p
        invariant ContainerEnd(text, p, depth) == ContainerEnd(text, pos + 1, 1)
        decreases |text| - p
      {
        var c := text[p];
        if c == QUOTE {
          var e := SkipString(text, p);
          if e.None? { return None; }
          p := e.value;
          continue;
        }
        if Opens(c) {
          depth := depth + 1;
        } else if Closes(c) {
          depth := depth - 1;
        }
        p := p + 1;
      }
      return if depth > 0 then None else Some(p);
    }
    while p < |text| && !EndsScalar(text[p])
      invariant pos <= p && ScalarEnd(text, p) == ScalarEnd(text, pos)
    {
      p := p + 1;
    }
    return Some(p);
  }

  datatype Span = Span(start: nat, end: nat)

  /** A decoded list or dictionary cannot be a dictionary key. */
  predicate Hashable(key: Json) { !key.JArray? && !key.JObject? }

  /** The members from a name on; None stands for every exception. */
  function MembersFrom(text: Text, pos: nat, fields: map<Json, Span>): Option<map<Json, Span>>
    decreases |text| - pos
  {
    if pos >= |text| then None
    else if text[pos] == RBRACE then Some(fields)
    else
      var key := Decode(text, pos);
      if key.None? then None
      else
        var colon := Space(text, key.value.end);
        var start := Space(text, colon + 1);
        var end := ValueEnd(text, start);
        if !Is(text, colon, COLON) || end.None? || !Hashable(key.value.value) then None
        else
          var fields' := fields[key.value.value := Span(start, end.value)];
          var p := Space(text, end.value);
          if Is(text, p, RBRACE) then Some(fields')
          else if Is(text, p, COMMA) then MembersFrom(text, Space(text, p + 1), fields')
          else None
  }

  function MembersAt(text: Text, start: nat): Option<map<Json, Span>> {
    var pos := Space(text, start);
    if pos >= |text| then None
    else if text[pos] != LBRACE then Some(map[])
    else MembersFrom(text, Space(text, pos + 1), map[])
  }

  /** One object's names and the spans of their values. */
  method Members(text: Text, start: nat) returns (r: Option<map<Json, Span>>)
    ensures r == MembersAt(text, start)
  {
    hide Decode, ValueEnd, Space;
    var pos := FindNonSpace(text, start);
    if pos >= |text| { return None; }
    if text[pos] != LBRACE { return Some(map[]); }
    var result: map<Json, Span> := map[];
    pos := FindNonSpace(text, pos + 1);
    ghost var first := pos;
    while pos < |text| && text[pos] != RBRACE
      invariant MembersFrom(text, pos, result) == MembersFrom(text, first, map[])
      decreases |text| - pos
    {
      var key := Decode(text, pos);
      if key.None? { return None; }
      var colon := FindNonSpace(text, key.value.end);
      if !Is(text, colon, COLON) { return None; }
      var begin := FindNonSpace(text, colon + 1);
      var end := SkipValue(text, begin);
      if end.None? || !Hashable(key.value.value) { return None; }
      result := result[key.value.value := Span(begin, end.value)];
      pos := FindNonSpace(text, end.value);
      if Is(text, pos, RBRACE) { return Some(result); }
      if !Is(text, pos, COMMA) { return None; }
      pos := FindNonSpace(text, pos + 1);
    }
    return if pos >= |text| then None else Some(result);
  }

  /** What is read of one member. Some(default) when it is absent; None when its
      text does not decode. */
  function ValueOf(text: Text, fields: map<Json, Span>, key: Json, default: Json): Option<Json> {
    if key !in fields then Some(default)
    else if fields[key].start <= fields[key].end <= |text| then Loads(text[fields[key].start..fields[key].end])
    else None
  }

  // ---- the scan stops where the decoder stops ------------------------------------------

  lemma {:induction false} StringStep(text: Text, pos: nat)
    requires pos < |text| && text[pos] != QUOTE && text[pos] != BACKSLASH
    ensures StringEnd(text, pos) == StringEnd(text, pos + 1)
  {}

  lemma {:induction false} HexIsPlain(text: Text, pos: nat)
    requires ReadHex(text, pos).Some?
    ensures StringEnd(text, pos) == StringEnd(text, pos + 4)
  {
    hide StringEnd;
    var hex := text[pos..pos + 4];
    assert hex[0] == text[pos] && hex[1] == text[pos + 1] && hex[2] == text[pos + 2] && hex[3] == text[pos + 3];
    StringStep(text, pos);
    StringStep(text, pos + 1);
    StringStep(text, pos + 2);
    StringStep(text, pos + 3);
  }

  lemma {:induction false} EscapeStep(text: Text, pos: nat)
    requires pos < |text| && text[pos] == BACKSLASH
    ensures StringEnd(text, pos) == StringEnd(text, pos + 2)
  {}

  lemma {:induction false} CharStep(text: Text, pos: nat)
    requires ReadChar(text, pos).Some?
    ensures text[pos] != QUOTE && StringEnd(text, pos) == StringEnd(text, ReadChar(text, pos).value.end)
  {
    hide StringEnd, ReadHex, Combine;
    if text[pos] != BACKSLASH {
      StringStep(text, pos);
    } else {
      EscapeStep(text, pos);
      if text[pos + 1] == LOWER_U {
        HexIsPlain(text, pos + 2);
        if ReadChar(text, pos).value.end == pos + 12 {
          EscapeStep(text, pos + 6);
          HexIsPlain(text, pos + 8);
        }
      }
    }
  }

  lemma {:induction false} StringEndAgrees(text: Text, pos: nat)
    requires ReadString(text, pos).Some?
    ensures StringEnd(text, pos) == Some(ReadString(text, pos).value.end)
    decreases |text| - pos
  {
    hide ReadChar;
    if text[pos] != QUOTE {
      CharStep(text, pos);
      StringEndAgrees(text, ReadChar(text, pos).value.end);
    }
  }

  /** A character that belongs to a bare word or number. */
  predicate WordChar(c: Char) { !EndsScalar(c) && !Opens(c) && c != QUOTE && !IsSpace(c) }

  predicate Wordy(text: Text, p: nat, q: nat) {
    p <= q <= |text| && forall k :: p <= k < q ==> WordChar(text[k])
  }

  lemma {:induction false} WordAt(text: Text, pos: nat, t: Text)
    requires At(text, pos, t) && forall k :: 0 <= k < |t| ==> WordChar(t[k])
    ensures Wordy(text, pos, pos + |t|)
  {
    hide At, WordChar;
    AtSlice(text, pos, t);
    forall k | pos <= k < pos + |t|
      ensures WordChar(text[k])
    {
      AtIndex(text, pos, t, k - pos);
    }
  }

  lemma {:induction false} DigitsWordy(text: Text, pos: nat)
    requires pos <= |text|
    ensures Wordy(text, pos, SkipDigits(text, pos))
    decreases |text| - pos
  {
    if pos < |text| && IsDigit(text[pos]) { DigitsWordy(text, pos + 1); }
  }

  lemma {:induction false} NumberWordy(text: Text, pos: nat)
    requires ScanNumber(text, pos).Some?
    ensures Wordy(text, pos, ScanNumber(text, pos).value)
  {
    hide SkipDigits;
    var p := if text[pos] == MINUS then pos + 1 else pos;
    DigitsWordy(text, p);
    var q := if text[p] == ZERO then p + 1 else SkipDigits(text, p);
    FractionWordy(text, q);
    ExponentWordy(text, ScanFraction(text, q));
  }

  lemma {:induction false} FractionWordy(text: Text, q: nat)
    requires q <= |text|
    ensures Wordy(text, q, ScanFraction(text, q))
  {
    hide SkipDigits;
    if q + 1 < |text| { DigitsWordy(text, q + 1); }
  }

  lemma {:induction false} ExponentWordy(text: Text, f: nat)
    requires f <= |text|
    ensures Wordy(text, f, ScanExponent(text, f))
  {
    hide SkipDigits;
    if f + 1 <= |text| { DigitsWordy(text, f + 1); }
    if f + 2 <= |text| { DigitsWordy(text, f + 2); }
  }

  predicate IsScalar(c: Char) { c != QUOTE && !Opens(c) }

  lemma {:induction false} ScalarWordy(text: Text, pos: nat)
    requires pos < |text| && IsScalar(text[pos]) && Decode(text, pos).Some?
    ensures Wordy(text, pos, Decode(text, pos).value.end)
  {
    hide At, ScanNumber, DecodeItems, DecodeMembers, ReadString, Wordy, WordChar;
    assert forall k :: 0 <= k < |NULL_TEXT| ==> WordChar(NULL_TEXT[k]) by { WordsAreWords(); }
    WordsAreWords();
    if At(text, pos, NULL_TEXT) { WordAt(text, pos, NULL_TEXT); }
    else if At(text, pos, TRUE_TEXT) { WordAt(text, pos, TRUE_TEXT); }
    else if At(text, pos, FALSE_TEXT) { WordAt(text, pos, FALSE_TEXT); }
    else if At(text, pos, NAN_TEXT) { WordAt(text, pos, NAN_TEXT); }
    else if At(text, pos, INFINITY_TEXT) { WordAt(text, pos, INFINITY_TEXT); }
    else if At(text, pos, MINUS_INFINITY_TEXT) { WordAt(text, pos, MINUS_INFINITY_TEXT); }
    else { NumberWordy(text, pos); }
  }

  lemma {:induction false} WordsAreWords()
    ensures forall k :: 0 <= k < |NULL_TEXT| ==> WordChar(NULL_TEXT[k])
    ensures forall k :: 0 <= k < |TRUE_TEXT| ==> WordChar(TRUE_TEXT[k])
    ensures forall k :: 0 <= k < |FALSE_TEXT| ==> WordChar(FALSE_TEXT[k])
    ensures forall k :: 0 <= k < |NAN_TEXT| ==> WordChar(NAN_TEXT[k])
    ensures forall k :: 0 <= k < |INFINITY_TEXT| ==> WordChar(INFINITY_TEXT[k])
    ensures forall k :: 0 <= k < |MINUS_INFINITY_TEXT| ==> WordChar(MINUS_INFINITY_TEXT[k])
  {}

  lemma {:induction false} ScalarRun(text: Text, p: nat, q: nat)
    requires Wordy(text, p, q) && Stops(text, q)
    ensures ScalarEnd(text, p) == q
    decreases q - p
  {
    if p < q { ScalarRun(text, p + 1, q); }
  }

  /** Text without quotes and brackets leaves the depth alone. */
  lemma {:induction false} PlainRun(text: Text, p: nat, q: nat, depth: nat)
    requires p <= q <= |text|
    requires forall k :: p <= k < q ==> text[k] != QUOTE && !Opens(text[k]) && !Closes(text[k])
    ensures ContainerEnd(text, p, depth + 1) == ContainerEnd(text, q, depth + 1)
    decreases q - p
  {
    if p < q { PlainRun(text, p + 1, q, depth); }
  }

  lemma {:induction false} SpaceBetween(text: Text, p: nat)
    requires p <= |text|
    ensures forall k :: p <= k < SkipSpace(text, p) ==> IsJsonSpace(text[k])
    decreases |text| - p
  {
    if p < |text| && IsJsonSpace(text[p]) { SpaceBetween(text, p + 1); }
  }

  lemma {:induction false} SpaceRun(text: Text, p: nat, depth: nat)
    requires p <= |text|
    ensures ContainerEnd(text, p, depth + 1) == ContainerEnd(text, SkipSpace(text, p), depth + 1)
  {
    hide ContainerEnd, SkipSpace;
    SpaceBetween(text, p);
    PlainRun(text, p, SkipSpace(text, p), depth);
  }

  /** One separator inside a container. */
  lemma {:induction false} MarkStep(text: Text, p: nat, depth: nat)
    requires p < |text| && text[p] != QUOTE
    ensures !Opens(text[p]) && !Closes(text[p]) ==>
              ContainerEnd(text, p, depth + 1) == ContainerEnd(text, p + 1, depth + 1)
    ensures Opens(text[p]) ==> ContainerEnd(text, p, depth + 1) == ContainerEnd(text, p + 1, depth + 2)
    ensures Closes(text[p]) ==> ContainerEnd(text, p, depth + 1) == ContainerEnd(text, p + 1, depth)
  {}

  lemma {:induction false} QuotedStep(text: Text, p: nat, depth: nat)
    requires Is(text, p, QUOTE) && ReadString(text, p + 1).Some?
    ensures ContainerEnd(text, p, depth + 1) == ContainerEnd(text, ReadString(text, p + 1).value.end, depth + 1)
  {
    hide ReadString, StringEnd;
    StringEndAgrees(text, p + 1);
  }

  /** Inside a container a whole value leaves the depth as it was. */
  lemma {:induction false} DepthKept(text: Text, pos: nat, depth: nat)
    requires Decode(text, pos).Some?
    ensures ContainerEnd(text, pos, depth + 1) == ContainerEnd(text, Decode(text, pos).value.end, depth + 1)
    decreases |text| - pos, 1
  {
    hide ContainerEnd, Wordy, WordChar, DecodeItems, DecodeMembers, DecodeNumber, ReadString, At, SkipSpace;
    if Is(text, pos, QUOTE) {
      QuotedStep(text, pos, depth);
      assert Decode(text, pos).value.end == ReadString(text, pos + 1).value.end;
    } else if Opens(text[pos]) {
      MarkStep(text, pos, depth);
      InsideKept(text, pos, depth + 1);
    } else {
      hide Decode;
      ScalarWordy(text, pos);
      ScalarKept(text, pos, Decode(text, pos).value.end, depth);
    }
  }

  lemma {:induction false} ScalarKept(text: Text, p: nat, q: nat, depth: nat)
    requires Wordy(text, p, q)
    ensures ContainerEnd(text, p, depth + 1) == ContainerEnd(text, q, depth + 1)
  {
    hide ContainerEnd;
    PlainRun(text, p, q, depth);
  }

  /** From just inside a container to just past its end, one level less. */
  lemma {:induction false} InsideKept(text: Text, pos: nat, depth: nat)
    requires pos < |text| && Opens(text[pos]) && Decode(text, pos).Some?
    ensures ContainerEnd(text, pos + 1, depth + 1) == ContainerEnd(text, Decode(text, pos).value.end, depth)
    decreases |text| - pos, 0
  {
    hide ContainerEnd, DecodeItems, DecodeMembers, SkipSpace;
    SpaceRun(text, pos + 1, depth);
    var p := SkipSpace(text, pos + 1);
    if p < |text| && Closes(text[p]) { MarkStep(text, p, depth); }
    if text[pos] == LBRACE {
      if !Is(text, p, RBRACE) { MembersDepth(text, p, map[], depth); }
    } else {
      if !Is(text, p, RBRACKET) { ItemsDepth(text, p, [], depth); }
    }
  }

  lemma {:induction false} ItemsDepth(text: Text, pos: nat, done: seq<Json>, depth: nat)
    requires DecodeItems(text, pos, done).Some?
    ensures ContainerEnd(text, pos, depth + 1) == ContainerEnd(text, DecodeItems(text, pos, done).value.end, depth)
    decreases |text| - pos, 2
  {
    hide ContainerEnd, Decode, SkipSpace;
    var v := Decode(text, pos).value;
    DepthKept(text, pos, depth);
    SpaceRun(text, v.end, depth);
    var p := SkipSpace(text, v.end);
    MarkStep(text, p, depth);
    if !Is(text, p, RBRACKET) {
      SpaceRun(text, p + 1, depth);
      ItemsDepth(text, SkipSpace(text, p + 1), done + [v.value], depth);
    }
  }

  /** A name and the colon after it leave the depth as it was. */
  lemma {:induction false} NameDepth(text: Text, pos: nat, depth: nat)
    requires Is(text, pos, QUOTE) && ReadString(text, pos + 1).Some?
    requires Is(text, SkipSpace(text, ReadString(text, pos + 1).value.end), COLON)
    ensures var start := SkipSpace(text, SkipSpace(text, ReadString(text, pos + 1).value.end) + 1);
            ContainerEnd(text, pos, depth + 1) == ContainerEnd(text, start, depth + 1)
  {
    hide ContainerEnd, SkipSpace, ReadString;
    var end := ReadString(text, pos + 1).value.end;
    QuotedStep(text, pos, depth);
    SpaceRun(text, end, depth);
    MarkStep(text, SkipSpace(text, end), depth);
    SpaceRun(text, SkipSpace(text, end) + 1, depth);
  }

  lemma {:induction false} MembersDepth(text: Text, pos: nat, done: map<Text, Json>, depth: nat)
    requires DecodeMembers(text, pos, done).Some?
    ensures ContainerEnd(text, pos, depth + 1) == ContainerEnd(text, DecodeMembers(text, pos, done).value.end, depth)
    decreases |text| - pos, 2
  {
    hide ContainerEnd, Decode, SkipSpace, ReadString;
    var k := ReadString(text, pos + 1).value;
    var start := SkipSpace(text, SkipSpace(text, k.end) + 1);
    NameDepth(text, pos, depth);
    var v := Decode(text, start).value;
    DepthKept(text, start, depth);
    SpaceRun(text, v.end, depth);
    var p := SkipSpace(text, v.end);
    MarkStep(text, p, depth);
    if !Is(text, p, RBRACE) {
      SpaceRun(text, p + 1, depth);
      MembersDepth(text, SkipSpace(text, p + 1), done[k.value := v.value], depth);
    }
  }

  /** A number or a word starts here: nothing closes it. */
  predicate ScalarAt(text: Text, pos: nat) { pos < |text| && text[pos] != QUOTE && !Opens(text[pos]) }

  /** On any text at all: where the decoder reads a string or a container, or a
      scalar that a separator or the end of the text follows, the scan stops
      exactly at that value's end. */
  lemma {:induction false} SkipAgrees(text: Text, pos: nat)
    requires Decode(text, pos).Some? && (ScalarAt(text, pos) ==> Stops(text, Decode(text, pos).value.end))
    ensures ValueEnd(text, pos) == Some(Decode(text, pos).value.end)
  {
    hide ContainerEnd, StringEnd, ScalarEnd, ReadString, DecodeItems, DecodeMembers, DecodeNumber, Wordy, At, SkipSpace,
         Stops;
    if Is(text, pos, QUOTE) {
      StringEndAgrees(text, pos + 1);
    } else if Opens(text[pos]) {
      hide Decode;
      InsideKept(text, pos, 0);
      AtDepthZero(text, Decode(text, pos).value.end);
    } else {
      hide Decode;
      ScalarWordy(text, pos);
      ScalarRun(text, pos, Decode(text, pos).value.end);
    }
  }

  lemma {:induction false} AtDepthZero(text: Text, p: nat)
    ensures ContainerEnd(text, p, 0) == Some(p)
  {}

  /** The scan of a printed value, whatever whitespace it was printed with. */
  lemma {:induction false} SkipPrintedValue(text: Text, pos: nat, v: Value)
    requires WellFormed(v) && At(text, pos, Print(v))
    requires !v.String? && !v.Array? && !v.Object? ==> Stops(text, pos + |Print(v)|)
    ensures ValueEnd(text, pos) == Some(pos + |Print(v)|)
  {
    hide ValueEnd, Decode, Print, At, Stops;
    DecodeRoundTrip(text, pos, v);
    PrintFirst(v);
    AtIndex(text, pos, Print(v), 0);
    SkipAgrees(text, pos);
  }

  lemma {:induction false} PrintFirst(v: Value)
    requires WellFormed(v)
    ensures Print(v) != []
    ensures v.String? ==> Print(v)[0] == QUOTE
    ensures v.Array? || v.Object? ==> Opens(Print(v)[0])
  {}
}
