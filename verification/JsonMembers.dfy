/** The members found by spans are the members a full decoding finds. */
module JsonMembers {
  import opened JsonText
  import opened JsonDecoder
  import opened JsonSpans

  // ---- the decoder reads nothing outside the value ----------------------------------

  function Window(text: Text, s: nat, e: nat): (w: Text)
    requires s <= e <= |text|
    ensures |w| == e - s
  {
    text[s..e]
  }

  lemma {:induction false} WindowChar(text: Text, s: nat, e: nat, p: nat, c: Char)
    requires s <= p && s <= e <= |text|
    ensures p < e ==> Window(text, s, e)[p - s] == text[p]
    ensures p < e ==> (Is(Window(text, s, e), p - s, c) <==> Is(text, p, c))
    ensures p >= e ==> !Is(Window(text, s, e), p - s, c)
  {}

  lemma {:induction false} WindowSlice(text: Text, s: nat, e: nat, a: nat, b: nat)
    requires s <= a <= b <= e <= |text|
    ensures Window(text, s, e)[a - s..b - s] == text[a..b]
  {
    var w := Window(text, s, e);
    var u := w[a - s..b - s];
    assert |u| == b - a;
    assert forall k :: 0 <= k < b - a ==> u[k] == text[s..e][a - s + k];
    assert forall k :: 0 <= k < b - a ==> u[k] == text[a..b][k];
  }

  lemma {:induction false} WindowAt(text: Text, s: nat, e: nat, p: nat, t: Text)
    requires s <= p && s <= e <= |text|
    ensures p + |t| <= e ==> (At(Window(text, s, e), p - s, t) <==> At(text, p, t))
    ensures p + |t| > e ==> !At(Window(text, s, e), p - s, t)
  {
    if p + |t| <= e { WindowSlice(text, s, e, p, p + |t|); }
  }

  lemma {:induction false} WindowSpace(text: Text, s: nat, e: nat, p: nat)
    requires s <= p <= SkipSpace(text, p) <= e <= |text|
    ensures SkipSpace(Window(text, s, e), p - s) == SkipSpace(text, p) - s
    decreases e - p
  {
    if p < e {
      WindowChar(text, s, e, p, QUOTE);
      if IsJsonSpace(text[p]) { WindowSpace(text, s, e, p + 1); }
    }
  }

  lemma {:induction false} WindowDigits(text: Text, s: nat, e: nat, p: nat)
    requires s <= p <= SkipDigits(text, p) <= e <= |text|
    ensures SkipDigits(Window(text, s, e), p - s) == SkipDigits(text, p) - s
    decreases e - p
  {
    if p < e {
      WindowChar(text, s, e, p, QUOTE);
      if IsDigit(text[p]) { WindowDigits(text, s, e, p + 1); }
    }
  }

  lemma {:induction false} WindowFraction(text: Text, s: nat, e: nat, q: nat)
    requires s <= q <= e <= |text| && ScanFraction(text, q) <= e
    ensures ScanFraction(Window(text, s, e), q - s) == ScanFraction(text, q) - s
  {
    hide SkipDigits, Window;
    WindowChar(text, s, e, q, QUOTE);
    WindowChar(text, s, e, q + 1, QUOTE);
    DigitsMove(text, q + 1);
    if q + 1 < |text| && text[q] == 0x2e && IsDigit(text[q + 1]) { WindowDigits(text, s, e, q + 1); }
  }

  lemma {:induction false} WindowExponent(text: Text, s: nat, e: nat, f: nat)
    requires s <= f <= e <= |text| && ScanExponent(text, f) <= e
    ensures ScanExponent(Window(text, s, e), f - s) == ScanExponent(text, f) - s
  {
    hide SkipDigits, Window;
    WindowChar(text, s, e, f, QUOTE);
    WindowChar(text, s, e, f + 1, QUOTE);
    WindowChar(text, s, e, f + 2, QUOTE);
    DigitsMove(text, f + 1);
    DigitsMove(text, f + 2);
    if f + 1 < e && SkipDigits(text, f + 1) <= e { WindowDigits(text, s, e, f + 1); }
    if f + 2 < e && SkipDigits(text, f + 2) <= e { WindowDigits(text, s, e, f + 2); }
  }

  lemma {:induction false} DigitsMove(text: Text, p: nat)
    ensures p < |text| && IsDigit(text[p]) ==> SkipDigits(text, p) > p
  {}

  lemma {:induction false} WindowNumber(text: Text, s: nat, e: nat, p: nat)
    requires s <= p && e <= |text| && ScanNumber(text, p).Some? && ScanNumber(text, p).value <= e
    ensures ScanNumber(Window(text, s, e), p - s) == Some(ScanNumber(text, p).value - s)
  {
    hide SkipDigits, Window, ScanFraction, ScanExponent;
    WindowChar(text, s, e, p, MINUS);
    var d := if text[p] == MINUS then p + 1 else p;
    WindowChar(text, s, e, d, ZERO);
    var q := if text[d] == ZERO then d + 1 else SkipDigits(text, d);
    DigitsMove(text, d);
    if text[d] != ZERO { WindowDigits(text, s, e, d); }
    WindowFraction(text, s, e, q);
    WindowExponent(text, s, e, ScanFraction(text, q));
  }

  lemma {:induction false} WindowHex(text: Text, s: nat, e: nat, p: nat)
    requires s <= p && p + 4 <= e <= |text|
    ensures ReadHex(Window(text, s, e), p - s) == ReadHex(text, p)
  {
    hide IsHex4, CodeOf;
    WindowSlice(text, s, e, p, p + 4);
  }

  /** The value at `r` moved `s` characters to the left. */
  function Moved<T>(r: Read<T>, s: nat): Read<T>
    requires s <= r.end
  {
    Read(r.value, r.end - s)
  }

  lemma {:induction false} WindowReadChar(text: Text, s: nat, e: nat, p: nat, q: nat)
    requires s <= p && e <= |text| && ReadChar(text, p).Some? && ReadChar(text, p).value.end == q <= e
    requires Is(text, q, BACKSLASH) && Is(text, q + 1, LOWER_U) ==> q + 6 <= e
    ensures ReadChar(Window(text, s, e), p - s) == Some(Moved(ReadChar(text, p).value, s))
  {
    hide ReadHex, Window, Combine;
    WindowChar(text, s, e, p, QUOTE);
    WindowChar(text, s, e, p + 1, QUOTE);
    WindowChar(text, s, e, p + 6, QUOTE);
    WindowChar(text, s, e, p + 7, QUOTE);
    if text[p] == BACKSLASH && text[p + 1] == LOWER_U {
      WindowHex(text, s, e, p + 2);
      if p + 12 <= e { WindowHex(text, s, e, p + 8); }
    }
  }

  lemma {:induction false} EscapeIsLong(text: Text, q: nat)
    requires ReadString(text, q).Some?
    ensures Is(text, q, BACKSLASH) && Is(text, q + 1, LOWER_U) ==> q + 6 <= ReadString(text, q).value.end
  {
    hide ReadHex, Combine;
  }

  lemma {:induction false} WindowString(text: Text, s: nat, e: nat, p: nat)
    requires s <= p && e <= |text| && ReadString(text, p).Some? && ReadString(text, p).value.end <= e
    ensures ReadString(Window(text, s, e), p - s) == Some(Moved(ReadString(text, p).value, s))
    decreases |text| - p
  {
    hide ReadChar, Window;
    WindowChar(text, s, e, p, QUOTE);
    if text[p] != QUOTE {
      var q := ReadChar(text, p).value.end;
      assert p < q;
      EscapeIsLong(text, q);
      WindowReadChar(text, s, e, p, q);
      WindowString(text, s, e, q);
    }
  }

  lemma {:induction false} WindowWord(text: Text, s: nat, e: nat, p: nat)
    requires s <= p && e <= |text| && DecodeNumber(text, p).Some? && DecodeNumber(text, p).value.end <= e
    ensures DecodeNumber(Window(text, s, e), p - s) == Some(Moved(DecodeNumber(text, p).value, s))
  {
    hide ScanNumber, At, Window;
    WindowAt(text, s, e, p, NAN_TEXT);
    WindowAt(text, s, e, p, INFINITY_TEXT);
    WindowAt(text, s, e, p, MINUS_INFINITY_TEXT);
    if !At(text, p, NAN_TEXT) && !At(text, p, INFINITY_TEXT) && !At(text, p, MINUS_INFINITY_TEXT) {
      WindowNumber(text, s, e, p);
      WindowSlice(text, s, e, p, ScanNumber(text, p).value);
    }
  }

  /** Decoding inside a window that holds the whole value gives the same value. */
  lemma {:induction false} WindowDecode(text: Text, s: nat, e: nat, p: nat)
    requires s <= p && e <= |text| && Decode(text, p).Some? && Decode(text, p).value.end <= e
    ensures Decode(Window(text, s, e), p - s) == Some(Moved(Decode(text, p).value, s))
    decreases |text| - p, 1
  {
    hide ReadString, DecodeNumber, At, Window, Is, SkipSpace, DecodeItems, DecodeMembers;
    WindowMarks(text, s, e, p);
    WindowAt(text, s, e, p, NULL_TEXT);
    WindowAt(text, s, e, p, TRUE_TEXT);
    WindowAt(text, s, e, p, FALSE_TEXT);
    if Is(text, p, QUOTE) {
      WindowString(text, s, e, p + 1);
    } else if Is(text, p, LBRACE) || Is(text, p, LBRACKET) {
      WindowInside(text, s, e, p);
    } else if !At(text, p, NULL_TEXT) && !At(text, p, TRUE_TEXT) && !At(text, p, FALSE_TEXT) {
      WindowWord(text, s, e, p);
    }
  }

  lemma {:induction false} WindowMarks(text: Text, s: nat, e: nat, p: nat)
    requires s <= p < e <= |text|
    ensures Is(Window(text, s, e), p - s, QUOTE) <==> Is(text, p, QUOTE)
    ensures Is(Window(text, s, e), p - s, LBRACE) <==> Is(text, p, LBRACE)
    ensures Is(Window(text, s, e), p - s, LBRACKET) <==> Is(text, p, LBRACKET)
    ensures Is(Window(text, s, e), p - s, RBRACE) <==> Is(text, p, RBRACE)
    ensures Is(Window(text, s, e), p - s, RBRACKET) <==> Is(text, p, RBRACKET)
    ensures Is(Window(text, s, e), p - s, COMMA) <==> Is(text, p, COMMA)
    ensures Is(Window(text, s, e), p - s, COLON) <==> Is(text, p, COLON)
  {
    WindowChar(text, s, e, p, QUOTE);
  }

  lemma {:induction false} WindowInside(text: Text, s: nat, e: nat, p: nat)
    requires s <= p && e <= |text| && Decode(text, p).Some? && Decode(text, p).value.end <= e
    requires Is(text, p, LBRACE) || Is(text, p, LBRACKET)
    ensures Decode(Window(text, s, e), p - s) == Some(Moved(Decode(text, p).value, s))
    decreases |text| - p, 0
  {
    hide ReadString, DecodeNumber, At, Window, SkipSpace, DecodeItems, DecodeMembers;
    WindowMarks(text, s, e, p);
    var q := SkipSpace(text, p + 1);
    WindowSpace(text, s, e, p + 1);
    WindowMarks(text, s, e, q);
    if Is(text, p, LBRACE) {
      if !Is(text, q, RBRACE) { WindowMembers(text, s, e, q, map[]); }
    } else {
      if !Is(text, q, RBRACKET) { WindowItems(text, s, e, q, []); }
    }
  }

  lemma {:induction false} WindowItems(text: Text, s: nat, e: nat, p: nat, done: seq<Json>)
    requires s <= p && e <= |text| && DecodeItems(text, p, done).Some? && DecodeItems(text, p, done).value.end <= e
    ensures DecodeItems(Window(text, s, e), p - s, done) == Some(Moved(DecodeItems(text, p, done).value, s))
    decreases |text| - p, 2
  {
    hide Decode, Window, SkipSpace;
    var v := Decode(text, p).value;
    var q := SkipSpace(text, v.end);
    WindowDecode(text, s, e, p);
    WindowSpace(text, s, e, v.end);
    WindowMarks(text, s, e, q);
    if !Is(text, q, RBRACKET) {
      WindowSpace(text, s, e, q + 1);
      WindowItems(text, s, e, SkipSpace(text, q + 1), done + [v.value]);
    }
  }

  /** What a decoded run of members begins with. */
  lemma {:induction false} MembersShape(text: Text, pos: nat, done: map<Text, Json>)
    returns (k: Read<Text>, c: nat, start: nat, v: Read<Json>, q: nat)
    requires DecodeMembers(text, pos, done).Some?
    ensures Is(text, pos, QUOTE) && ReadString(text, pos + 1) == Some(k)
    ensures c == SkipSpace(text, k.end) && Is(text, c, COLON) && start == SkipSpace(text, c + 1)
    ensures Decode(text, start) == Some(v) && q == SkipSpace(text, v.end)
    ensures pos < k.end <= c < start < v.end <= q
    ensures var done' := done[k.value := v.value];
            if Is(text, q, RBRACE) then DecodeMembers(text, pos, done) == Some(Read(JObject(done'), q + 1))
            else && Is(text, q, COMMA) && q < SkipSpace(text, q + 1)
                 && DecodeMembers(text, pos, done) == DecodeMembers(text, SkipSpace(text, q + 1), done')
  {
    hide Decode, SkipSpace, ReadString;
    k := ReadString(text, pos + 1).value;
    c := SkipSpace(text, k.end);
    start := SkipSpace(text, c + 1);
    v := Decode(text, start).value;
    q := SkipSpace(text, v.end);
  }

  lemma {:induction false} WindowMembers(text: Text, s: nat, e: nat, p: nat, done: map<Text, Json>)
    requires s <= p && e <= |text| && DecodeMembers(text, p, done).Some? && DecodeMembers(text, p, done).value.end <= e
    ensures DecodeMembers(Window(text, s, e), p - s, done) == Some(Moved(DecodeMembers(text, p, done).value, s))
    decreases |text| - p, 1
  {
    hide Decode, Window, SkipSpace, ReadString, DecodeMembers, Is;
    var k, c, b, v, q := MembersShape(text, p, done);
    WindowMember(text, s, e, p, k, c, b, v);
    WindowSpace(text, s, e, v.end);
    WindowMarks(text, s, e, q);
    MembersStep(Window(text, s, e), p - s, done, Moved(k, s), c - s, Moved(v, s));
    if !Is(text, q, RBRACE) {
      WindowSpace(text, s, e, q + 1);
      WindowMembers(text, s, e, SkipSpace(text, q + 1), done[k.value := v.value]);
    }
  }

  lemma {:induction false} WindowMember(text: Text, s: nat, e: nat, p: nat, k: Read<Text>, c: nat, b: nat, v: Read<Json>)
    requires s <= p < e <= |text| && v.end <= e
    requires Is(text, p, QUOTE) && ReadString(text, p + 1) == Some(k)
    requires c == SkipSpace(text, k.end) && Is(text, c, COLON) && b == SkipSpace(text, c + 1)
    requires Decode(text, b) == Some(v) && p < k.end <= c < b < v.end
    ensures var w := Window(text, s, e);
            && Is(w, p - s, QUOTE) && ReadString(w, p - s + 1) == Some(Moved(k, s))
            && c - s == SkipSpace(w, k.end - s) && Is(w, c - s, COLON) && b - s == SkipSpace(w, c - s + 1)
            && Decode(w, b - s) == Some(Moved(v, s))
    decreases |text| - p, 0
  {
    hide Decode, Window, SkipSpace, ReadString, Is;
    WindowMarks(text, s, e, p);
    WindowString(text, s, e, p + 1);
    WindowSpace(text, s, e, k.end);
    WindowMarks(text, s, e, c);
    WindowSpace(text, s, e, c + 1);
    WindowDecode(text, s, e, b);
  }

  /** Loading the slice of a value gives the value. */
  lemma {:induction false} LoadsSlice(text: Text, s: nat)
    requires Decode(text, s).Some?
    ensures Loads(text[s..Decode(text, s).value.end]) == Some(Decode(text, s).value.value)
  {
    hide Decode;
    var e := Decode(text, s).value.end;
    var w := Window(text, s, e);
    WindowDecode(text, s, e, s);
    DecodeStarts(text, s);
    assert w[0] == text[s];
    assert !IsJsonSpace(text[s]);
    assert SkipSpace(w, 0) == 0;
  }

  // ---- members ---------------------------------------------------------------------------

  lemma {:induction false} DecodeStarts(text: Text, pos: nat)
    requires Decode(text, pos).Some?
    ensures !IsSpace(text[pos])
  {
    hide At, DecodeItems, DecodeMembers, ReadString, SkipSpace, Wordy, DecodeNumber;
    if IsScalar(text[pos]) {
      hide Decode;
      ScalarWordy(text, pos);
      FirstIsWord(text, pos, Decode(text, pos).value.end);
    }
  }

  lemma {:induction false} FirstIsWord(text: Text, p: nat, q: nat)
    requires Wordy(text, p, q) && p < q
    ensures WordChar(text[p])
  {}

  /** Python's wider whitespace makes no difference before a character that is
      not whitespace. */
  lemma {:induction false} SpaceAgrees(text: Text, pos: nat)
    requires SkipSpace(text, pos) < |text| && !IsSpace(text[SkipSpace(text, pos)])
    ensures Space(text, pos) == SkipSpace(text, pos)
    decreases |text| - pos
  {
    if pos < |text| && IsJsonSpace(text[pos]) { SpaceAgrees(text, pos + 1); }
  }

  lemma {:induction false} StopsBefore(text: Text, pos: nat)
    requires Is(text, SkipSpace(text, pos), RBRACE) || Is(text, SkipSpace(text, pos), COMMA)
    ensures Stops(text, pos)
  {}

  /** The span is exactly where the decoder reads `value`. */
  ghost predicate Reads(text: Text, span: Span, value: Json) {
    && Decode(text, span.start) == Some(Read(value, span.end))
    && Stops(text, span.end)
  }

  /** The spans are those of exactly the decoded members. */
  ghost predicate Agree(text: Text, fields: map<Json, Span>, members: map<Text, Json>) {
    && (forall key :: key in fields ==> key.JString? && key.s in members)
    && (forall name :: name in members ==> JString(name) in fields && Reads(text, fields[JString(name)], members[name]))
  }

  lemma {:induction false} AgreeNext(text: Text, fields: map<Json, Span>, members: map<Text, Json>, name: Text, span: Span, v: Json)
    requires Agree(text, fields, members) && Reads(text, span, v)
    ensures Agree(text, fields[JString(name) := span], members[name := v])
  {
    hide Reads;
  }

  lemma {:induction false} MembersFromStep(text: Text, pos: nat, fields: map<Json, Span>, k: Read<Text>, v: Read<Json>,
                                           colon: nat, start: nat, p: nat)
    requires Is(text, pos, QUOTE) && ReadString(text, pos + 1) == Some(k)
    requires colon == Space(text, k.end) && Is(text, colon, COLON)
    requires start == Space(text, colon + 1) && ValueEnd(text, start) == Some(v.end) && p == Space(text, v.end)
    ensures var fields' := fields[JString(k.value) := Span(start, v.end)];
            && (Is(text, p, RBRACE) ==> MembersFrom(text, pos, fields) == Some(fields'))
            && (Is(text, p, COMMA) ==> MembersFrom(text, pos, fields) == MembersFrom(text, Space(text, p + 1), fields'))
  {
    hide Space, ValueEnd, ReadString, DecodeItems, DecodeMembers;
  }

  lemma {:induction false} MembersAgreeFrom(text: Text, pos: nat, done: map<Text, Json>, fields: map<Json, Span>)
    requires DecodeMembers(text, pos, done).Some? && Agree(text, fields, done)
    ensures DecodeMembers(text, pos, done).value.value.JObject?
    ensures MembersFrom(text, pos, fields).Some?
    ensures Agree(text, MembersFrom(text, pos, fields).value, DecodeMembers(text, pos, done).value.value.members)
    decreases |text| - pos
  {
    hide Decode, SkipSpace, Space, ReadString, MembersFrom, Agree, Stops, ValueEnd;
    var k := ReadString(text, pos + 1).value;
    var c := SkipSpace(text, k.end);
    SpaceAgrees(text, k.end);
    var start := SkipSpace(text, c + 1);
    var v := Decode(text, start).value;
    DecodeStarts(text, start);
    SpaceAgrees(text, c + 1);
    var p := SkipSpace(text, v.end);
    SpaceAgrees(text, v.end);
    StopsBefore(text, v.end);
    SkipAgrees(text, start);
    MembersFromStep(text, pos, fields, k, v, c, start, p);
    var fields' := fields[JString(k.value) := Span(start, v.end)];
    var done' := done[k.value := v.value];
    AgreeNext(text, fields, done, k.value, Span(start, v.end), v.value);
    if !Is(text, p, RBRACE) {
      var next := SkipSpace(text, p + 1);
      assert DecodeMembers(text, next, done').Some?;
      assert Is(text, next, QUOTE) by { NeedsName(text, next, done'); }
      SpaceAgrees(text, p + 1);
      MembersAgreeFrom(text, next, done', fields');
    }
  }

  lemma {:induction false} NeedsName(text: Text, pos: nat, done: map<Text, Json>)
    requires DecodeMembers(text, pos, done).Some?
    ensures Is(text, pos, QUOTE)
  {
    hide Decode, SkipSpace, ReadString;
  }

  /** Wherever the decoder reads an object, however deep in the text, the span
      reader finds exactly its members, and each span is exactly the decoder's
      reading of the member; a repeated name keeps its last value in both. */
  lemma {:induction false} MembersAgree(text: Text, start: nat)
    requires Decode(text, SkipSpace(text, start)).Some? && Decode(text, SkipSpace(text, start)).value.value.JObject?
    ensures MembersAt(text, start).Some?
    ensures Agree(text, MembersAt(text, start).value, Decode(text, SkipSpace(text, start)).value.value.members)
  {
    hide SkipSpace, Space, DecodeMembers, MembersFrom, DecodeItems, ReadString, DecodeNumber, At, Reads;
    var pos := SkipSpace(text, start);
    DecodeStarts(text, pos);
    SpaceAgrees(text, start);
    ObjectOpens(text, pos);
    var p := SkipSpace(text, pos + 1);
    if Is(text, p, RBRACE) {
      SpaceAgrees(text, pos + 1);
      EmptyObject(text, p);
    } else {
      NeedsName(text, p, map[]);
      SpaceAgrees(text, pos + 1);
      MembersAgreeFrom(text, p, map[], map[]);
    }
  }

  lemma {:induction false} EmptyObject(text: Text, p: nat)
    requires Is(text, p, RBRACE)
    ensures MembersFrom(text, p, map[]) == Some(map[])
  {}

  lemma {:induction false} ObjectOpens(text: Text, pos: nat)
    requires Decode(text, pos).Some? && Decode(text, pos).value.value.JObject?
    ensures Is(text, pos, LBRACE)
  {
    hide SkipSpace, DecodeMembers, ReadString, ScanNumber, At;
    if Is(text, pos, LBRACKET) && !Is(text, SkipSpace(text, pos + 1), RBRACKET) {
      ItemsAreArray(text, SkipSpace(text, pos + 1), []);
    }
  }

  lemma {:induction false} ItemsAreArray(text: Text, pos: nat, done: seq<Json>)
    requires DecodeItems(text, pos, done).Some?
    ensures DecodeItems(text, pos, done).value.value.JArray?
    decreases |text| - pos
  {
    hide Decode, SkipSpace;
    var v := Decode(text, pos).value;
    var p := SkipSpace(text, v.end);
    if !Is(text, p, RBRACKET) { ItemsAreArray(text, SkipSpace(text, p + 1), done + [v.value]); }
  }

  /** Reading one member by its span gives what decoding the whole object gives
      for it, and the default when the object has no such member. */
  lemma {:induction false} ValueAgrees(text: Text, start: nat, name: Text, default: Json)
    requires Decode(text, SkipSpace(text, start)).Some? && Decode(text, SkipSpace(text, start)).value.value.JObject?
    ensures MembersAt(text, start).Some?
    ensures var members := Decode(text, SkipSpace(text, start)).value.value.members;
            ValueOf(text, MembersAt(text, start).value, JString(name), default)
            == Some(if name in members then members[name] else default)
  {
    hide MembersAt, Decode, Loads, SkipSpace, Stops;
    MembersAgree(text, start);
    var fields := MembersAt(text, start).value;
    if JString(name) in fields { LoadsSlice(text, fields[JString(name)].start); }
  }

  /** A printed object, with any legal whitespace and anywhere in a text: the
      span reader's members are the object's own. */
  lemma {:induction false} MembersOfPrinted(text: Text, start: nat, v: Value, name: Text, default: Json)
    requires WellFormed(v) && v.Object? && At(text, SkipSpace(text, start), Print(v))
    requires Stops(text, SkipSpace(text, start) + |Print(v)|)
    ensures MembersAt(text, start).Some?
    ensures var members := DenoteMembers(v.members, map[]);
            ValueOf(text, MembersAt(text, start).value, JString(name), default)
            == Some(if name in members then members[name] else default)
  {
    hide MembersAt, Decode, SkipSpace, ValueOf, At, Print, Stops, DenoteMembers;
    DecodeRoundTrip(text, SkipSpace(text, start), v);
    ValueAgrees(text, start, name, default);
  }
}
