/** The parser object: a cursor and the text-mode flag, changed in place. Every
    method leaves the cursor where the function of the same part leaves it, and
    text mode as it found it. */
module LatexParsers {
  import opened Latex

  method MapScriptLoop(text: Text, table: map<Text, Text>) returns (r: Option<Text>)
    ensures r == MapScript(text, table)
  {
    var points := Points(text);
    var result: Text := [];
    for k := 0 to |points|
      invariant MapPoints(points[..k], table) == Some(result)
    {
      assert points[..k + 1][..k] == points[..k];
      if points[k] !in table {
        MissingPoint(points, table, k);
        return None;
      }
      result := result + table[points[k]];
    }
    assert points[..|points|] == points;
    return Some(result);
  }

  /** One character without a script form leaves the whole text without one. */
  lemma {:induction false} MissingPoint(points: seq<Text>, table: map<Text, Text>, k: nat)
    requires k < |points| && points[k] !in table
    ensures MapPoints(points, table) == None
    decreases |points|
  {
    if k < |points| - 1 { MissingPoint(points[..|points| - 1], table, k); }
  }

  method StyleLoop(text: Text, style: Style) returns (r: Text)
    ensures r == StyleAll(Points(text), style)
  {
    var points := Points(text);
    r := [];
    for k := 0 to |points|
      invariant r == StyleAll(points[..k], style)
    {
      assert points[..k + 1][..k] == points[..k];
      r := r + StylePoint(points[k], style);
    }
    assert points[..|points|] == points;
  }

  class LatexParser {
    const t: Tables
    const src: Text
    var pos: nat
    var textMode: bool

    constructor (t: Tables, src: Text)
      ensures this.t == t && this.src == src && pos == 0 && !textMode
    {
      this.t, this.src, pos, textMode := t, src, 0, false;
    }

    method Parse() returns (r: Text)
      requires pos == 0 && !textMode
      modifies this
      ensures r == Latex.Parse(t, src)
    {
      r := ParseSequence();
    }

    method ParseSequence() returns (r: Text)
      requires pos <= |src|
      modifies this
      ensures textMode == old(textMode)
      ensures Parsed(pos, r) == Latex.ParseSequence(t, src, old(pos), textMode, []) && pos <= |src|
      decreases |src|, |src| - pos, 4
    {
      hide Latex.ParseAtom, Latex.ParseArgument, Scripted;
      r := [];
      while pos < |src| && src[pos] != RBRACE
        invariant old(pos) <= pos <= |src| && textMode == old(textMode)
        invariant Latex.ParseSequence(t, src, pos, textMode, r) == Latex.ParseSequence(t, src, old(pos), textMode, [])
        decreases |src| - pos
      {
        var ch := src[pos];
        if (ch == CARET || ch == UNDERSCORE) && !textMode {
          pos := pos + 1;
          var script := ParseScript(if ch == CARET then t.superscripts else t.subscripts, ch);
          r := r + script;
        } else if ch == AMPERSAND {
          pos := pos + 1;
          if !(r != [] && IsSpace(r[|r| - 1])) { r := r + [SPACE]; }
        } else {
          var atom := ParseAtom();
          r := r + atom;
        }
      }
    }

    method ParseAtom() returns (r: Text)
      requires pos <= |src|
      modifies this
      ensures textMode == old(textMode)
      ensures Parsed(pos, r) == Latex.ParseAtom(t, src, old(pos), textMode) && pos <= |src| && (old(pos) < |src| ==> old(pos) < pos)
      decreases |src|, |src| - pos, 2
    {
      hide Latex.ParseGroup, Latex.ParseCommand;
      if pos == |src| { return []; }
      if src[pos] == LBRACE {
        r := ParseGroup();
      } else if src[pos] == BACKSLASH {
        r := ParseCommand();
      } else {
        r := [src[pos]];
        pos := pos + 1;
      }
    }

    method ParseGroup() returns (r: Text)
      requires Is(src, pos, LBRACE)
      modifies this
      ensures textMode == old(textMode)
      ensures Parsed(pos, r) == Latex.ParseGroup(t, src, old(pos), textMode) && old(pos) < pos <= |src|
      decreases |src|, |src| - pos, 1
    {
      hide Latex.ParseSequence;
      pos := pos + 1;
      r := ParseSequence();
      if Is(src, pos, RBRACE) { pos := pos + 1; }
    }

    method SkipSpaces()
      requires pos <= |src|
      modifies this`pos
      ensures pos == SkipSpace(src, old(pos)) && old(pos) <= pos <= |src|
    {
      while pos < |src| && IsSpace(src[pos])
        invariant old(pos) <= pos <= |src| && SkipSpace(src, pos) == SkipSpace(src, old(pos))
      {
        pos := pos + 1;
      }
    }

    method ParseArgument() returns (r: Text)
      requires pos <= |src|
      modifies this
      ensures textMode == old(textMode)
      ensures Parsed(pos, r) == Latex.ParseArgument(t, src, old(pos), textMode) && old(pos) <= pos <= |src|
      decreases |src|, |src| - pos, 3
    {
      hide Latex.ParseGroup, Latex.ParseAtom, SkipSpace;
      SkipSpaces();
      if Is(src, pos, LBRACE) {
        r := ParseGroup();
      } else {
        r := ParseAtom();
      }
    }

    method ParseScript(table: map<Text, Text>, operator: Unit) returns (r: Text)
      requires pos <= |src|
      modifies this
      ensures textMode == old(textMode)
      ensures var script := Latex.ParseArgument(t, src, old(pos), textMode);
              pos == script.pos && r == Scripted(script.text, table, operator) && old(pos) <= pos <= |src|
      decreases |src|, |src| - pos, 4
    {
      hide Latex.ParseArgument, MapScript, Points;
      var content := ParseArgument();
      var mapped := MapScriptLoop(content, table);
      if mapped.Some? { return mapped.value; }
      r := if |Points(content)| == 1 then [operator] + content else [operator, LBRACE] + content + [RBRACE];
    }

    method ParseOptionalBracket() returns (r: Option<Text>)
      requires 0 < pos <= |src|
      modifies this`pos
      ensures var b := ParseBracket(t, src, old(pos));
              if b.None? then r.None? && pos == old(pos) else r == Some(b.value.text) && pos == b.value.pos
      ensures old(pos) <= pos <= |src|
      decreases |src|, |src| - pos, 0
    {
      hide Latex.ParseSequence, IndexOf;
      if !Is(src, pos, LBRACKET) { return None; }
      var end := IndexOf(src, RBRACKET, pos + 1);
      if end.None? { return None; }
      var inner := new LatexParser(t, src[pos + 1..end.value]);
      var content := inner.ParseSequence();
      pos := end.value + 1;
      r := Some(content);
    }

    /** The command's letters, and the star that may follow them. */
    method ReadName() returns (name: Text)
      requires pos < |src| && IsLetter(src[pos])
      modifies this`pos
      ensures var end := NameEnd(src, old(pos));
              && name == src[old(pos)..end] && pos == (if Is(src, end, STAR) then end + 1 else end)
      ensures old(pos) <= pos <= |src|
    {
      name := [];
      ghost var start := pos;
      while pos < |src| && IsLetter(src[pos])
        invariant start <= pos <= |src| && NameEnd(src, pos) == NameEnd(src, start) && name == src[start..pos]
      {
        name := name + [src[pos]];
        pos := pos + 1;
      }
      if Is(src, pos, STAR) { pos := pos + 1; }
    }

    method ParseCommand() returns (r: Text)
      requires Is(src, pos, BACKSLASH)
      modifies this
      ensures textMode == old(textMode)
      ensures Parsed(pos, r) == Latex.ParseCommand(t, src, old(pos), textMode) && old(pos) < pos <= |src|
      decreases |src|, |src| - pos, 1
    {
      hide Latex.ParseArgument, Latex.ParseAtom, Latex.ParseDelimiter, ParseBracket, Apply, KindOf;
      pos := pos + 1;
      if pos == |src| { return []; }
      var ch := src[pos];
      if !IsLetter(ch) {
        pos := pos + 1;
        return if ch in t.escapes then t.escapes[ch] else [ch];
      }
      var name := ReadName();
      var kind := KindOf(t, name);
      if kind.Constant? { return kind.text; }
      if kind.Delimiter? {
        r := ParseDelimiter();
      } else if kind.Negation? {
        var negated := ParseAtom();
        r := Apply(t, kind, None, [negated]);
      } else {
        r := ParseArguments(kind);
      }
    }

    /** The arguments of a command that has some, and what is made of them. */
    method ParseArguments(kind: Kind) returns (r: Text)
      requires 0 < pos <= |src| && Arity(kind) > 0 && !kind.Negation?
      modifies this
      ensures textMode == old(textMode) && old(pos) <= pos <= |src|
      ensures var index := if kind.Root? then ParseBracket(t, src, old(pos)) else None;
              var first := Latex.ParseArgument(t, src, if index.Some? then index.value.pos else old(pos), textMode || kind.Literal?);
              Parsed(pos, r) ==
              if Arity(kind) == 1 then
                Parsed(first.pos, Apply(t, kind, if index.Some? then Some(index.value.text) else None, [first.text]))
              else
                var second := Latex.ParseArgument(t, src, first.pos, textMode);
                Parsed(second.pos, Apply(t, kind, None, [first.text, second.text]))
      decreases |src|, |src| - pos, 4
    {
      hide Latex.ParseArgument, ParseBracket, Apply;
      var index := None;
      if kind.Root? { index := ParseOptionalBracket(); }
      var wasTextMode := textMode;
      textMode := textMode || kind.Literal?;
      var first := ParseArgument();
      textMode := wasTextMode;
      if Arity(kind) == 1 { return Apply(t, kind, index, [first]); }
      var second := ParseArgument();
      r := Apply(t, kind, None, [first, second]);
    }

    method ParseDelimiter() returns (r: Text)
      requires pos <= |src|
      modifies this
      ensures textMode == old(textMode)
      ensures Parsed(pos, r) == Latex.ParseDelimiter(t, src, old(pos), textMode) && old(pos) <= pos <= |src|
      decreases |src|, |src| - pos, 3
    {
      hide Latex.ParseCommand, SkipSpace;
      SkipSpaces();
      if pos == |src| { return []; }
      var ch := src[pos];
      if ch == DOT {
        pos := pos + 1;
        return [];
      }
      if ch == BACKSLASH {
        r := ParseCommand();
      } else {
        pos := pos + 1;
        r := [ch];
      }
    }
  }
}
