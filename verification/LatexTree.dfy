/** Rendering is compositional: LaTeX math as a syntax tree, its text with every
    argument in braces, what it denotes, and the proof that the parser reads the
    text of any tree, to its last character, as what the tree denotes. */
module LatexTree {
  import opened Latex

  /** What stands after \left or \right: a character, an escaped one, or a command
      without arguments. */
  datatype Delimiter = Mark(u: Unit) | EscapedMark(u: Unit) | NamedMark(name: Text)

  datatype Node =
    | Plain(u: Unit)
    | Ampersand
    | Escape(u: Unit)
    | Group(body: seq<Node>)
    | Script(above: bool, body: seq<Node>)
    | Symbol(name: Text)                                            // a command without arguments
    | Fence(name: Text, mark: Delimiter)                                    // \left or \right and its delimiter
    | Command(name: Text, index: Option<Argument>, args: seq<Argument>)

  datatype Argument = Argument(body: seq<Node>)

  predicate IsName(name: Text) { name != [] && forall i :: 0 <= i < |name| ==> IsLetter(name[i]) }

  function Print(n: Node): Text
    decreases n, 1
  {
    match n
    case Plain(u) => [u]
    case Ampersand => [AMPERSAND]
    case Escape(u) => [BACKSLASH, u]
    case Group(body) => PrintArgument(body)
    case Script(above, body) => [if above then CARET else UNDERSCORE] + PrintArgument(body)
    case Symbol(name) => [BACKSLASH] + name
    case Fence(name, mark) => [BACKSLASH] + (name + PrintMark(mark))
    case Command(name, _, args) => [BACKSLASH] + (name + (PrintIndex(n) + PrintArguments(args)))
  }

  function PrintMark(mark: Delimiter): Text {
    match mark
    case Mark(u) => [u]
    case EscapedMark(u) => [BACKSLASH, u]
    case NamedMark(name) => [BACKSLASH] + name
  }

  function PrintIndex(n: Node): Text
    requires n.Command?
    decreases n, 0
  {
    if n.index.None? then [] else [LBRACKET] + (PrintAll(n.index.value.body) + [RBRACKET])
  }

  function PrintArgument(body: seq<Node>): Text
    decreases body, 1
  {
    [LBRACE] + (PrintAll(body) + [RBRACE])
  }

  function PrintArguments(args: seq<Argument>): Text {
    if args == [] then [] else PrintArgument(args[0].body) + PrintArguments(args[1..])
  }

  function PrintAll(nodes: seq<Node>): Text
    decreases nodes, 0
  {
    if nodes == [] then [] else Print(nodes[0]) + PrintAll(nodes[1..])
  }

  predicate Special(u: Unit) { u == LBRACE || u == RBRACE || u == BACKSLASH || u == AMPERSAND }

  /** A text that ends the name of a command before it. */
  predicate EndsName(text: Text) { text != [] && !IsLetter(text[0]) && text[0] != STAR }

  /** The text ends with a name that what follows must end. */
  predicate EndsInName(n: Node) { n.Symbol? || (n.Fence? && n.mark.NamedMark?) }

  /** Nothing runs into a name: what follows a symbol ends its name. */
  predicate Apart(nodes: seq<Node>) {
    forall i :: 0 <= i < |nodes| - 1 && EndsInName(nodes[i]) ==> EndsName(Print(nodes[i + 1]))
  }

  /** A tree whose text means it: in text mode ^ and _ are ordinary characters. */
  predicate Ok(t: Tables, n: Node, textMode: bool)
    decreases n
  {
    match n
    case Plain(u) => !Special(u) && (textMode || (u != CARET && u != UNDERSCORE))
    case Ampersand => true
    case Escape(u) => !IsLetter(u)
    case Group(body) => Apart(body) && forall m :: m in body ==> Ok(t, m, textMode)
    case Script(_, body) => !textMode && Apart(body) && forall m :: m in body ==> Ok(t, m, false)
    case Symbol(name) => IsName(name) && KindOf(t, name).Constant?
    case Fence(name, mark) => IsName(name) && KindOf(t, name).Delimiter? && MarkOk(t, mark)
    case Command(name, index, args) =>
      var k := KindOf(t, name);
      && IsName(name) && Arity(k) > 0 && |args| == Arity(k)
      && Apart(args[0].body) && (forall m :: m in args[0].body ==> Ok(t, m, textMode || k.Literal?))
      && (|args| == 2 ==> Apart(args[1].body) && forall m :: m in args[1].body ==> Ok(t, m, textMode))
      && (index.Some? ==> k.Root? && Apart(index.value.body) && forall m :: m in index.value.body ==> Ok(t, m, false))
  }

  predicate MarkOk(t: Tables, mark: Delimiter) {
    match mark
    case Mark(u) => !IsLetter(u) && !IsSpace(u) && u != STAR && u != BACKSLASH
    case EscapedMark(u) => !IsLetter(u)
    case NamedMark(name) => IsName(name) && KindOf(t, name).Constant?
  }

  predicate AllOk(t: Tables, nodes: seq<Node>, textMode: bool) {
    Apart(nodes) && forall m :: m in nodes ==> Ok(t, m, textMode)
  }

  /** No root's index holds a closing bracket anywhere in its text. */
  predicate Closed(n: Node)
    decreases n
  {
    match n
    case Group(body) => forall m :: m in body ==> Closed(m)
    case Script(_, body) => forall m :: m in body ==> Closed(m)
    case Command(_, index, args) =>
      && (forall a :: a in args ==> forall m :: m in a.body ==> Closed(m))
      && (index.Some? ==> RBRACKET !in PrintAll(index.value.body) && forall m :: m in index.value.body ==> Closed(m))
    case _ => true
  }

  predicate AllClosed(nodes: seq<Node>) { forall m :: m in nodes ==> Closed(m) }

  /** A point stands for no delimiter at all. */
  function DenoteMark(t: Tables, mark: Delimiter): Text
    requires MarkOk(t, mark)
  {
    match mark
    case Mark(u) => if u == DOT then [] else [u]
    case EscapedMark(u) => if u in t.escapes then t.escapes[u] else [u]
    case NamedMark(name) => KindOf(t, name).text
  }

  /** What a node adds. Only an alignment mark looks at what is there already. */
  function Denote(t: Tables, n: Node, textMode: bool, done: Text): Text
    requires Ok(t, n, textMode)
    decreases n, 0
  {
    match n
    case Plain(u) => done + [u]
    case Ampersand => if done != [] && IsSpace(done[|done| - 1]) then done else done + [SPACE]
    case Escape(u) => done + (if u in t.escapes then t.escapes[u] else [u])
    case Group(body) => done + DenoteAll(t, body, textMode, [])
    case Script(above, body) =>
      done + Scripted(DenoteAll(t, body, false, []), if above then t.superscripts else t.subscripts,
                      if above then CARET else UNDERSCORE)
    case Symbol(name) => done + KindOf(t, name).text
    case Fence(_, mark) => done + DenoteMark(t, mark)
    case Command(name, index, args) =>
      var k := KindOf(t, name);
      var first := DenoteAll(t, args[0].body, textMode || k.Literal?, []);
      var texts := if |args| == 1 then [first] else [first, DenoteAll(t, args[1].body, textMode, [])];
      done + Apply(t, k, match index case None => None case Some(a) => Some(DenoteAll(t, a.body, false, [])), texts)
  }

  function DenoteAll(t: Tables, nodes: seq<Node>, textMode: bool, done: Text): Text
    requires AllOk(t, nodes, textMode)
    decreases nodes, 1
  {
    if nodes == [] then done
    else
      assert nodes[0] in nodes;
      DenoteAll(t, nodes[1..], textMode, Denote(t, nodes[0], textMode, done))
  }

  // ---- texts standing in a source ----------------------------------------------------------------

  predicate At(src: Text, pos: nat, s: Text) { pos + |s| <= |src| && src[pos..pos + |s|] == s }

  lemma {:induction false} AtSplit(src: Text, pos: nat, a: Text, b: Text)
    requires At(src, pos, a + b)
    ensures At(src, pos, a) && At(src, pos + |a|, b)
  {
    var whole := src[pos..pos + |a + b|];
    assert whole == a + b;
    assert whole[..|a|] == a && whole[|a|..] == b;
    assert src[pos..pos + |a|] == whole[..|a|];
    assert src[pos + |a|..pos + |a| + |b|] == whole[|a|..];
  }

  lemma {:induction false} AtIndex(src: Text, pos: nat, s: Text, k: nat)
    requires At(src, pos, s) && k < |s|
    ensures pos + k < |src| && src[pos + k] == s[k]
  {
    assert src[pos..pos + |s|][k] == src[pos + k];
  }

  lemma {:induction false} AtOne(src: Text, pos: nat, u: Unit, rest: Text)
    requires At(src, pos, [u] + rest)
    ensures Is(src, pos, u) && At(src, pos + 1, rest)
  {
    AtIndex(src, pos, [u] + rest, 0);
    AtSplit(src, pos, [u], rest);
  }

  lemma {:induction false} NameRun(src: Text, pos: nat, name: Text, k: nat)
    requires At(src, pos, name) && (forall i :: 0 <= i < |name| ==> IsLetter(name[i])) && k <= |name|
    requires pos + |name| == |src| || !IsLetter(src[pos + |name|])
    ensures NameEnd(src, pos + k) == pos + |name|
    decreases |name| - k
  {
    if k < |name| {
      AtIndex(src, pos, name, k);
      NameRun(src, pos, name, k + 1);
    }
  }

  /** A command's name and the character that ends it. */
  lemma {:induction false} NameAt(src: Text, pos: nat, name: Text, rest: Text)
    requires IsName(name) && At(src, pos, [BACKSLASH] + (name + rest)) && rest != [] && !IsLetter(rest[0])
    ensures var end := pos + 1 + |name|;
            && Is(src, pos, BACKSLASH) && pos + 1 < |src| && IsLetter(src[pos + 1])
            && NameEnd(src, pos + 1) == end <= |src| && src[pos + 1..end] == name && At(src, end, rest) && Is(src, end, rest[0])
  {
    AtOne(src, pos, BACKSLASH, name + rest);
    AtSplit(src, pos + 1, name, rest);
    AtIndex(src, pos + 1 + |name|, rest, 0);
    assert [BACKSLASH] + (name + rest) == [BACKSLASH] + name + rest;
    AtSplit(src, pos, [BACKSLASH] + name, rest);
    BareNameAt(src, pos, name);
  }

  lemma {:induction false} BareNameAt(src: Text, pos: nat, name: Text)
    requires IsName(name) && At(src, pos, [BACKSLASH] + name)
    requires var end := pos + 1 + |name|; end == |src| || (end < |src| && !IsLetter(src[end]))
    ensures var end := pos + 1 + |name|;
            && Is(src, pos, BACKSLASH) && pos + 1 < |src| && IsLetter(src[pos + 1])
            && NameEnd(src, pos + 1) == end <= |src| && src[pos + 1..end] == name
  {
    AtOne(src, pos, BACKSLASH, name);
    AtIndex(src, pos + 1, name, 0);
    NameRun(src, pos + 1, name, 0);
  }

  // ---- single steps of the parser -----------------------------------------------------------------

  lemma {:induction false} StopHere(t: Tables, src: Text, pos: nat, textMode: bool, done: Text)
    requires pos <= |src| && (pos == |src| || src[pos] == RBRACE)
    ensures ParseSequence(t, src, pos, textMode, done) == Parsed(pos, done)
  {}

  lemma {:induction false} AtomStep(t: Tables, src: Text, pos: nat, textMode: bool, done: Text)
    requires pos < |src| && src[pos] != RBRACE && src[pos] != AMPERSAND
    requires textMode || (src[pos] != CARET && src[pos] != UNDERSCORE)
    ensures var atom := ParseAtom(t, src, pos, textMode);
            ParseSequence(t, src, pos, textMode, done) == ParseSequence(t, src, atom.pos, textMode, done + atom.text)
  {
    hide ParseAtom, ParseArgument;
  }

  lemma {:induction false} MarkStep(t: Tables, src: Text, pos: nat, textMode: bool, done: Text)
    requires Is(src, pos, AMPERSAND)
    ensures ParseSequence(t, src, pos, textMode, done)
            == ParseSequence(t, src, pos + 1, textMode, if done != [] && IsSpace(done[|done| - 1]) then done else done + [SPACE])
  {
    hide ParseAtom, ParseArgument;
  }

  lemma {:induction false} ScriptStep(t: Tables, src: Text, pos: nat, above: bool, done: Text)
    requires Is(src, pos, if above then CARET else UNDERSCORE)
    ensures var script := ParseArgument(t, src, pos + 1, false);
            var text := Scripted(script.text, if above then t.superscripts else t.subscripts, if above then CARET else UNDERSCORE);
            ParseSequence(t, src, pos, false, done) == ParseSequence(t, src, script.pos, false, done + text)
  {
    hide ParseAtom, ParseArgument, Scripted;
  }

  lemma {:induction false} ArgumentIsGroup(t: Tables, src: Text, pos: nat, textMode: bool)
    requires Is(src, pos, LBRACE)
    ensures ParseArgument(t, src, pos, textMode) == ParseAtom(t, src, pos, textMode) == ParseGroup(t, src, pos, textMode)
  {
    hide ParseGroup;
  }

  /** What a named command comes to, by the kind of its name. */
  lemma {:induction false} CommandStep(t: Tables, src: Text, pos: nat, name: Text, p: nat, textMode: bool)
    requires Is(src, pos, BACKSLASH) && pos + 1 < |src| && IsLetter(src[pos + 1])
    requires p == NameEnd(src, pos + 1) <= |src| && src[pos + 1..p] == name && !Is(src, p, STAR)
    ensures var k := KindOf(t, name);
            var r := ParseCommand(t, src, pos, textMode);
            && (k.Constant? ==> r == Parsed(p, k.text))
            && (k.Delimiter? ==> r == ParseDelimiter(t, src, p, textMode))
            && (Arity(k) == 1 && !k.Root? && Is(src, p, LBRACE) ==>
                  var a := ParseArgument(t, src, p, textMode || k.Literal?); r == Parsed(a.pos, Apply(t, k, None, [a.text])))
            && (Arity(k) == 2 ==>
                  var a := ParseArgument(t, src, p, textMode);
                  var b := ParseArgument(t, src, a.pos, textMode);
                  r == Parsed(b.pos, Apply(t, k, None, [a.text, b.text])))
            && (k.Root? ==>
                  var index := ParseBracket(t, src, p);
                  var a := ParseArgument(t, src, if index.Some? then index.value.pos else p, textMode);
                  r == Parsed(a.pos, Apply(t, k, if index.Some? then Some(index.value.text) else None, [a.text])))
  {
    hide ParseArgument, ParseAtom, ParseDelimiter, ParseBracket, Apply, KindOf;
    if Is(src, p, LBRACE) { ArgumentIsGroup(t, src, p, textMode); }
  }

  lemma {:induction false} EscapeStep(t: Tables, src: Text, pos: nat, u: Unit, textMode: bool)
    requires At(src, pos, [BACKSLASH, u]) && !IsLetter(u)
    ensures ParseAtom(t, src, pos, textMode) == Parsed(pos + 2, if u in t.escapes then t.escapes[u] else [u])
  {
    AtIndex(src, pos, [BACKSLASH, u], 0);
    AtIndex(src, pos, [BACKSLASH, u], 1);
  }

  lemma {:induction false} FenceStep(t: Tables, src: Text, pos: nat, u: Unit, textMode: bool)
    requires Is(src, pos, u) && !IsSpace(u) && u != BACKSLASH
    ensures ParseDelimiter(t, src, pos, textMode) == Parsed(pos + 1, if u == DOT then [] else [u])
  {}

  lemma {:induction false} FirstBracket(src: Text, pos: nat, body: Text)
    requires At(src, pos, body) && RBRACKET !in body && Is(src, pos + |body|, RBRACKET)
    ensures IndexOf(src, RBRACKET, pos) == Some(pos + |body|)
    decreases |body|
  {
    if body != [] {
      AtIndex(src, pos, body, 0);
      assert body == [body[0]] + body[1..];
      AtSplit(src, pos, [body[0]], body[1..]);
      FirstBracket(src, pos + 1, body[1..]);
    }
  }

  // ---- the parser on printed trees -----------------------------------------------------------------

  /** What an atom adds does not depend on what is there. */
  lemma {:induction false} AtomAdds(t: Tables, n: Node, textMode: bool, done: Text)
    requires Ok(t, n, textMode) && !n.Ampersand?
    ensures Denote(t, n, textMode, done) == done + Denote(t, n, textMode, [])
  {
    hide DenoteAll, Scripted, Apply, Ok;
  }

  lemma {:induction false} PrintStarts(t: Tables, n: Node, textMode: bool)
    requires Ok(t, n, textMode)
    ensures Print(n) != []
    ensures var u := Print(n)[0];
            && u != RBRACE && (u == AMPERSAND <==> n.Ampersand?)
            && (!textMode && (u == CARET || u == UNDERSCORE) <==> n.Script?)
  {
    hide PrintAll, PrintIndex, PrintArguments;
  }

  lemma {:induction false} AllOkParts(t: Tables, nodes: seq<Node>, textMode: bool)
    requires AllOk(t, nodes, textMode) && AllClosed(nodes) && nodes != []
    ensures Ok(t, nodes[0], textMode) && Closed(nodes[0]) && AllOk(t, nodes[1..], textMode) && AllClosed(nodes[1..])
    ensures EndsInName(nodes[0]) && |nodes| > 1 ==> EndsName(PrintAll(nodes[1..]))
  {
    hide Ok, Closed, Print;
    assert nodes[0] in nodes;
    if EndsInName(nodes[0]) && |nodes| > 1 {
      assert EndsName(Print(nodes[1])) && PrintAll(nodes[1..]) == Print(nodes[1]) + PrintAll(nodes[2..]);
    }
  }

  /** A name that ends here, at the end of the source or before a character that
      is neither a letter nor a star. */
  predicate NameEndsAt(src: Text, end: nat) {
    end == |src| || (end < |src| && !IsLetter(src[end]) && src[end] != STAR)
  }

  lemma {:induction false} SequenceAt(t: Tables, src: Text, pos: nat, textMode: bool, nodes: seq<Node>, done: Text)
    requires AllOk(t, nodes, textMode) && AllClosed(nodes) && At(src, pos, PrintAll(nodes))
    requires var end := pos + |PrintAll(nodes)|; end == |src| || src[end] == RBRACE
    ensures ParseSequence(t, src, pos, textMode, done)
            == Parsed(pos + |PrintAll(nodes)|, DenoteAll(t, nodes, textMode, done))
    decreases nodes, 1
  {
    hide ParseSequence, ParseAtom, Ok, AllOk, Closed, AllClosed, Denote, Print, At;
    AtEnds(src, pos, PrintAll(nodes));
    if nodes == [] {
      StopHere(t, src, pos, textMode, done);
    } else {
      var n, rest := nodes[0], nodes[1..];
      AllOkParts(t, nodes, textMode);
      AtSplit(src, pos, Print(n), PrintAll(rest));
      PrintStarts(t, n, textMode);
      AtIndex(src, pos, Print(n), 0);
      if EndsInName(n) && rest != [] { AtIndex(src, pos + |Print(n)|, PrintAll(rest), 0); }
      NodeStep(t, src, pos, textMode, n, done);
      SequenceAt(t, src, pos + |Print(n)|, textMode, rest, Denote(t, n, textMode, done));
    }
  }

  /** One node of a sequence. */
  lemma {:induction false} NodeStep(t: Tables, src: Text, pos: nat, textMode: bool, n: Node, done: Text)
    requires Ok(t, n, textMode) && Closed(n) && At(src, pos, Print(n)) && (EndsInName(n) ==> NameEndsAt(src, pos + |Print(n)|))
    ensures pos + |Print(n)| <= |src|
    ensures ParseSequence(t, src, pos, textMode, done)
            == ParseSequence(t, src, pos + |Print(n)|, textMode, Denote(t, n, textMode, done))
    decreases n, 4
  {
    hide ParseSequence, ParseAtom, ParseArgument, At, PrintAll, PrintIndex, PrintArguments, Ok, Closed, DenoteAll,
         Scripted, Apply;
    PrintStarts(t, n, textMode);
    AtIndex(src, pos, Print(n), 0);
    AtEnds(src, pos, Print(n));
    if n.Ampersand? {
      MarkStep(t, src, pos, textMode, done);
    } else if n.Script? {
      ScriptAt(t, src, pos, n, textMode, done);
    } else {
      AtomStep(t, src, pos, textMode, done);
      AtomAt(t, src, pos, textMode, n);
      AtomAdds(t, n, textMode, done);
    }
  }

  lemma {:induction false} AtEnds(src: Text, pos: nat, s: Text)
    requires At(src, pos, s)
    ensures pos + |s| <= |src|
  {}

  lemma {:induction false} ScriptAt(t: Tables, src: Text, pos: nat, n: Node, textMode: bool, done: Text)
    requires n.Script? && Ok(t, n, textMode) && Closed(n) && At(src, pos, Print(n))
    ensures ParseSequence(t, src, pos, textMode, done)
            == ParseSequence(t, src, pos + |Print(n)|, textMode, Denote(t, n, textMode, done))
    decreases n, 3
  {
    hide ParseSequence, ParseArgument, ParseGroup, At, PrintAll, DenoteAll, Scripted;
    AtOne(src, pos, if n.above then CARET else UNDERSCORE, PrintArgument(n.body));
    GroupAt(t, src, pos + 1, false, n.body);
    ArgumentIsGroup(t, src, pos + 1, false);
    ScriptStep(t, src, pos, n.above, done);
  }

  lemma {:induction false} GroupAt(t: Tables, src: Text, pos: nat, textMode: bool, body: seq<Node>)
    requires AllOk(t, body, textMode) && AllClosed(body) && At(src, pos, PrintArgument(body))
    ensures Is(src, pos, LBRACE)
    ensures ParseGroup(t, src, pos, textMode) == Parsed(pos + |PrintArgument(body)|, DenoteAll(t, body, textMode, []))
    decreases body, 2
  {
    hide ParseSequence, At, PrintAll, DenoteAll, Ok, Closed;
    AtOne(src, pos, LBRACE, PrintAll(body) + [RBRACE]);
    AtSplit(src, pos + 1, PrintAll(body), [RBRACE]);
    AtIndex(src, pos + 1 + |PrintAll(body)|, [RBRACE], 0);
    SequenceAt(t, src, pos + 1, textMode, body, []);
  }

  lemma {:induction false} AtomAt(t: Tables, src: Text, pos: nat, textMode: bool, n: Node)
    requires Ok(t, n, textMode) && Closed(n) && !n.Ampersand? && !n.Script? && At(src, pos, Print(n))
    requires EndsInName(n) ==> NameEndsAt(src, pos + |Print(n)|)
    ensures ParseAtom(t, src, pos, textMode) == Parsed(pos + |Print(n)|, Denote(t, n, textMode, []))
    decreases n, 3
  {
    hide ParseSequence, ParseGroup, ParseCommand, At, PrintAll, PrintIndex, PrintArguments, DenoteAll, Scripted, Apply;
    AtIndex(src, pos, Print(n), 0);
    match n
    case Plain(u) =>
    case Escape(u) => EscapeStep(t, src, pos, u, textMode);
    case Group(body) =>
      GroupAt(t, src, pos, textMode, body);
      assert [] + DenoteAll(t, body, textMode, []) == DenoteAll(t, body, textMode, []);
    case Symbol(name) => SymbolAt(t, src, pos, textMode, name);
    case Fence(name, mark) => FenceAt(t, src, pos, textMode, name, mark);
    case Command(_, _, _) => CommandAt(t, src, pos, textMode, n);
  }

  lemma {:induction false} SymbolAt(t: Tables, src: Text, pos: nat, textMode: bool, name: Text)
    requires Ok(t, Symbol(name), textMode) && At(src, pos, Print(Symbol(name))) && NameEndsAt(src, pos + 1 + |name|)
    ensures ParseAtom(t, src, pos, textMode) == Parsed(pos + 1 + |name|, [] + KindOf(t, name).text)
  {
    hide ParseCommand, At, KindOf;
    BareNameAt(src, pos, name);
    CommandStep(t, src, pos, name, pos + 1 + |name|, textMode);
    assert [] + KindOf(t, name).text == KindOf(t, name).text;
  }

  lemma {:induction false} FenceAt(t: Tables, src: Text, pos: nat, textMode: bool, name: Text, mark: Delimiter)
    requires Ok(t, Fence(name, mark), textMode) && At(src, pos, Print(Fence(name, mark)))
    requires mark.NamedMark? ==> NameEndsAt(src, pos + |Print(Fence(name, mark))|)
    ensures ParseAtom(t, src, pos, textMode) == Parsed(pos + |Print(Fence(name, mark))|, [] + DenoteMark(t, mark))
  {
    hide ParseCommand, ParseDelimiter, At, KindOf, DenoteMark;
    MarkStarts(t, mark);
    NameAt(src, pos, name, PrintMark(mark));
    CommandStep(t, src, pos, name, pos + 1 + |name|, textMode);
    MarkAt(t, src, pos + 1 + |name|, textMode, mark);
    assert [] + DenoteMark(t, mark) == DenoteMark(t, mark);
  }

  lemma {:induction false} MarkStarts(t: Tables, mark: Delimiter)
    requires MarkOk(t, mark)
    ensures EndsName(PrintMark(mark))
  {}

  /** A delimiter: a character, an escape or a command. */
  lemma {:induction false} MarkAt(t: Tables, src: Text, pos: nat, textMode: bool, mark: Delimiter)
    requires MarkOk(t, mark) && At(src, pos, PrintMark(mark)) && (mark.NamedMark? ==> NameEndsAt(src, pos + |PrintMark(mark)|))
    ensures pos <= |src| && ParseDelimiter(t, src, pos, textMode) == Parsed(pos + |PrintMark(mark)|, DenoteMark(t, mark))
  {
    hide ParseCommand, At, KindOf;
    AtEnds(src, pos, PrintMark(mark));
    AtIndex(src, pos, PrintMark(mark), 0);
    match mark
    case Mark(u) => FenceStep(t, src, pos, u, textMode);
    case EscapedMark(u) =>
      EscapeStep(t, src, pos, u, textMode);
    case NamedMark(name) =>
      BareNameAt(src, pos, name);
      CommandStep(t, src, pos, name, pos + 1 + |name|, textMode);
  }

  lemma {:induction false} CommandAt(t: Tables, src: Text, pos: nat, textMode: bool, n: Node)
    requires Ok(t, n, textMode) && Closed(n) && n.Command? && At(src, pos, Print(n))
    ensures ParseAtom(t, src, pos, textMode) == Parsed(pos + |Print(n)|, Denote(t, n, textMode, []))
    decreases n, 2
  {
    hide ParseCommand, ParseArgument, ParseBracket, ParseDelimiter, At, PrintAll, PrintIndex, PrintArguments,
         PrintArgument, DenoteAll, Apply, KindOf, Ok, Closed, Denote, IsName, NameEnd;
    var rest := PrintIndex(n) + PrintArguments(n.args);
    CommandOk(t, n, textMode);
    CommandClosed(n);
    RestStarts(n);
    NameAt(src, pos, n.name, rest);
    var p := pos + 1 + |n.name|;
    AtSplit(src, p, PrintIndex(n), PrintArguments(n.args));
    CommandStep(t, src, pos, n.name, p, textMode);
    Applied(t, n, textMode);
    if |n.args| == 2 {
      NoIndex(n);
      TwoArguments(t, src, p, textMode, n);
    } else if n.index.None? {
      NoIndex(n);
      OneArgument(t, src, p, textMode, n);
      BracketAt(t, src, p, n);
    } else {
      OneArgument(t, src, p + |PrintIndex(n)|, textMode, n);
      BracketAt(t, src, p, n);
    }
  }

  lemma {:induction false} CommandOk(t: Tables, n: Node, textMode: bool)
    requires Ok(t, n, textMode) && n.Command?
    ensures var k := KindOf(t, n.name);
            && IsName(n.name) && 1 <= |n.args| <= 2 && |n.args| == Arity(k)
            && AllOk(t, n.args[0].body, textMode || k.Literal?) && (|n.args| == 2 ==> AllOk(t, n.args[1].body, textMode))
            && (n.index.Some? ==> k.Root? && AllOk(t, n.index.value.body, false))
  {
    hide KindOf, PrintAll, Apart;
  }

  lemma {:induction false} CommandClosed(n: Node)
    requires n.Command? && Closed(n)
    ensures forall a :: a in n.args ==> AllClosed(a.body)
    ensures n.index.Some? ==> RBRACKET !in PrintAll(n.index.value.body) && AllClosed(n.index.value.body)
  {
    hide PrintAll;
  }

  /** The denotation of a command in terms of those of its arguments. */
  lemma {:induction false} Applied(t: Tables, n: Node, textMode: bool)
    requires Ok(t, n, textMode) && n.Command?
    ensures var k := KindOf(t, n.name);
            && |n.args| == Arity(k) >= 1 && AllOk(t, n.args[0].body, textMode || k.Literal?)
            && (|n.args| == 2 ==> AllOk(t, n.args[1].body, textMode))
            && (n.index.Some? ==> AllOk(t, n.index.value.body, false))
            && Denote(t, n, textMode, [])
               == Apply(t, k, if n.index.None? then None else Some(DenoteAll(t, n.index.value.body, false, [])),
                        if |n.args| == 1 then [DenoteAll(t, n.args[0].body, textMode || k.Literal?, [])]
                        else [DenoteAll(t, n.args[0].body, textMode || k.Literal?, []), DenoteAll(t, n.args[1].body, textMode, [])])
  {
    hide KindOf, PrintAll, Apply, DenoteAll;
  }

  lemma {:induction false} RestStarts(n: Node)
    requires n.Command? && n.args != []
    ensures var rest := PrintIndex(n) + PrintArguments(n.args);
            && rest != [] && (rest[0] == LBRACE || rest[0] == LBRACKET) && (n.index.None? ==> rest[0] == LBRACE)
    ensures |Print(n)| == 1 + |n.name| + |PrintIndex(n)| + |PrintArguments(n.args)|
  {
    hide PrintAll;
  }

  lemma {:induction false} NoIndex(n: Node)
    requires n.Command? && n.index.None?
    ensures PrintIndex(n) == []
  {}

  lemma {:induction false} OneArgument(t: Tables, src: Text, pos: nat, textMode: bool, n: Node)
    requires n.Command? && |n.args| == 1 && At(src, pos, PrintArguments(n.args))
    requires var k := KindOf(t, n.name); AllOk(t, n.args[0].body, textMode || k.Literal?) && AllClosed(n.args[0].body)
    ensures Is(src, pos, LBRACE)
    ensures var mode := textMode || KindOf(t, n.name).Literal?;
            ParseArgument(t, src, pos, mode) == Parsed(pos + |PrintArguments(n.args)|, DenoteAll(t, n.args[0].body, mode, []))
    decreases n, 1
  {
    hide KindOf, PrintArgument, At, ParseArgument, ParseGroup, ParseAtom, DenoteAll, Ok, Closed;
    assert n.args[1..] == [] && PrintArguments([]) == [];
    assert PrintArguments(n.args) == PrintArgument(n.args[0].body);
    var mode := textMode || KindOf(t, n.name).Literal?;
    GroupAt(t, src, pos, mode, n.args[0].body);
    ArgumentIsGroup(t, src, pos, mode);
  }

  lemma {:induction false} TwoArguments(t: Tables, src: Text, pos: nat, textMode: bool, n: Node)
    requires n.Command? && |n.args| == 2 == Arity(KindOf(t, n.name)) && At(src, pos, PrintArguments(n.args))
    requires AllOk(t, n.args[0].body, textMode) && AllOk(t, n.args[1].body, textMode)
    requires AllClosed(n.args[0].body) && AllClosed(n.args[1].body)
    ensures Is(src, pos, LBRACE)
    ensures var first := ParseArgument(t, src, pos, textMode);
            && first.text == DenoteAll(t, n.args[0].body, textMode, []) && first.pos <= |src|
            && ParseArgument(t, src, first.pos, textMode)
               == Parsed(pos + |PrintArguments(n.args)|, DenoteAll(t, n.args[1].body, textMode, []))
    decreases n, 1
  {
    hide KindOf, PrintArgument, At, ParseArgument, ParseGroup, ParseAtom, DenoteAll, Ok, Closed;
    var a, b := n.args[0].body, n.args[1].body;
    assert n.args[1..][1..] == [] && PrintArguments([]) == [];
    assert PrintArguments(n.args) == PrintArgument(a) + PrintArgument(b);
    AtSplit(src, pos, PrintArgument(a), PrintArgument(b));
    GroupAt(t, src, pos, textMode, a);
    ArgumentIsGroup(t, src, pos, textMode);
    GroupAt(t, src, pos + |PrintArgument(a)|, textMode, b);
    ArgumentIsGroup(t, src, pos + |PrintArgument(a)|, textMode);
  }

  /** A root's index, when it is there, is rendered on its own. */
  lemma {:induction false} BracketAt(t: Tables, src: Text, pos: nat, n: Node)
    requires n.Command? && n.args != [] && 0 < pos <= |src| && At(src, pos, PrintIndex(n))
    requires n.index.Some? ==>
               RBRACKET !in PrintAll(n.index.value.body) && AllOk(t, n.index.value.body, false) && AllClosed(n.index.value.body)
    requires n.index.None? ==> !Is(src, pos, LBRACKET)
    ensures ParseBracket(t, src, pos)
            == if n.index.None? then None
               else Some(Parsed(pos + |PrintIndex(n)|, DenoteAll(t, n.index.value.body, false, [])))
    decreases n, 1
  {
    hide At, PrintAll, ParseSequence, DenoteAll, Ok, Closed, IndexOf;
    if n.index.Some? {
      var body := n.index.value.body;
      var text := PrintAll(body);
      AtOne(src, pos, LBRACKET, text + [RBRACKET]);
      AtSplit(src, pos + 1, text, [RBRACKET]);
      AtIndex(src, pos + 1 + |text|, [RBRACKET], 0);
      FirstBracket(src, pos + 1, text);
      AtSlice(src, pos + 1, text);
      WholeIsAt(text);
      SequenceAt(t, text, 0, false, body, []);
    }
  }

  lemma {:induction false} AtSlice(src: Text, pos: nat, s: Text)
    requires At(src, pos, s)
    ensures pos + |s| <= |src| && src[pos..pos + |s|] == s
  {}

  lemma {:induction false} WholeIsAt(s: Text)
    ensures At(s, 0, s)
  {}

  /** The main result: the text of any tree whose indices hold no closing bracket
      is read to its last character, and renders as the tree's denotation. */
  lemma {:induction false} RenderingIsCompositional(t: Tables, nodes: seq<Node>)
    requires AllOk(t, nodes, false) && AllClosed(nodes)
    ensures ParseSequence(t, PrintAll(nodes), 0, false, []) == Parsed(|PrintAll(nodes)|, DenoteAll(t, nodes, false, []))
    ensures Parse(t, PrintAll(nodes)) == DenoteAll(t, nodes, false, [])
  {
    hide At, PrintAll, ParseSequence, DenoteAll, Ok, Closed;
    WholeIsAt(PrintAll(nodes));
    SequenceAt(t, PrintAll(nodes), 0, false, nodes, []);
  }

  // ---- indices that hold a closing bracket ---------------------------------------------------------

  /** The text up to its first closing bracket. */
  function Upto(text: Text): (k: nat)
    ensures k <= |text| && RBRACKET !in text[..k] && (k < |text| ==> text[k] == RBRACKET)
  {
    if text == [] || text[0] == RBRACKET then 0
    else
      var k := 1 + Upto(text[1..]);
      assert text[..k] == [text[0]] + text[1..][..k - 1];
      k
  }

  /** Whatever an index holds, the parser ends it at its first closing bracket and
      renders what is before that on its own. */
  lemma {:induction false} IndexIsCut(t: Tables, src: Text, pos: nat, text: Text)
    requires 0 < pos && At(src, pos, [LBRACKET] + (text + [RBRACKET]))
    ensures pos <= |src| && ParseBracket(t, src, pos) == Some(Parsed(pos + 2 + Upto(text), Parse(t, text[..Upto(text)])))
  {
    hide At, ParseSequence, IndexOf, Upto;
    var k := Upto(text);
    AtOne(src, pos, LBRACKET, text + [RBRACKET]);
    var rest := (text + [RBRACKET])[k..];
    assert text + [RBRACKET] == text[..k] + rest && rest[0] == RBRACKET;
    AtSplit(src, pos + 1, text[..k], rest);
    AtIndex(src, pos + 1 + k, rest, 0);
    FirstBracket(src, pos + 1, text[..k]);
    AtSlice(src, pos + 1, text[..k]);
  }

  /** A root's printed index is read to its end if and only if its text holds no
      closing bracket; otherwise the parser stops inside it. */
  lemma {:induction false} IndexReadExactly(t: Tables, src: Text, pos: nat, n: Node)
    requires n.Command? && n.index.Some? && 0 < pos && At(src, pos, PrintIndex(n))
    ensures pos <= |src| && ParseBracket(t, src, pos).Some?
    ensures var end := pos + |PrintIndex(n)|;
            var p := ParseBracket(t, src, pos).value.pos;
            if RBRACKET in PrintAll(n.index.value.body) then p < end else p == end
  {
    hide At, PrintAll, ParseBracket, Upto;
    IndexIsCut(t, src, pos, PrintAll(n.index.value.body));
  }

  /** Wherever the index stands, it is read to its end. */
  ghost predicate IndexRead(t: Tables, n: Node)
    requires n.Command?
  {
    forall src: Text, pos: nat :: 0 < pos && At(src, pos, PrintIndex(n)) ==>
      ParseBracket(t, src, pos).Some? && ParseBracket(t, src, pos).value.pos == pos + |PrintIndex(n)|
  }

  /** Every root's index in the tree is read to its end. */
  ghost predicate IndicesRead(t: Tables, n: Node)
    decreases n
  {
    match n
    case Group(body) => forall m :: m in body ==> IndicesRead(t, m)
    case Script(_, body) => forall m :: m in body ==> IndicesRead(t, m)
    case Command(_, index, args) =>
      && (forall a :: a in args ==> forall m :: m in a.body ==> IndicesRead(t, m))
      && (index.Some? ==> IndexRead(t, n) && forall m :: m in index.value.body ==> IndicesRead(t, m))
    case _ => true
  }

  lemma {:induction false} IndexReadIffClosed(t: Tables, n: Node)
    requires n.Command? && n.index.Some?
    ensures IndexRead(t, n) <==> RBRACKET !in PrintAll(n.index.value.body)
  {
    hide At, PrintAll, PrintIndex, ParseBracket;
    forall src: Text, pos: nat | 0 < pos && At(src, pos, PrintIndex(n))
      ensures pos <= |src| && ParseBracket(t, src, pos).Some?
      ensures ParseBracket(t, src, pos).value.pos == pos + |PrintIndex(n)| <==> RBRACKET !in PrintAll(n.index.value.body)
    {
      IndexReadExactly(t, src, pos, n);
    }
    assert At([LBRACKET] + PrintIndex(n), 1, PrintIndex(n)) by { StandsAfter(LBRACKET, PrintIndex(n)); }
  }

  lemma {:induction false} StandsAfter(u: Unit, s: Text)
    ensures At([u] + s, 1, s)
  {}

  /** The condition of the main result is exact: every index in a tree is read to
      its end if and only if none holds a closing bracket. */
  lemma {:induction false} IndicesReadIffClosed(t: Tables, n: Node)
    ensures IndicesRead(t, n) <==> Closed(n)
    decreases n
  {
    hide PrintAll, IndexRead;
    match n
    case Group(body) => forall m | m in body ensures IndicesRead(t, m) <==> Closed(m) { IndicesReadIffClosed(t, m); }
    case Script(_, body) => forall m | m in body ensures IndicesRead(t, m) <==> Closed(m) { IndicesReadIffClosed(t, m); }
    case Command(_, index, args) =>
      forall a, m | a in args && m in a.body ensures IndicesRead(t, m) <==> Closed(m) { IndicesReadIffClosed(t, m); }
      if index.Some? {
        IndexReadIffClosed(t, n);
        forall m | m in index.value.body ensures IndicesRead(t, m) <==> Closed(m) { IndicesReadIffClosed(t, m); }
      }
    case _ =>
  }

  /** \sqrt[degree]{radicand} */
  function RootOf(degree: seq<Node>, radicand: Unit): Node {
    Command(SQRT, Some(Argument(degree)), [Argument([Plain(radicand)])])
  }

  const THREE: Unit := 0x33
  const TWO: Unit := 0x32
  const LETTER_X: Unit := 0x78

  const CUT: Text := [BACKSLASH] + (SQRT + [LBRACKET, THREE])
  const AFTER: Text := [RBRACKET, LBRACE, LETTER_X, RBRACE]

  function NestedText(): Text {
    [BACKSLASH] + (SQRT + ([LBRACKET] + (CUT + [RBRACKET]) + ([LBRACE, TWO, RBRACE] + AFTER)))
  }

  lemma {:induction false} PrintOne(n: Node)
    ensures PrintAll([n]) == Print(n)
  {
    hide Print;
    assert [n][1..] == [] && PrintAll([]) == [];
  }

  lemma {:induction false} PrintRoot(degree: seq<Node>, radicand: Unit)
    ensures Print(RootOf(degree, radicand))
            == [BACKSLASH] + (SQRT + ([LBRACKET] + (PrintAll(degree) + [RBRACKET]) + [LBRACE, radicand, RBRACE]))
  {
    hide PrintAll;
    var n := RootOf(degree, radicand);
    assert n.args[1..] == [] && PrintArguments([]) == [];
    PrintOne(Plain(radicand));
    assert PrintArguments(n.args) == PrintArgument([Plain(radicand)]) == [LBRACE, radicand, RBRACE];
  }

  lemma {:induction false} NestedPrints()
    ensures PrintAll([RootOf([RootOf([Plain(THREE)], TWO)], LETTER_X)]) == NestedText()
  {
    hide PrintAll, Print;
    var inner := RootOf([Plain(THREE)], TWO);
    PrintOne(RootOf([inner], LETTER_X));
    PrintRoot([inner], LETTER_X);
    PrintOne(inner);
    PrintRoot([Plain(THREE)], TWO);
    PrintOne(Plain(THREE));
    assert Print(Plain(THREE)) == [THREE] by { PrintPlain(THREE); }
    assert Print(inner) == CUT + [RBRACKET] + [LBRACE, TWO, RBRACE];
  }

  lemma {:induction false} PrintPlain(u: Unit)
    ensures Print(Plain(u)) == [u]
  {}

  lemma {:induction false} NestedIsOk(t: Tables)
    requires KindOf(t, SQRT).Root?
    ensures var n := RootOf([RootOf([Plain(THREE)], TWO)], LETTER_X); AllOk(t, [n], false) && !Closed(n)
  {
    hide KindOf, PrintAll, Print;
    var inner := RootOf([Plain(THREE)], TWO);
    RootOk(t, [Plain(THREE)], TWO);
    RootOk(t, [inner], LETTER_X);
    PrintOne(inner);
    PrintRoot([Plain(THREE)], TWO);
    assert Print(inner)[1 + |SQRT| + 1 + |PrintAll([Plain(THREE)])|] == RBRACKET;
  }

  lemma {:induction false} RootOk(t: Tables, degree: seq<Node>, radicand: Unit)
    requires KindOf(t, SQRT).Root? && |degree| == 1 && Ok(t, degree[0], false) && (radicand == TWO || radicand == LETTER_X)
    ensures Ok(t, RootOf(degree, radicand), false)
  {
    hide KindOf, PrintAll, Print;
    assert Arity(KindOf(t, SQRT)) == 1;
    assert IsName(SQRT);
  }

  /** How the text is read: some root, then a closing bracket, then the letter. */
  lemma {:induction false} NestedParse(t: Tables)
    requires KindOf(t, SQRT).Root?
    ensures LastButOne(Parse(t, NestedText())) == RBRACKET
  {
    hide ParseSequence, ParseCommand, ParseArgument, ParseGroup, ParseBracket, At, KindOf, Apply, PrintAll, DenoteAll,
         Ok, Closed, Upto, NameEnd;
    var src := NestedText();
    WholeIsAt(src);
    NameAt(src, 0, SQRT, [LBRACKET] + (CUT + [RBRACKET]) + ([LBRACE, TWO, RBRACE] + AFTER));
    CommandStep(t, src, 0, SQRT, 5, false);
    AtSplit(src, 5, [LBRACKET] + (CUT + [RBRACKET]), [LBRACE, TWO, RBRACE] + AFTER);
    IndexIsCut(t, src, 5, CUT);
    CutIsWhole();
    AtSplit(src, 14, [LBRACE, TWO, RBRACE], AFTER);
    PlainGroupAt(t, src, 14, TWO);
    var root := ParseCommand(t, src, 0, false);
    assert root.pos == 17;
    AtomStep(t, src, 0, false, []);
    AfterRoot(t, src, [] + root.text);
  }

  lemma {:induction false} CutIsWhole()
    ensures |CUT| == 7 && Upto(CUT) == 7 && |SQRT| == 4
  {
    hide Upto;
    assert |CUT| == 7 && RBRACKET !in CUT;
  }

  lemma {:induction false} PlainGroupAt(t: Tables, src: Text, pos: nat, u: Unit)
    requires !Special(u) && u != CARET && u != UNDERSCORE && At(src, pos, [LBRACE, u, RBRACE])
    ensures Is(src, pos, LBRACE)
    ensures ParseArgument(t, src, pos, false).pos == ParseGroup(t, src, pos, false).pos == pos + 3
  {
    hide ParseSequence, ParseArgument, ParseGroup, ParseAtom, At, PrintAll, DenoteAll;
    PrintOne(Plain(u));
    assert PrintArgument([Plain(u)]) == [LBRACE, u, RBRACE];
    GroupAt(t, src, pos, false, [Plain(u)]);
    ArgumentIsGroup(t, src, pos, false);
  }

  lemma {:induction false} AfterRoot(t: Tables, src: Text, done: Text)
    requires |src| == 21 && At(src, 17, AFTER)
    ensures ParseSequence(t, src, 17, false, done) == Parsed(21, done + [RBRACKET] + [LETTER_X])
  {
    hide ParseSequence, At;
    var x := Group([Plain(LETTER_X)]);
    var nodes := [Plain(RBRACKET), x];
    assert nodes[1..] == [x] && [x][1..] == [];
    PrintOne(x);
    PrintOne(Plain(LETTER_X));
    assert PrintAll(nodes) == Print(Plain(RBRACKET)) + PrintAll([x]) == AFTER;
    AfterOk(t);
    SequenceAt(t, src, 17, false, nodes, done);
    assert [Plain(LETTER_X)][1..] == [];
    assert DenoteAll(t, [Plain(LETTER_X)], false, []) == [] + [LETTER_X] == [LETTER_X];
    assert DenoteAll(t, nodes, false, done) == DenoteAll(t, [x], false, done + [RBRACKET]) == done + [RBRACKET] + [LETTER_X];
  }

  lemma {:induction false} AfterOk(t: Tables)
    ensures var nodes := [Plain(RBRACKET), Group([Plain(LETTER_X)])]; AllOk(t, nodes, false) && AllClosed(nodes)
  {}

  /** The sign before the last character. */
  function LastButOne(text: Text): Unit { if |text| < 2 then SPACE else text[|text| - 2] }

  /** What the tree denotes: a root sign before the letter. */
  lemma {:induction false} NestedMeans(t: Tables)
    requires KindOf(t, SQRT).Root?
    ensures var n := RootOf([RootOf([Plain(THREE)], TWO)], LETTER_X);
            AllOk(t, [n], false) && LastButOne(DenoteAll(t, [n], false, [])) != RBRACKET
  {
    hide KindOf, Ok;
    var inner := RootOf([Plain(THREE)], TWO);
    var n := RootOf([inner], LETTER_X);
    NestedIsOk(t);
    AllOkOne(t, n);
    Applied(t, n, false);
    hide Denote;
    var index := DenoteAll(t, [inner], false, []);
    assert [n][1..] == [];
    assert DenoteAll(t, [n], false, []) == Denote(t, n, false, []);
    PlainMeans(t, LETTER_X);
    assert Denote(t, n, false, []) == Rooted(t, Some(index), [LETTER_X]);
    LetterRooted(t, index);
  }

  lemma {:induction false} AllOkOne(t: Tables, n: Node)
    requires AllOk(t, [n], false)
    ensures Ok(t, n, false)
  {
    assert n in [n];
  }

  lemma {:induction false} PlainMeans(t: Tables, u: Unit)
    requires Ok(t, Plain(u), false)
    ensures AllOk(t, [Plain(u)], false) && DenoteAll(t, [Plain(u)], false, []) == [u]
  {
    assert [Plain(u)][1..] == [];
    assert DenoteAll(t, [], false, [] + [u]) == [u];
  }

  lemma {:induction false} LetterRooted(t: Tables, index: Text)
    ensures LastButOne(Rooted(t, Some(index), [LETTER_X])) != RBRACKET
  {
    hide MapScript;
    assert [LETTER_X][1..] == [] && Points([LETTER_X]) == [[LETTER_X][..1]] + Points([]);
    assert Parenthesize(t, [LETTER_X]) == [LETTER_X];
  }

  /** \sqrt[\sqrt[3]{2}]{x}: a tree whose text is not read as what it denotes,
      whatever the tables. The outer index ends at the inner bracket, so the
      radicand read is 2, and the rest follows as text. */
  lemma {:induction false} NestedIndexIsMisread(t: Tables)
    requires KindOf(t, SQRT).Root?
    ensures var n := RootOf([RootOf([Plain(THREE)], TWO)], LETTER_X);
            && AllOk(t, [n], false) && !Closed(n)
            && Parse(t, PrintAll([n])) != DenoteAll(t, [n], false, [])
  {
    hide Parse, DenoteAll, KindOf, Ok, Closed, PrintAll, NestedText;
    NestedIsOk(t);
    NestedPrints();
    NestedParse(t);
    NestedMeans(t);
  }
}
