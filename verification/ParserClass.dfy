/** The parser as the source runs it: a loop over the tokens the lexer still holds, parselets that
    consume them, and two stacks that parselets push and pop.  It returns the node of the tree the
    functions in Parse.dfy find, and leaves both stacks as they were. */
module ParserClass {
  import opened Common
  import opened Tokens
  import opened Grammar
  import opened Parse
  import opened ParseCorrect
  import opened Ast
  import opened Build

  /** What the run of a parselet's steps must return when the functions return `r`. */
  predicate Meets(r: Result<seq<Part>>, ps: Option<seq<Piece>>, rest: seq<Token>, s: Storage) {
    match r
    case Aborted(_) => ps.None?
    case Ok(parts, rest2) => ps == Some(Pieces(parts, s)) && rest == rest2
  }

  predicate MeetsOne(r: Result<Part>, p: Option<Piece>, rest: seq<Token>, s: Storage) {
    match r
    case Aborted(_) => p.None?
    case Ok(part, rest2) => p == Some(PieceOf(part, s)) && rest == rest2
  }

  predicate MeetsExpr(r: Result<Cst>, n: Option<Node>, rest: seq<Token>, s: Storage) {
    match r
    case Aborted(_) => n.None?
    case Ok(c, rest2) => n == Some(NodeOf(c, s)) && rest == rest2
  }

  /** What was consumed so far, in front of what the rest yields. */
  function Extend<T>(done: seq<T>, r: Result<seq<T>>): Result<seq<T>> {
    match r
    case Aborted(why) => Aborted(why)
    case Ok(more, rest) => Ok(done + more, rest)
  }

  lemma ExtendNothing<T>(r: Result<seq<T>>)
    ensures Extend([], r) == r
  {
    if r.Ok? { assert [] + r.value == r.value; }
  }

  lemma ExtendTwice<T>(a: seq<T>, b: seq<T>, r: Result<seq<T>>)
    ensures Extend(a, Extend(b, r)) == Extend(a + b, r)
  {
    if r.Ok? { assert a + (b + r.value) == a + b + r.value; }
  }

  lemma {:induction false} PiecesAppend(a: seq<Part>, b: seq<Part>, s: Storage)
    ensures Pieces(a + b, s) == Pieces(a, s) + Pieces(b, s)
  {
    if a == [] {
      assert [] + b == b;
    } else {
      assert (a + b)[1..] == a[1..] + b;
      PiecesAppend(a[1..], b, s);
    }
  }

  lemma PiecesOne(p: Part, s: Storage)
    ensures Pieces([p], s) == [PieceOf(p, s)]
  {
    assert [p][1..] == [];
  }

  // ----- the steps of the functions, one at a time -----

  lemma ItemsStep(items: seq<Item>, ts: seq<Token>, done: seq<Part>)
    requires items != []
    ensures ParseItem(items[0], ts).Aborted? ==> ParseItems(items, ts).Aborted?
    ensures ParseItem(items[0], ts).Ok? ==>
      var r := ParseItem(items[0], ts);
      Extend(done, ParseItems(items, ts)) == Extend(done + [r.value], ParseItems(items[1..], r.rest))
  {
    hide ParseItem;
    if ParseItem(items[0], ts).Ok? {
      var r := ParseItem(items[0], ts);
      ExtendTwice(done, [r.value], ParseItems(items[1..], r.rest));
    }
  }

  lemma WhileStep(k: Kind, body: seq<Item>, ts: seq<Token>, done: seq<Part>)
    requires Next(k, ts)
    ensures ParseItems(body, ts[1..]).Aborted? ==> ParseWhile(k, body, ts).Aborted?
    ensures ParseItems(body, ts[1..]).Ok? ==>
      var r := ParseItems(body, ts[1..]);
      Extend(done, ParseWhile(k, body, ts)) == Extend(done + [Rep([Leaf(ts[0])] + r.value)], ParseWhile(k, body, r.rest))
  {
    hide ParseItems;
    if ParseItems(body, ts[1..]).Ok? {
      var r := ParseItems(body, ts[1..]);
      ExtendTwice(done, [Rep([Leaf(ts[0])] + r.value)], ParseWhile(k, body, r.rest));
    }
  }

  lemma UntilStep(k: Kind, ts: seq<Token>, done: seq<Part>)
    requires !Next(k, ts)
    ensures ParseExpr(0, ts).Aborted? ==> ParseUntil(k, ts).Aborted?
    ensures ParseExpr(0, ts).Ok? ==>
      var r := ParseExpr(0, ts); Extend(done, ParseUntil(k, ts)) == Extend(done + [Sub(r.value)], ParseUntil(k, r.rest))
  {
    hide ParseExpr;
    if ParseExpr(0, ts).Ok? {
      var r := ParseExpr(0, ts);
      ExtendTwice(done, [Sub(r.value)], ParseUntil(k, r.rest));
    }
  }

  lemma SepStep(close: Kind, body: seq<Item>, ts: seq<Token>, done: seq<Part>)
    ensures ParseItems(body, ts).Aborted? ==> Extend(done, ParseSep(close, body, ts)).Aborted?
    ensures ParseItems(body, ts).Ok? ==>
      var r := ParseItems(body, ts);
      if Next(close, r.rest) then Extend(done, ParseSep(close, body, ts)) == Ok(done + [Rep(r.value), Leaf(r.rest[0])], r.rest[1..])
      else if !Next(Comma, r.rest) then Extend(done, ParseSep(close, body, ts)).Aborted?
      else Extend(done, ParseSep(close, body, ts)) == Extend(done + [Rep(r.value), Leaf(r.rest[0])], ParseSep(close, body, r.rest[1..]))
  {
    hide ParseItems;
    if ParseItems(body, ts).Ok? {
      var r := ParseItems(body, ts);
      if !Next(close, r.rest) && Next(Comma, r.rest) && |r.rest| <= |ts| {
        ExtendTwice(done, [Rep(r.value), Leaf(r.rest[0])], ParseSep(close, body, r.rest[1..]));
      }
    }
  }

  class Parser {
    var rest: seq<Token>
    var storageKinds: seq<Storage>
    var templateParameters: seq<seq<string>>

    constructor (ts: seq<Token>)
      ensures rest == ts && storageKinds == [] && templateParameters == []
    {
      rest, storageKinds, templateParameters := ts, [], [];
    }

    function Top(): Storage
      requires storageKinds != []
      reads this
    {
      storageKinds[|storageKinds| - 1]
    }

    // ----- tokens -----

    /** The next token, unless the input is at its end. */
    method NextToken() returns (t: Option<Token>)
      modifies this`rest
      ensures t == First(old(rest)) && rest == if old(rest) == [] then [] else old(rest)[1..]
    {
      if rest == [] {
        return None;
      }
      t := Some(rest[0]);
      rest := rest[1..];
    }

    method Consume(k: Kind) returns (ok: bool)
      modifies this`rest
      ensures ok == Next(k, old(rest)) && (ok ==> rest == old(rest)[1..])
    {
      var t := NextToken();
      ok := t == Some(Sym(k));
    }

    method ConsumeOptional(k: Kind) returns (taken: bool)
      modifies this`rest
      ensures taken == Next(k, old(rest)) && rest == if taken then old(rest)[1..] else old(rest)
    {
      taken := Next(k, rest);
      if taken {
        rest := rest[1..];
      }
    }

    /** Both stacks are as they were. */
    twostate predicate StacksKept()
      reads this
    {
      storageKinds == old(storageKinds) && templateParameters == old(templateParameters)
    }

    // ----- steps -----

    method RunItems(items: seq<Item>) returns (ps: Option<seq<Piece>>)
      requires storageKinds != []
      modifies this
      ensures Meets(ParseItems(items, old(rest)), ps, rest, old(Top()))
      ensures ps.Some? ==> StacksKept()
      decreases |rest|, 5, items, 0
    {
      hide ParseItems, ParseItem, Pieces, PieceOf;
      var acc: seq<Piece> := [];
      ghost var done: seq<Part> := [];
      ExtendNothing(ParseItems(items, rest));
      PiecesNone(Top());
      assert items[0..] == items;
      for i := 0 to |items|
        invariant StacksKept() && |rest| <= |old(rest)|
        invariant Extend(done, ParseItems(items[i..], rest)) == ParseItems(items, old(rest))
        invariant acc == Pieces(done, old(Top()))
      {
        ItemsStep(items[i..], rest, done);
        assert items[i..][1..] == items[i + 1..];
        ghost var r := ParseItem(items[i], rest);
        var p := RunItem(items[i]);
        if p.None? {
          return None;
        }
        PiecesAppend(done, [r.value], Top());
        PiecesOne(r.value, Top());
        done := done + [r.value];
        acc := acc + [p.value];
      }
      assert items[|items|..] == [];
      NoItems(rest, done);
      ps := Some(acc);
    }

    method RunItem(i: Item) returns (p: Option<Piece>)
      requires storageKinds != []
      modifies this
      ensures MeetsOne(ParseItem(i, old(rest)), p, rest, old(Top()))
      ensures p.Some? ==> StacksKept()
      decreases |rest|, 5, i, 0
    {
      hide ParseItems, ParseWhile, ParseUntil, ParseSep, Parse.ParseExpr, Pieces, NodeOf;
      match i
      case Lit(k) =>
        var ok := Consume(k);
        p := if ok then Some(Word(Sym(k))) else None;
      case Ident =>
        var t := NextToken();
        p := if t.Some? && t.value.Id? then Some(Word(t.value)) else None;
      case SubExpr(q) =>
        var n := ParseExpr(q);
        p := if n.Some? then Some(Built(n.value)) else None;
      case TypeRef =>
        var t := NextToken();
        if t.None? || !t.value.Id? {
          return None;
        }
        ghost var r := ParseItems(TYPE_TAIL, rest);
        var ps := RunItems(TYPE_TAIL);
        if r.Ok? { PiecesHead(t.value, r.value, Top()); }
        p := if ps.Some? then Some(Several([Word(t.value)] + ps.value)) else None;
      case Either(k, yes, no) =>
        var taken := ConsumeOptional(k);
        ghost var r := ParseItems(if taken then yes else no, rest);
        if taken {
          var ps := RunItems(yes);
          if r.Ok? { PiecesHead(Sym(k), r.value, Top()); }
          p := if ps.Some? then Some(Present([Word(Sym(k))] + ps.value)) else None;
        } else {
          var ps := RunItems(no);
          p := if ps.Some? then Some(Absent(ps.value)) else None;
        }
      case While(k, body) =>
        var ps := RunWhile(k, body);
        p := if ps.Some? then Some(Several(ps.value)) else None;
      case Until(k) =>
        var ps := RunUntil(k);
        p := if ps.Some? then Some(Several(ps.value)) else None;
      case Sep(close, body) =>
        var ps := RunSep(close, body);
        p := if ps.Some? then Some(Several(ps.value)) else None;
    }

    method RunWhile(k: Kind, body: seq<Item>) returns (ps: Option<seq<Piece>>)
      requires storageKinds != []
      modifies this
      ensures Meets(ParseWhile(k, body, old(rest)), ps, rest, old(Top()))
      ensures ps.Some? ==> StacksKept()
      decreases |rest|, 5, body, 1
    {
      hide ParseItems, ParseWhile, Pieces;
      var acc: seq<Piece> := [];
      ghost var done: seq<Part> := [];
      ExtendNothing(ParseWhile(k, body, rest));
      PiecesNone(Top());
      while Next(k, rest)
        invariant StacksKept() && |rest| <= |old(rest)|
        invariant Extend(done, ParseWhile(k, body, rest)) == ParseWhile(k, body, old(rest))
        invariant acc == Pieces(done, old(Top()))
        decreases |rest|
      {
        WhileStep(k, body, rest, done);
        var taken := ConsumeOptional(k);
        ghost var r := ParseItems(body, rest);
        var one := RunItems(body);
        if one.None? {
          return None;
        }
        ghost var part := Rep([Leaf(Sym(k))] + r.value);
        PiecesHead(Sym(k), r.value, Top());
        PiecesAppend(done, [part], Top());
        PiecesOne(part, Top());
        done := done + [part];
        acc := acc + [Several([Word(Sym(k))] + one.value)];
      }
      WhileEnds(k, body, rest, done);
      ps := Some(acc);
    }

    method RunUntil(k: Kind) returns (ps: Option<seq<Piece>>)
      requires storageKinds != []
      modifies this
      ensures Meets(ParseUntil(k, old(rest)), ps, rest, old(Top()))
      ensures ps.Some? ==> StacksKept()
      decreases |rest|, 4
    {
      hide Parse.ParseExpr, ParseUntil, Pieces, NodeOf;
      var acc: seq<Piece> := [];
      ghost var done: seq<Part> := [];
      ExtendNothing(ParseUntil(k, rest));
      PiecesNone(Top());
      while !Next(k, rest)
        invariant StacksKept() && |rest| <= |old(rest)|
        invariant Extend(done, ParseUntil(k, rest)) == ParseUntil(k, old(rest))
        invariant acc == Pieces(done, old(Top()))
        decreases |rest|
      {
        UntilStep(k, rest, done);
        ghost var r := Parse.ParseExpr(0, rest);
        var n := ParseExpr(0);
        if n.None? {
          return None;
        }
        PiecesAppend(done, [Sub(r.value)], Top());
        PiecesOne(Sub(r.value), Top());
        done := done + [Sub(r.value)];
        acc := acc + [Built(n.value)];
      }
      UntilEnds(k, rest, done);
      PiecesAppend(done, [Leaf(Sym(k))], Top());
      PiecesOne(Leaf(Sym(k)), Top());
      var taken := ConsumeOptional(k);
      ps := Some(acc + [Word(Sym(k))]);
    }

    /** One member of a list and the token after it. */
    method RunMember(close: Kind, body: seq<Item>) returns (m: Option<Piece>, t: Token)
      requires storageKinds != []
      modifies this
      ensures var r := ParseItems(body, old(rest));
              if r.Ok? && (Next(close, r.rest) || Next(Comma, r.rest)) then
                m == Some(PieceOf(Rep(r.value), old(Top()))) && t == r.rest[0] && rest == r.rest[1..]
              else m.None?
      ensures m.Some? ==> StacksKept()
      decreases |rest|, 5, body, 1
    {
      hide ParseItems, Pieces;
      var ps := RunItems(body);
      var next := NextToken();
      if ps.None? || (next != Some(Sym(close)) && next != Some(Sym(Comma))) {
        return None, Sym(close);
      }
      m, t := Some(Several(ps.value)), next.value;
    }

    method RunSep(close: Kind, body: seq<Item>) returns (ps: Option<seq<Piece>>)
      requires storageKinds != []
      modifies this
      ensures Meets(ParseSep(close, body, old(rest)), ps, rest, old(Top()))
      ensures ps.Some? ==> StacksKept()
      decreases |rest|, 5, body, 2
    {
      hide ParseItems, ParseSep, Pieces, Extend;
      var acc: seq<Piece> := [];
      ghost var done: seq<Part> := [];
      var closed := false;
      ExtendNothing(ParseSep(close, body, rest));
      PiecesNone(Top());
      while !closed
        invariant StacksKept() && |rest| <= |old(rest)|
        invariant !closed ==> Extend(done, ParseSep(close, body, rest)) == ParseSep(close, body, old(rest))
        invariant closed ==> ParseSep(close, body, old(rest)) == Ok(done, rest)
        invariant acc == Pieces(done, old(Top()))
        decreases !closed, |rest|
      {
        SepStep(close, body, rest, done);
        ghost var r := ParseItems(body, rest);
        var m, t := RunMember(close, body);
        if m.None? {
          return None;
        }
        closed := t == Sym(close);
        PiecesPair(done, Rep(r.value), Leaf(t), Top());
        done := done + [Rep(r.value), Leaf(t)];
        acc := acc + [m.value, Word(t)];
      }
      ps := Some(acc);
    }

    // ----- expressions -----

    /** A run of steps while `storage` is on top of the storage-kind stack. */
    method RunBody(items: seq<Item>, storage: Storage) returns (ps: Option<seq<Piece>>)
      requires storageKinds != []
      modifies this
      ensures Meets(ParseItems(items, old(rest)), ps, rest, storage)
      ensures ps.Some? ==> StacksKept()
      decreases |rest|, 5, items, 1
    {
      storageKinds := storageKinds + [storage];
      ps := RunItems(items);
      if ps.Some? {
        storageKinds := storageKinds[..|storageKinds| - 1];
      }
    }

    method ParsePrefix(head: Token) returns (n: Option<Node>)
      requires storageKinds != [] && PrefixForm(head).Some?
      modifies this
      ensures MeetsPrefix(head, ParseItems(PrefixForm(head).value, old(rest)), n, rest, old(Top()))
      ensures n.Some? ==> StacksKept()
      decreases |rest|, 7
    {
      hide ParseItems, Pieces, PrefixNode, PrefixForm;
      if head == Sym(KwFunc) || head == Sym(KwClass) {
        n := ParseDefinition(head);
      } else if head == Sym(KwTemplate) {
        n := ParseTemplate();
      } else {
        var ps := RunItems(PrefixForm(head).value);
        if ps.Some? {
          n := Some(PrefixNode(head, ps.value, Top()));
        } else {
          n := None;
        }
      }
    }

    /** A function pushes the storage kind of its body once its header is parsed; a class also
        pushes its template parameters, if it has any. */
    method ParseDefinition(head: Token) returns (n: Option<Node>)
      requires storageKinds != [] && (head == Sym(KwFunc) || head == Sym(KwClass))
      modifies this
      ensures MeetsPrefix(head, ParseItems(PrefixForm(head).value, old(rest)), n, rest, old(Top()))
      ensures n.Some? ==> StacksKept()
      decreases |rest|, 6
    {
      hide ParseItems, Pieces, PrefixNode, PrefixForm, IdsIn;
      var header := if head == Sym(KwFunc) then FUNCTION_HEADER else CLASS_HEADER;
      DefinitionForm(head);
      SplitItems(header, [EXPR], rest);
      ghost var r := ParseItems(header, rest);
      var hs := RunItems(header);
      if hs.None? {
        return None;
      }
      HeaderPieces(header, old(rest), Top(), BodyStorage(head, Top()));
      var generic := head == Sym(KwClass) && |hs.value| > 1 && IdsIn(hs.value[1]) != [];
      if generic {
        templateParameters := templateParameters + [IdsIn(hs.value[1])];
      }
      ghost var r2 := ParseItems([EXPR], rest);
      var body := RunBody([EXPR], BodyStorage(head, Top()));
      if body.None? {
        return None;
      }
      if generic {
        templateParameters := templateParameters[..|templateParameters| - 1];
      }
      PiecesAppend(r.value, r2.value, BodyStorage(head, Top()));
      n := Some(PrefixNode(head, hs.value + body.value, Top()));
    }

    method ParseTemplate() returns (n: Option<Node>)
      requires storageKinds != []
      modifies this
      ensures MeetsPrefix(Sym(KwTemplate), ParseItems(PrefixForm(Sym(KwTemplate)).value, old(rest)), n, rest, old(Top()))
      ensures n.Some? ==> StacksKept()
      decreases |rest|, 6
    {
      hide ParseItems, Pieces, PrefixNode, PrefixForm, IdsIn;
      TemplateForm();
      SplitItems(CLASS_HEADER, [BLOCK], rest);
      ghost var r := ParseItems(CLASS_HEADER, rest);
      var hs := RunItems(CLASS_HEADER);
      if hs.None? {
        return None;
      }
      templateParameters := templateParameters + [if |hs.value| > 1 then IdsIn(hs.value[1]) else []];
      ghost var r2 := ParseItems([BLOCK], rest);
      var body := RunItems([BLOCK]);
      if body.None? {
        return None;
      }
      templateParameters := templateParameters[..|templateParameters| - 1];
      PiecesAppend(r.value, r2.value, Top());
      n := Some(PrefixNode(Sym(KwTemplate), hs.value + body.value, Top()));
    }

    /** The Pratt loop. */
    method ParseExpr(p: int) returns (n: Option<Node>)
      requires storageKinds != []
      modifies this
      ensures MeetsExpr(Parse.ParseExpr(p, old(rest)), n, rest, old(Top()))
      ensures n.Some? ==> StacksKept()
      decreases |rest|, 3
    {
      hide ParseItems, Pieces, PrefixNode, InfixNode, PrefixForm, InfixForm, KindPrecedence, ParseLoop;
      var t := NextToken();
      if t.None? || PrefixForm(t.value).None? {
        return None;
      }
      ghost var r := ParseItems(PrefixForm(t.value).value, rest);
      n := ParsePrefix(t.value);
      if n.None? {
        return None;
      }
      var left := n.value;
      ghost var c := Prefix(t.value, r.value);
      while rest != [] && p < Precedence(rest[0])
        invariant StacksKept() && |rest| <= |old(rest)|
        invariant left == NodeOf(c, Top())
        invariant ParseLoop(p, c, rest) == Parse.ParseExpr(p, old(rest))
        decreases |rest|
      {
        LoopTurns(p, c, rest);
        t := NextToken();
        if InfixForm(t.value).None? {
          return None;
        }
        ghost var r2 := ParseItems(InfixForm(t.value).value, rest);
        var ps := RunItems(InfixForm(t.value).value);
        if ps.None? {
          return None;
        }
        left := InfixNode(left, t.value, ps.value);
        c := Infix(c, t.value, r2.value);
      }
      LoopEnds(p, c, rest);
      n := Some(left);
    }

    /** A whole module: expressions up to the end of input, in a compound of kind Global. */
    method ParseModule() returns (n: Option<Node>)
      requires storageKinds == []
      modifies this
      ensures match Parse.ParseModule(old(rest))
              case Aborted(_) => n.None?
              case Ok(cs, _) => n == Some(CompoundExpr(Global, NodesOf(cs, Global)))
      ensures n.Some? ==> StacksKept() && rest == []
    {
      hide Parse.ParseExpr, NodeOf;
      storageKinds := [Global];
      var es: seq<Node> := [];
      ghost var done: seq<Cst> := [];
      ExtendNothing(Parse.ParseModule(rest));
      while rest != []
        invariant storageKinds == [Global] && templateParameters == old(templateParameters)
        invariant Extend(done, Parse.ParseModule(rest)) == Parse.ParseModule(old(rest))
        invariant es == NodesOf(done, Global)
        decreases |rest|
      {
        ModuleStep(rest, done);
        ghost var r := Parse.ParseExpr(0, rest);
        var e := ParseExpr(0);
        if e.None? {
          return None;
        }
        NodesOfAppend(done, r.value, Global);
        done := done + [r.value];
        es := es + [e.value];
      }
      assert done + [] == done;
      storageKinds := [];
      n := Some(CompoundExpr(Global, es));
    }
  }

  function NodesOf(cs: seq<Cst>, s: Storage): seq<Node> {
    if cs == [] then [] else [NodeOf(cs[0], s)] + NodesOf(cs[1..], s)
  }

  lemma {:induction false} NodesOfAppend(cs: seq<Cst>, c: Cst, s: Storage)
    ensures NodesOf(cs + [c], s) == NodesOf(cs, s) + [NodeOf(c, s)]
    decreases cs
  {
    hide NodeOf;
    if cs != [] {
      assert (cs + [c])[1..] == cs[1..] + [c];
      NodesOfAppend(cs[1..], c, s);
    }
  }

  lemma ModuleStep(ts: seq<Token>, done: seq<Cst>)
    requires ts != []
    ensures Parse.ParseExpr(0, ts).Aborted? ==> Extend(done, Parse.ParseModule(ts)).Aborted?
    ensures Parse.ParseExpr(0, ts).Ok? ==>
      var r := Parse.ParseExpr(0, ts); Extend(done, Parse.ParseModule(ts)) == Extend(done + [r.value], Parse.ParseModule(r.rest))
  {
    hide Parse.ParseExpr;
    if Parse.ParseExpr(0, ts).Ok? {
      var r := Parse.ParseExpr(0, ts);
      ExtendTwice(done, [r.value], Parse.ParseModule(r.rest));
    }
  }

  predicate MeetsPrefix(head: Token, r: Result<seq<Part>>, n: Option<Node>, rest: seq<Token>, s: Storage) {
    match r
    case Aborted(_) => n.None?
    case Ok(ps, rest2) => n == Some(NodeOf(Prefix(head, ps), s)) && rest == rest2
  }

  const FUNCTION_HEADER := [Ident, Lit(OpDef), TypeRef, Lit(OpenParen), PARAMETERS]
  const CLASS_HEADER := [Ident, TEMPLATE_PARAMETERS]

  lemma TemplateForm()
    ensures PrefixForm(Sym(KwTemplate)) == Some(CLASS_HEADER + [BLOCK])
  {
    assert CLASS_HEADER + [BLOCK] == [Ident, TEMPLATE_PARAMETERS, BLOCK];
  }

  lemma DefinitionForm(head: Token)
    requires head == Sym(KwFunc) || head == Sym(KwClass)
    ensures PrefixForm(head) == Some((if head == Sym(KwFunc) then FUNCTION_HEADER else CLASS_HEADER) + [EXPR])
  {
    assert FUNCTION_HEADER + [EXPR] == [Ident, Lit(OpDef), TypeRef, Lit(OpenParen), PARAMETERS, EXPR];
    assert CLASS_HEADER + [EXPR] == [Ident, TEMPLATE_PARAMETERS, EXPR];
  }

  lemma LoopTurns(p: int, c: Cst, ts: seq<Token>)
    requires ts != [] && p < Precedence(ts[0])
    ensures InfixForm(ts[0]).None? || ParseItems(InfixForm(ts[0]).value, ts[1..]).Aborted? ==> ParseLoop(p, c, ts).Aborted?
    ensures InfixForm(ts[0]).Some? && ParseItems(InfixForm(ts[0]).value, ts[1..]).Ok? ==>
      var r := ParseItems(InfixForm(ts[0]).value, ts[1..]); ParseLoop(p, c, ts) == ParseLoop(p, Infix(c, ts[0], r.value), r.rest)
  {
    hide ParseItems, InfixForm;
  }

  lemma LoopEnds(p: int, c: Cst, ts: seq<Token>)
    requires ts == [] || Precedence(ts[0]) <= p
    ensures ParseLoop(p, c, ts) == Ok(c, ts)
  {
  }

  /** Steps in two runs. */
  lemma {:induction false} SplitItems(a: seq<Item>, b: seq<Item>, ts: seq<Token>)
    ensures ParseItems(a, ts).Aborted? ==> ParseItems(a + b, ts).Aborted?
    ensures ParseItems(a, ts).Ok? ==> ParseItems(a + b, ts) == Extend(ParseItems(a, ts).value, ParseItems(b, ParseItems(a, ts).rest))
    decreases a
  {
    hide ParseItem;
    if a == [] {
      assert [] + b == b;
      ExtendNothing(ParseItems(b, ts));
    } else {
      assert (a + b)[0] == a[0] && (a + b)[1..] == a[1..] + b;
      if ParseItem(a[0], ts).Ok? {
        var r := ParseItem(a[0], ts);
        SplitItems(a[1..], b, r.rest);
        if ParseItems(a[1..], r.rest).Ok? {
          var r2 := ParseItems(a[1..], r.rest);
          ExtendTwice([r.value], r2.value, ParseItems(b, r2.rest));
        }
      }
    }
  }

  // ----- headers contain no expressions -----

  predicate Wordy(items: seq<Item>) {
    forall k | 0 <= k < |items| :: WordyItem(items[k])
  }

  predicate WordyItem(i: Item) {
    match i
    case SubExpr(_) => false
    case Until(_) => false
    case Either(_, yes, no) => Wordy(yes) && Wordy(no)
    case While(_, body) => Wordy(body)
    case Sep(_, body) => Wordy(body)
    case _ => true
  }

  /** The pieces of a header do not depend on the storage kind. */
  lemma HeaderPieces(items: seq<Item>, ts: seq<Token>, s: Storage, s2: Storage)
    requires items == FUNCTION_HEADER || items == CLASS_HEADER
    requires ParseItems(items, ts).Ok?
    ensures Pieces(ParseItems(items, ts).value, s) == Pieces(ParseItems(items, ts).value, s2)
  {
    hide ParseItems, Pieces, Fits;
    HeadersAreWordy();
    SoundItems(items, ts);
    SamePieces(items, ParseItems(items, ts).value, First(ParseItems(items, ts).rest), s, s2);
  }

  lemma HeadersAreWordy()
    ensures Wordy(FUNCTION_HEADER) && Wordy(CLASS_HEADER) && Wordy(TYPE_TAIL)
  {
  }

  lemma {:induction false} SamePieces(items: seq<Item>, ps: seq<Part>, next: Option<Token>, s: Storage, s2: Storage)
    requires Wordy(items) && Fits(items, ps, next)
    ensures Pieces(ps, s) == Pieces(ps, s2)
    decreases ps, 1
  {
    hide FitsOne, PieceOf, WordyItem;
    if items != [] {
      SamePiece(items[0], ps[0], Ahead(FlattenAll(ps[1..]), next), s, s2);
      SamePieces(items[1..], ps[1..], next, s, s2);
    }
  }

  lemma {:induction false} SamePiece(i: Item, p: Part, next: Option<Token>, s: Storage, s2: Storage)
    requires WordyItem(i) && FitsOne(i, p, next)
    ensures PieceOf(p, s) == PieceOf(p, s2)
    decreases p, 2
  {
    hide Pieces, Fits, FitsWhile, FitsSep, Wordy;
    match i
    case TypeRef =>
      HeadersAreWordy();
      SamePieces(TYPE_TAIL, p.ps[1..], next, s, s2);
      SameHead(p.ps, s, s2);
    case Either(k, yes, no) =>
      if p.Taken? {
        SamePieces(yes, p.ps[1..], next, s, s2);
        SameHead(p.ps, s, s2);
      } else {
        SamePieces(no, p.ps, next, s, s2);
      }
    case While(k, body) => SameWhile(k, body, p.ps, next, s, s2);
    case Sep(close, body) => SameSep(close, body, p.ps, next, s, s2);
    case _ =>
  }

  lemma SameHead(ps: seq<Part>, s: Storage, s2: Storage)
    requires ps != [] && ps[0].Leaf? && Pieces(ps[1..], s) == Pieces(ps[1..], s2)
    ensures Pieces(ps, s) == Pieces(ps, s2)
  {
  }

  lemma {:induction false} SameWhile(k: Kind, body: seq<Item>, ps: seq<Part>, next: Option<Token>, s: Storage, s2: Storage)
    requires Wordy(body) && FitsWhile(k, body, ps, next)
    ensures Pieces(ps, s) == Pieces(ps, s2)
    decreases ps, 0
  {
    hide Fits, Wordy;
    if ps != [] {
      SamePieces(body, ps[0].ps[1..], Ahead(FlattenAll(ps[1..]), next), s, s2);
      SameHead(ps[0].ps, s, s2);
      SameWhile(k, body, ps[1..], next, s, s2);
    }
  }

  lemma {:induction false} SameSep(close: Kind, body: seq<Item>, ps: seq<Part>, next: Option<Token>, s: Storage,
      s2: Storage)
    requires Wordy(body) && FitsSep(close, body, ps, next)
    ensures Pieces(ps, s) == Pieces(ps, s2)
    decreases ps, 0
  {
    hide Fits, Wordy;
    SameMember(body, ps[0], Ahead(FlattenAll(ps[1..]), next), s, s2);
    if |ps| > 2 {
      SameSep(close, body, ps[2..], next, s, s2);
    }
    SamePair(ps, s, s2);
  }

  lemma SamePair(ps: seq<Part>, s: Storage, s2: Storage)
    requires |ps| >= 2 && ps[1].Leaf? && PieceOf(ps[0], s) == PieceOf(ps[0], s2) && (|ps| > 2 ==> Pieces(ps[2..], s) == Pieces(ps[2..], s2))
    ensures Pieces(ps, s) == Pieces(ps, s2)
  {
    assert ps == [ps[0]] + ([ps[1]] + ps[2..]);
    if |ps| == 2 { assert ps[2..] == []; }
    PiecesHead(ps[1].t, ps[2..], s);
    PiecesHead(ps[1].t, ps[2..], s2);
    assert ps[1..] == [ps[1]] + ps[2..];
  }

  lemma {:induction false} SameMember(body: seq<Item>, p: Part, next: Option<Token>, s: Storage, s2: Storage)
    requires Wordy(body) && FitsMember(body, p, next)
    ensures PieceOf(p, s) == PieceOf(p, s2)
    decreases p, 2
  {
    hide Pieces, Fits, Wordy;
    SamePieces(body, p.ps, next, s, s2);
  }

  // ----- pieces of the lists built above -----

  lemma PiecesNone(s: Storage)
    ensures Pieces([], s) == []
  {
  }

  lemma PiecesHead(t: Token, ps: seq<Part>, s: Storage)
    ensures Pieces([Leaf(t)] + ps, s) == [Word(t)] + Pieces(ps, s)
  {
    PiecesAppend([Leaf(t)], ps, s);
    PiecesOne(Leaf(t), s);
  }

  lemma PiecesPair(done: seq<Part>, m: Part, l: Part, s: Storage)
    ensures Pieces(done + [m, l], s) == Pieces(done, s) + [PieceOf(m, s), PieceOf(l, s)]
  {
    hide Pieces, PieceOf;
    assert [m, l] == [m] + [l];
    PiecesAppend(done, [m, l], s);
    PiecesAppend([m], [l], s);
    PiecesOne(m, s);
    PiecesOne(l, s);
  }

  lemma NoItems(ts: seq<Token>, done: seq<Part>)
    ensures Extend(done, ParseItems([], ts)) == Ok(done, ts)
  {
    assert done + [] == done;
  }

  lemma WhileEnds(k: Kind, body: seq<Item>, ts: seq<Token>, done: seq<Part>)
    requires !Next(k, ts)
    ensures Extend(done, ParseWhile(k, body, ts)) == Ok(done, ts)
  {
    assert done + [] == done;
  }

  lemma UntilEnds(k: Kind, ts: seq<Token>, done: seq<Part>)
    requires Next(k, ts)
    ensures Extend(done, ParseUntil(k, ts)) == Ok(done + [Leaf(ts[0])], ts[1..])
  {
  }
}
