/** Everything the parser returns can be printed, so that parsing what was printed gives it again. */
module Reprinting {
  import opened Common
  import opened Tokens
  import opened Grammar
  import opened Parse
  import opened ParseCorrect
  import opened Ast
  import opened Build
  import opened Forms
  import opened FormNodes
  import opened Printing

  predicate AllPrintable(ns: seq<Node>) {
    forall i | 0 <= i < |ns| :: Printable(ns[i])
  }

  // ----- types and nodes that are there -----

  /** Whatever pieces are taken for types, their names have parts. */
  lemma {:induction false} TypesAreOk(ps: seq<Piece>)
    ensures TypesOk(TypesIn(ps))
    decreases ps
  {
    hide TypeOk;
    if ps != [] {
      TypeIsOk(ps[0]);
      TypesAreOk(ps[1..]);
    }
  }

  lemma {:induction false} TypeIsOk(p: Piece)
    ensures TypesOk(TypesOf(p))
    decreases p
  {
    if IsType(p) {
      TypeIsOk(p.ps[2]);
    } else if !p.Word? && !p.Built? {
      TypesAreOk(p.ps);
    }
  }

  /** How many expressions and types a list of steps asks for in any case. */
  function Exprs(items: seq<Item>): nat {
    if items == [] then 0 else (if items[0].SubExpr? then 1 else 0) + Exprs(items[1..])
  }

  function Types(items: seq<Item>): nat {
    if items == [] then 0 else (if items[0].TypeRef? then 1 else 0) + Types(items[1..])
  }

  lemma TypeFound(p: Part, next: Option<Token>, s: Storage)
    requires FitsOne(TypeRef, p, next)
    ensures |TypesOf(PieceOf(p, s))| == 1
  {
    hide FitsWhile, Fits, TypesIn, FlattenAll, Pieces;
    FitsAt(TYPE_TAIL, p.ps[1..], next, 0);
    FitsAt(TYPE_TAIL, p.ps[1..], next, 1);
    var q, r := p.ps[1..][0], p.ps[1..][1];
    assert p.ps == [p.ps[0], q, r];
    assert q.Rep? && (r.Taken? || r.Skipped?);
    Holds3(p.ps[0], q, r, s);
  }

  lemma {:induction false} Found(items: seq<Item>, ps: seq<Part>, next: Option<Token>, s: Storage)
    requires Fits(items, ps, next)
    ensures |Nodes(Pieces(ps, s))| >= Exprs(items) && |TypesIn(Pieces(ps, s))| >= Types(items)
    decreases items
  {
    hide FitsOne, PieceOf, NodesIn, TypesOf, FlattenAll;
    if items != [] {
      var nxt := Ahead(FlattenAll(ps[1..]), next);
      Found(items[1..], ps[1..], next, s);
      FoundOne(items[0], ps[0], nxt, s);
    }
  }

  lemma FoundOne(i: Item, p: Part, next: Option<Token>, s: Storage)
    requires FitsOne(i, p, next)
    ensures i.SubExpr? ==> |NodesIn(PieceOf(p, s))| == 1
    ensures i.TypeRef? ==> |TypesOf(PieceOf(p, s))| == 1
  {
    hide Bound, Fits;
    if i.TypeRef? { TypeFound(p, next, s); }
  }

  // ----- every node parsing builds can be printed -----

  lemma {:induction false} ParsedPrintable(p: int, c: Cst, next: Option<Token>, s: Storage)
    requires BoundSpine(p, c, next)
    ensures Printable(NodeOf(c, s))
    decreases c, 0
  {
    hide Fits, PrefixForm, InfixForm, PrefixNode, InfixNode, Printable, Pieces, KindPrecedence, BodyStorage;
    match c
    case Prefix(head, ps) =>
      PiecesPrintable(PrefixForm(head).value, ps, next, BodyStorage(head, s));
      PrefixPrintable(head, ps, next, s);
    case Infix(left, op, ps) =>
      ParsedPrintable(p, left, Some(op), s);
      PiecesPrintable(InfixForm(op).value, ps, next, s);
      InfixPrintable(NodeOf(left, s), op, ps, next, s);
  }

  lemma PrintableCons(p: Piece, ps: seq<Piece>)
    requires AllPrintable(NodesIn(p)) && AllPrintable(Nodes(ps))
    ensures AllPrintable(Nodes([p] + ps))
  {
    hide Printable, NodesIn;
    NodesCons(p, ps);
  }

  lemma {:induction false} PiecesPrintable(items: seq<Item>, ps: seq<Part>, next: Option<Token>, s: Storage)
    requires Fits(items, ps, next)
    ensures AllPrintable(Nodes(Pieces(ps, s)))
    decreases ps, 1
  {
    hide FitsOne, PieceOf, Printable, Nodes, FlattenAll, AllPrintable;
    if items == [] {
      NoneArePrintable();
    } else {
      PiecePrintable(items[0], ps[0], Ahead(FlattenAll(ps[1..]), next), s);
      PiecesPrintable(items[1..], ps[1..], next, s);
      PrintableCons(PieceOf(ps[0], s), Pieces(ps[1..], s));
    }
  }

  lemma NoneArePrintable()
    ensures AllPrintable(Nodes([]))
  {
  }

  lemma {:induction false} PiecePrintable(i: Item, p: Part, next: Option<Token>, s: Storage)
    requires FitsOne(i, p, next)
    ensures AllPrintable(NodesIn(PieceOf(p, s)))
    decreases p, 2
  {
    hide Fits, FitsWhile, FitsUntil, FitsSep, BoundSpine, NodeOf, Printable, Pieces, Nodes, FlattenAll;
    NoneArePrintable();
    match i
    case SubExpr(q) => ParsedPrintable(q, p.e, next, s);
    case TypeRef => HeadPrintable(TYPE_TAIL, p.ps, next, s);
    case Either(k, yes, no) => if p.Taken? { HeadPrintable(yes, p.ps, next, s); } else { PiecesPrintable(no, p.ps, next, s); }
    case While(k, body) => WhilePrintable(k, body, p.ps, next, s);
    case Until(k) => UntilPrintable(k, p.ps, next, s);
    case Sep(close, body) => SepPrintable(close, body, p.ps, next, s);
    case _ =>
  }

  lemma {:induction false} HeadPrintable(items: seq<Item>, ps: seq<Part>, next: Option<Token>, s: Storage)
    requires ps != [] && ps[0].Leaf? && Fits(items, ps[1..], next)
    ensures AllPrintable(Nodes(Pieces(ps, s)))
    decreases ps, 1, 0
  {
    hide Fits, Printable, Nodes;
    PiecesPrintable(items, ps[1..], next, s);
    NoneArePrintable();
    PrintableCons(PieceOf(ps[0], s), Pieces(ps[1..], s));
  }

  lemma {:induction false} WhilePrintable(k: Kind, body: seq<Item>, ps: seq<Part>, next: Option<Token>, s: Storage)
    requires FitsWhile(k, body, ps, next)
    ensures AllPrintable(Nodes(Pieces(ps, s)))
    decreases ps, 0
  {
    hide Fits, Printable, Nodes, PieceOf, FlattenAll;
    if ps == [] {
      NoneArePrintable();
    } else {
      RoundPrintable(body, ps[0], Ahead(FlattenAll(ps[1..]), next), s);
      WhilePrintable(k, body, ps[1..], next, s);
      PrintableCons(PieceOf(ps[0], s), Pieces(ps[1..], s));
    }
  }

  lemma {:induction false} RoundPrintable(body: seq<Item>, p: Part, next: Option<Token>, s: Storage)
    requires p.Rep? && p.ps != [] && p.ps[0].Leaf? && Fits(body, p.ps[1..], next)
    ensures AllPrintable(NodesIn(PieceOf(p, s)))
    decreases p, 2
  {
    hide Fits, Printable, Nodes, Pieces;
    HeadPrintable(body, p.ps, next, s);
  }

  lemma WordPrintable(k: Kind, s: Storage)
    ensures AllPrintable(NodesIn(PieceOf(Leaf(Sym(k)), s)))
  {
  }

  lemma {:induction false} UntilPrintable(k: Kind, ps: seq<Part>, next: Option<Token>, s: Storage)
    requires FitsUntil(k, ps, next)
    ensures AllPrintable(Nodes(Pieces(ps, s)))
    decreases ps, 0
  {
    hide FitsOne, Printable, Nodes, FlattenAll, FlattenPart, AllPrintable, PieceOf;
    NoneArePrintable();
    if ps[0] == Leaf(Sym(k)) {
      assert ps[1..] == [];
      WordPrintable(k, s);
    } else {
      PiecePrintable(EXPR, ps[0], Ahead(FlattenAll(ps[1..]), next), s);
      UntilPrintable(k, ps[1..], next, s);
    }
    PrintableCons(PieceOf(ps[0], s), Pieces(ps[1..], s));
  }

  lemma {:induction false} SepPrintable(close: Kind, body: seq<Item>, ps: seq<Part>, next: Option<Token>, s: Storage)
    requires FitsSep(close, body, ps, next)
    ensures AllPrintable(Nodes(Pieces(ps, s)))
    decreases ps, 0
  {
    hide FitsMember, Printable, Nodes, FlattenAll;
    NoneArePrintable();
    MemberPrintable(body, ps[0], Ahead(FlattenAll(ps[1..]), next), s);
    if |ps| > 2 { SepPrintable(close, body, ps[2..], next, s); } else { assert ps[2..] == []; }
    assert ps[1..][1..] == ps[2..];
    PrintableCons(PieceOf(ps[1], s), Pieces(ps[2..], s));
    PrintableCons(PieceOf(ps[0], s), Pieces(ps[1..], s));
  }

  lemma {:induction false} MemberPrintable(body: seq<Item>, p: Part, next: Option<Token>, s: Storage)
    requires FitsMember(body, p, next)
    ensures AllPrintable(NodesIn(PieceOf(p, s)))
    decreases p, 2
  {
    hide Fits, Printable, Nodes, Pieces;
    PiecesPrintable(body, p.ps, next, s);
  }

  // ----- one form at a time -----

  lemma FoundAt(ps: seq<Piece>, i: nat)
    requires AllPrintable(Nodes(ps)) && i < |Nodes(ps)|
    ensures Printable(NodeAt(ps, i))
  {
  }

  lemma TypeFoundAt(ps: seq<Piece>)
    requires |TypesIn(ps)| > 0
    ensures TypeOk(TypeAt(ps, 0))
  {
    TypesAreOk(ps);
  }

  lemma PrefixPrintable(head: Token, ps: seq<Part>, next: Option<Token>, s: Storage)
    requires PrefixForm(head).Some? && Fits(PrefixForm(head).value, ps, next)
    requires AllPrintable(Nodes(Pieces(ps, BodyStorage(head, s))))
    ensures Printable(PrefixNode(head, Pieces(ps, BodyStorage(head, s)), s))
  {
    hide Fits, Printable, Pieces, PrefixNode, AllPrintable;
    var t := BodyStorage(head, s);
    Found(PrefixForm(head).value, ps, next, t);
    match head
    case Sym(k) =>
      if k == KwFunc {
        FuncPrintable(ps, next, s);
      } else if k == KwNamespace {
        NamespacePrintable(ps, next, s);
      } else {
        FormPrintable(k, Pieces(ps, t), s);
      }
    case Id(name) => VariablePrintable(name, ps, next, s);
    case _ => LiteralPrintable(head, Pieces(ps, t), s);
  }

  lemma LiteralPrintable(head: Token, ps: seq<Piece>, s: Storage)
    requires !head.Sym? && !head.Id?
    ensures Printable(PrefixNode(head, ps, s))
  {
  }

  lemma Counts(k: Kind)
    requires PrefixForm(Sym(k)).Some?
    ensures var e := Exprs(PrefixForm(Sym(k)).value);
            && (k !in {OpenCurly, KwNew, KwNamespace, KwTemplate, KwExpand} ==> e >= 1)
            && (k in {OpCond, KwIf, KwWhile} ==> e >= 2) && (k == OpCond ==> e >= 3)
    ensures k in {KwCast, KwNew, KwFunc} ==> Types(PrefixForm(Sym(k)).value) >= 1
  {
    var items := PrefixForm(Sym(k)).value;
    var cond := [Lit(OpenParen), EXPR, Lit(CloseParen)];
    assert Exprs([EXPR]) == 1;
    assert Types([TypeRef]) == 1 by { assert [TypeRef][1..] == []; }
    CountsSplit([EXPR], [Lit(CloseParen)]);
    Counted(Lit(OpenParen), EXPR, Lit(CloseParen));
    match k
    case KwCast =>
      Counted(Lit(OpLt), TypeRef, Lit(OpGt));
      CountsSplit([Lit(OpLt), TypeRef, Lit(OpGt)], cond);
      assert [Lit(OpLt), TypeRef, Lit(OpGt)] + cond == items;
    case KwNew => Counted(TypeRef, Lit(OpenParen), Lit(CloseParen));
    case KwClass => Counted(Ident, TEMPLATE_PARAMETERS, EXPR);
    case OpenParen => assert [EXPR] + [Lit(CloseParen)] == items;
    case OpCond =>
      var semi := Lit(EndOfStatement);
      Counted(EXPR, semi, EXPR);
      Counted(semi, EXPR, Lit(CloseParen));
      CountsSplit([EXPR, semi, EXPR], [semi, EXPR, Lit(CloseParen)]);
      assert [EXPR, semi, EXPR] + [semi, EXPR, Lit(CloseParen)] == items;
    case KwIf =>
      var e := Either(KwElse, [EXPR], []);
      CountsSplit([EXPR], [e]);
      CountsSplit(cond, [EXPR] + [e]);
      assert cond + ([EXPR] + [e]) == items;
    case KwWhile =>
      CountsSplit(cond, [EXPR]);
      assert cond + [EXPR] == items;
    case KwFunc =>
      Counted(Ident, Lit(OpDef), TypeRef);
      Counted(Lit(OpenParen), PARAMETERS, EXPR);
      CountsSplit([Ident, Lit(OpDef), TypeRef], [Lit(OpenParen), PARAMETERS, EXPR]);
      assert [Ident, Lit(OpDef), TypeRef] + [Lit(OpenParen), PARAMETERS, EXPR] == items;
    case _ =>
  }

  lemma Counted(i: Item, j: Item, k: Item)
    ensures Exprs([i, j, k]) == Exprs([i]) + Exprs([j]) + Exprs([k]) && Types([i, j, k]) == Types([i]) + Types([j]) + Types([k])
  {
    CountsSplit([j], [k]);
    CountsSplit([i], [j] + [k]);
    assert [i] + ([j] + [k]) == [i, j, k];
  }

  lemma {:induction false} CountsSplit(a: seq<Item>, b: seq<Item>)
    ensures Exprs(a + b) == Exprs(a) + Exprs(b) && Types(a + b) == Types(a) + Types(b)
    decreases a
  {
    if a == [] {
      assert a + b == b;
    } else {
      assert (a + b)[1..] == a[1..] + b;
      CountsSplit(a[1..], b);
    }
  }

  /** Forms whose node takes only finished nodes and types from the pieces. */
  lemma FormPrintable(k: Kind, ps: seq<Piece>, s: Storage)
    requires PrefixForm(Sym(k)).Some? && k != KwFunc && k != KwNamespace && AllPrintable(Nodes(ps))
    requires |Nodes(ps)| >= Exprs(PrefixForm(Sym(k)).value) && |TypesIn(ps)| >= Types(PrefixForm(Sym(k)).value)
    ensures Printable(PrefixNode(Sym(k), ps, s))
  {
    hide PrefixNode, Nodes, TypesIn, Exprs, Types, AllPrintable, Printable;
    Counts(k);
    if k in {OpenCurly, KwTemplate, KwExpand} {
      ListPrintable(k, ps, s);
    } else if k in {KwCast, KwNew, KwClass} {
      TypedPrintable(k, ps, s);
    } else {
      ControlPrintable(k, ps, s);
    }
  }

  lemma ListPrintable(k: Kind, ps: seq<Piece>, s: Storage)
    requires k in {OpenCurly, KwTemplate, KwExpand} && AllPrintable(Nodes(ps))
    ensures Printable(PrefixNode(Sym(k), ps, s))
  {
    hide Nodes, TypesIn, TypeOk, Ids, IdsIn, AllPrintable;
    TypesAreOk(ps);
    AllAre(Nodes(ps));
  }

  lemma TypedPrintable(k: Kind, ps: seq<Piece>, s: Storage)
    requires k in {KwCast, KwNew, KwClass} && AllPrintable(Nodes(ps))
    requires (k != KwNew ==> |Nodes(ps)| > 0) && (k != KwClass ==> |TypesIn(ps)| > 0)
    ensures Printable(PrefixNode(Sym(k), ps, s))
  {
    hide Nodes, NodeAt, TypesIn, TypeAt, TypeOk, IdsIn, ClassBody, AllPrintable;
    if k != KwClass { TypeFoundAt(ps); }
    if k != KwNew { FoundAt(ps, 0); }
    if k == KwClass { ClassBodyPrintable(NodeAt(ps, 0)); }
  }

  lemma ControlPrintable(k: Kind, ps: seq<Piece>, s: Storage)
    requires k in {OpNot, OpInc, OpDec, OpenParen, OpCond, KwIf, KwWhile, KwAssert} && AllPrintable(Nodes(ps)) && |Nodes(ps)| > 0
    requires (k in {OpCond, KwIf, KwWhile} ==> |Nodes(ps)| > 1) && (k == OpCond ==> |Nodes(ps)| > 2)
    ensures Printable(PrefixNode(Sym(k), ps, s))
  {
    hide Nodes, NodeAt, AllPrintable, PrefixNode;
    FoundAt(ps, 0);
    if |Nodes(ps)| > 1 { FoundAt(ps, 1); }
    if |Nodes(ps)| > 2 { FoundAt(ps, 2); }
    ControlNode(k, ps, s);
  }

  lemma ControlNode(k: Kind, ps: seq<Piece>, s: Storage)
    requires k in {OpNot, OpInc, OpDec, OpenParen, OpCond, KwIf, KwWhile, KwAssert}
    ensures PrefixNode(Sym(k), ps, s) ==
      if k == OpenParen then NodeAt(ps, 0)
      else if k == OpCond then IfExpr(NodeAt(ps, 0), NodeAt(ps, 1), Some(NodeAt(ps, 2)))
      else if k == KwIf then IfExpr(NodeAt(ps, 0), NodeAt(ps, 1), if |Nodes(ps)| > 2 then Some(NodeAt(ps, 2)) else None)
      else if k == KwWhile then WhileExpr(NodeAt(ps, 0), NodeAt(ps, 1))
      else if k == KwAssert then AssertExpr(NodeAt(ps, 0))
      else UnaryExpr(k, NodeAt(ps, 0))
  {
    hide Nodes, NodeAt;
  }

  lemma AllAre(ns: seq<Node>)
    requires AllPrintable(ns)
    ensures forall i | 0 <= i < |ns| :: Printable(ns[i])
  {
    hide Printable;
  }

  lemma ClassBodyPrintable(n: Node)
    requires Printable(n)
    ensures Printable(ClassBody(n)) && ClassBody(n).CompoundExpr?
  {
  }

  lemma NameFound(p: Part, next: Option<Token>)
    requires FitsOne(Ident, p, next)
    ensures p.Leaf? && p.t.Id?
  {
  }

  lemma NamespacePrintable(ps: seq<Part>, next: Option<Token>, s: Storage)
    requires Fits(PrefixForm(Sym(KwNamespace)).value, ps, next) && AllPrintable(Nodes(Pieces(ps, s)))
    ensures Printable(PrefixNode(Sym(KwNamespace), Pieces(ps, s), s))
  {
    hide Fits, Nodes, FitsOne, FlattenAll, PrefixNode, AllPrintable;
    FitsAt(PrefixForm(Sym(KwNamespace)).value, ps, next, 0);
    NameFound(ps[0], Ahead(FlattenAll(ps[1..]), next));
    var qs := Pieces(ps, s);
    NamespaceNode(qs, s);
    AllAre(Nodes(qs));
    assert IdsIn(qs[0]) == [ps[0].t.name];
  }

  lemma VariablePrintable(name: string, ps: seq<Part>, next: Option<Token>, s: Storage)
    requires Fits(PrefixForm(Id(name)).value, ps, next)
    ensures Printable(PrefixNode(Id(name), Pieces(ps, s), s))
  {
    hide Fits, Nodes, TypesIn, Ids, Pieces, FlattenAll, TypeOk;
    var items := PrefixForm(Id(name)).value;
    FitsAt(items, ps, next, 0);
    FitsAt(items, ps, next, 1);
    assert ps == [ps[0], ps[1]];
    Holds2(ps[0], ps[1], s);
    if ps[1].Taken? {
      DeclaredType(ps[1], Ahead(FlattenAll(ps[2..]), next), s);
      Holds1(ps[1], s);
      assert Pieces(ps, s)[1..] == Pieces([ps[1]], s);
      TypeFoundAt(Pieces([ps[1]], s));
    }
  }

  lemma DeclaredType(p: Part, next: Option<Token>, s: Storage)
    requires FitsOne(Either(OpDef, [TypeRef], []), p, next) && p.Taken?
    ensures |TypesOf(PieceOf(p, s))| > 0
  {
    hide Fits, Nodes, FlattenAll;
    FitsAt([TypeRef], p.ps[1..], next, 0);
    var t := p.ps[1..][0];
    TypeFound(t, Ahead(FlattenAll(p.ps[1..][1..]), next), s);
    assert p.ps == [p.ps[0], t];
    Holds2(p.ps[0], t, s);
    PartHolds(p, p.ps, s);
  }

  // ----- parameters -----

  lemma {:induction false} ParametersFound(ps: seq<Part>, next: Option<Token>, s: Storage)
    requires FitsSep(CloseParen, [Ident, Lit(OpDef), TypeRef], ps, next)
    ensures ParametersOk(ParametersIn(Pieces(ps, s))) && |ps| % 2 == 0
    decreases ps
  {
    hide FitsMember, ParametersOf, FlattenAll, TypeOk, Pieces, ParametersIn, PieceOf;
    ParameterFound(ps[0], Ahead(FlattenAll(ps[1..]), next), s);
    if |ps| > 2 {
      ParametersFound(ps[2..], next, s);
    } else {
      assert ps[2..] == [];
      HoldsNone(s);
    }
    WordHolds(ps[1].t.kind, s);
    assert ps == [ps[0]] + ([ps[1]] + ps[2..]);
    HoldsCons(ps[0], [ps[1]] + ps[2..], s);
    HoldsCons(ps[1], ps[2..], s);
  }

  lemma ParameterFound(p: Part, next: Option<Token>, s: Storage)
    requires FitsMember([Ident, Lit(OpDef), TypeRef], p, next)
    ensures ParametersOk(ParametersOf(PieceOf(p, s)))
  {
    hide Fits, FlattenAll, TypesIn, TypeOk;
    var items := [Ident, Lit(OpDef), TypeRef];
    FitsAt(items, p.ps, next, 1);
    Found(items, p.ps, next, s);
    Counted(Ident, Lit(OpDef), TypeRef);
    var q := PieceOf(p, s);
    assert p.ps == [p.ps[0], p.ps[1], p.ps[2]];
    Holds3(p.ps[0], p.ps[1], p.ps[2], s);
    assert q.ps[1] == Word(Sym(OpDef));
    TypeFoundAt(q.ps);
  }

  lemma ParameterListFound(p: Part, next: Option<Token>, s: Storage)
    requires FitsOne(PARAMETERS, p, next)
    ensures ParametersOk(ParametersOf(PieceOf(p, s)))
  {
    hide Fits, FitsSep, FlattenAll, Pieces, TypeOk;
    var sep := Sep(CloseParen, [Ident, Lit(OpDef), TypeRef]);
    if p.Taken? {
      FitsLength([], p.ps[1..], next);
      assert p.ps == [Leaf(Sym(CloseParen))];
      WordHolds(CloseParen, s);
      Holds1(p.ps[0], s);
      PartHolds(p, p.ps, s);
    } else {
      FitsAt([sep], p.ps, next, 0);
      var list := p.ps[0];
      assert p.ps == [list];
      ParametersFound(list.ps, Ahead(FlattenAll(p.ps[1..]), next), s);
      PartHolds(list, list.ps, s);
      Holds1(list, s);
      PartHolds(p, p.ps, s);
    }
  }

  lemma FuncPrintable(ps: seq<Part>, next: Option<Token>, s: Storage)
    requires Fits(PrefixForm(Sym(KwFunc)).value, ps, next) && AllPrintable(Nodes(Pieces(ps, Local)))
    ensures Printable(PrefixNode(Sym(KwFunc), Pieces(ps, Local), s))
  {
    hide Fits, FitsOne, Nodes, NodeAt, TypesIn, TypeAt, TypeOk, FlattenAll, ParametersOk, AllPrintable, ParametersOf, PieceOf;
    var items := PrefixForm(Sym(KwFunc)).value;
    FitsAt(items, ps, next, 4);
    ParameterListFound(ps[4], Ahead(FlattenAll(ps[5..]), next), Local);
    Found(items, ps, next, Local);
    Counts(KwFunc);
    FoundAt(Pieces(ps, Local), 0);
    TypeFoundAt(Pieces(ps, Local));
    PiecesAt(ps, 4, Local);
  }

  lemma {:induction false} PiecesAt(ps: seq<Part>, i: nat, s: Storage)
    requires i < |ps|
    ensures Pieces(ps, s)[i] == PieceOf(ps[i], s)
    decreases i
  {
    hide PieceOf;
    if i > 0 { PiecesAt(ps[1..], i - 1, s); }
  }

  lemma InfixPrintable(left: Node, op: Token, ps: seq<Part>, next: Option<Token>, s: Storage)
    requires InfixForm(op).Some? && Fits(InfixForm(op).value, ps, next) && Printable(left)
    requires AllPrintable(Nodes(Pieces(ps, s)))
    ensures Printable(InfixNode(left, op, Pieces(ps, s)))
  {
    hide Fits, Nodes, Pieces, AllPrintable, Printable, InfixNode;
    if IsBinary(op.kind) {
      var p := RightPrecedence(op.kind);
      BinaryForm(op.kind);
      Found([SubExpr(p)], ps, next, s);
      assert Exprs([SubExpr(p)]) == 1;
      BinaryPrintable(left, op.kind, Pieces(ps, s));
    } else {
      CallPrintable(left, op, Pieces(ps, s));
    }
  }

  lemma BinaryPrintable(left: Node, op: Kind, ps: seq<Piece>)
    requires IsBinary(op) && Printable(left) && AllPrintable(Nodes(ps)) && |Nodes(ps)| > 0
    ensures Printable(InfixNode(left, Sym(op), ps))
  {
    hide Nodes, NodeAt, AllPrintable, MarkWrite;
    FoundAt(ps, 0);
    TargetPrintable(left);
  }

  lemma CallPrintable(left: Node, op: Token, ps: seq<Piece>)
    requires (op == Sym(OpDot) || op == Sym(OpenParen)) && Printable(left) && AllPrintable(Nodes(ps))
    ensures Printable(InfixNode(left, op, ps))
  {
    hide Nodes, AllPrintable;
    AllAre(Nodes(ps));
  }

  lemma TargetPrintable(n: Node)
    requires Printable(n)
    ensures IsVariable(n) ==> VariableOk(MarkWrite(n), Write)
    ensures !IsVariable(n) ==> MarkWrite(n) == n
  {
  }

  /** Parsing any text, printing what it stands for and parsing that gives the same node again, whenever
      its statements begin plainly. */
  lemma PrintedAgain(q: int, ts: seq<Token>, rest: seq<Token>, s: Storage)
    requires ParseExpr(q, ts).Ok?
    ensures var n := NodeOf(ParseExpr(q, ts).value, s);
            var c := ShowAt(q, n, First(rest));
            && Printable(n) && KindsExact(n, s) && NodeOf(c, s) == n
            && (ParseExpr(q, Flatten(c) + rest) == Ok(c, rest) <==> Plain(n) && Stops(q, First(rest)))
  {
    hide ParseExpr, Flatten, NodeOf, Printable, KindsExact, Plain, ShowAt, BoundSpine, Stops;
    var r := ParseExpr(q, ts);
    SoundExpr(q, ts);
    ParsedPrintable(q, r.value, First(r.rest), s);
    ParsedKinds(r.value, s);
    PrintThenParse(q, NodeOf(r.value, s), rest, s);
  }
}
