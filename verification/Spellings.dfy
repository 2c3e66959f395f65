/** Forms that can be spelled in two ways: both stand for the same node. */
module Spellings {
  import opened Common
  import opened Tokens
  import opened Grammar
  import opened Parens
  import opened Ast
  import opened Build
  import opened Forms
  import opened FormNodes

  const NO_ANGLES := Skipped([])
  const EMPTY_ANGLES := Taken([Leaf(Sym(OpLt)), Taken([Leaf(Sym(OpGt))])])

  function IfElse(c: Cst, t: Cst, e: Cst): Cst {
    Prefix(Sym(KwIf), [OPEN, Sub(c), SHUT, Sub(t), Taken([Leaf(Sym(KwElse)), Sub(e)])])
  }

  function Conditional(c: Cst, t: Cst, e: Cst): Cst {
    Prefix(Sym(OpCond), [Sub(c), SEMI, Sub(t), SEMI, Sub(e), SHUT])
  }

  /** `if (c) t else e` is `(? c; t; e)`. */
  lemma IfElseIsConditional(c: Cst, t: Cst, e: Cst, s: Storage)
    ensures NodeOf(IfElse(c, t, e), s) == NodeOf(Conditional(c, t, e), s)
         == IfExpr(NodeOf(c, s), NodeOf(t, s), Some(NodeOf(e, s)))
  {
    hide NodeOf, PrefixNode, InPiece, PieceOf, Pieces;
    var els := Taken([Leaf(Sym(KwElse)), Sub(e)]);
    ConditionalIs(c, t, e, s);
    ConditionHolds(c, s);
    ConditionHolds(t, s);
    ConditionHolds(e, s);
    WordHolds(KwElse, s);
    Holds2(Leaf(Sym(KwElse)), Sub(e), s);
    PartHolds(els, els.ps, s);
    Holds2(Sub(t), els, s);
    HoldsFront(OPEN, Sub(c), SHUT, [Sub(t), els], s);
    var ps := [OPEN, Sub(c), SHUT] + [Sub(t), els];
    assert ps == IfElse(c, t, e).ps;
    PrefixNodes(Sym(KwIf), ps, s);
    IfNode(Pieces(ps, s), s);
  }

  lemma IfNode(ps: seq<Piece>, s: Storage)
    requires |Nodes(ps)| == 3
    ensures PrefixNode(Sym(KwIf), ps, s) == IfExpr(Nodes(ps)[0], Nodes(ps)[1], Some(Nodes(ps)[2])) && BodyStorage(Sym(KwIf), s) == s
  {
    hide Nodes;
  }

  /** A body without braces. */
  lemma AloneHolds(e: Cst, s: Storage)
    ensures var h := InPiece(PieceOf(Skipped([Sub(e)]), s)); h.nodes == [NodeOf(e, s)] && h.ids == []
  {
    hide NodeOf, InPiece, PieceOf, Pieces;
    SubHolds(e, s);
    Holds1(Sub(e), s);
    PartHolds(Skipped([Sub(e)]), [Sub(e)], s);
  }

  lemma OneStatement(e: Cst, s: Storage)
    ensures NodesOf([e], s) == [NodeOf(e, s)]
  {
    hide NodeOf;
    assert [e][1..] == [];
  }

  /** `namespace A e` is `namespace A { e }`. */
  lemma NamespaceBodies(name: seq<string>, e: Cst, s: Storage)
    requires name != []
    ensures NodeOf(Prefix(Sym(KwNamespace), [Leaf(Id(Head(name))), Qualified(name), Skipped([Sub(e)])]), s)
         == NodeOf(Prefix(Sym(KwNamespace), [Leaf(Id(Head(name))), Qualified(name), Block([e])]), s)
  {
    hide NodeOf, PrefixNode, InPiece, PieceOf, Pieces, Block, NodesOf, Rest;
    NamespaceIs(name, [e], s);
    OneStatement(e, s);
    var ps := [Leaf(Id(name[0])), Qualified(name), Skipped([Sub(e)])];
    NameHolds(name[0], s);
    NamesHold(name, s);
    AloneHolds(e, s);
    Holds3(ps[0], ps[1], ps[2], s);
    PrefixNodes(Sym(KwNamespace), ps, s);
    NamespaceNode(Pieces(ps, s), s);
    WholeName(name);
  }

  lemma EmptyAnglesHold(s: Storage)
    ensures InPiece(PieceOf(EMPTY_ANGLES, s)) == EMPTY
  {
    hide InPiece, PieceOf, Pieces;
    var close := Taken([Leaf(Sym(OpGt))]);
    WordHolds(OpLt, s);
    WordHolds(OpGt, s);
    Holds1(Leaf(Sym(OpGt)), s);
    PartHolds(close, close.ps, s);
    Holds2(Leaf(Sym(OpLt)), close, s);
    PartHolds(EMPTY_ANGLES, EMPTY_ANGLES.ps, s);
  }

  /** `template A<> e`, `template A e`, and both with braces, are the same template. */
  lemma TemplateBodies(id: string, e: Cst, s: Storage)
    ensures var body, block := Skipped([Sub(e)]), Block([e]);
            var n := NamedTemplate(id, [], [NodeOf(e, s)]);
            && NodeOf(Prefix(Sym(KwTemplate), [Leaf(Id(id)), EMPTY_ANGLES, body]), s) == n
            && NodeOf(Prefix(Sym(KwTemplate), [Leaf(Id(id)), NO_ANGLES, body]), s) == n
            && NodeOf(Prefix(Sym(KwTemplate), [Leaf(Id(id)), EMPTY_ANGLES, block]), s) == n
            && NodeOf(Prefix(Sym(KwTemplate), [Leaf(Id(id)), NO_ANGLES, block]), s) == n
  {
    hide NodeOf, PrefixNode, InPiece, PieceOf, Pieces, Block, NodesOf;
    EmptyAnglesHold(s);
    NoAnglesHold(s);
    AloneHolds(e, s);
    BlockHolds([e], s);
    OneStatement(e, s);
    TemplateParts(id, EMPTY_ANGLES, Skipped([Sub(e)]), e, s);
    TemplateParts(id, NO_ANGLES, Skipped([Sub(e)]), e, s);
    TemplateParts(id, EMPTY_ANGLES, Block([e]), e, s);
    TemplateParts(id, NO_ANGLES, Block([e]), e, s);
  }

  lemma NoAnglesHold(s: Storage)
    ensures InPiece(PieceOf(NO_ANGLES, s)) == EMPTY
  {
    hide InPiece, PieceOf, Pieces;
    HoldsNone(s);
    PartHolds(NO_ANGLES, [], s);
  }

  lemma TemplateParts(id: string, angles: Part, body: Part, e: Cst, s: Storage)
    requires InPiece(PieceOf(angles, s)) == EMPTY && InPiece(PieceOf(body, s)).nodes == [NodeOf(e, s)]
    ensures NodeOf(Prefix(Sym(KwTemplate), [Leaf(Id(id)), angles, body]), s) == NamedTemplate(id, [], [NodeOf(e, s)])
  {
    hide NodeOf, PrefixNode, InPiece, Pieces;
    var ps := [Leaf(Id(id)), angles, body];
    NameHolds(id, s);
    Holds3(ps[0], ps[1], ps[2], s);
    PrefixNodes(Sym(KwTemplate), ps, s);
    TemplateNode(id, Pieces(ps, s), s);
    PieceHolds(PieceOf(angles, s));
  }

  /** `class A<> e` is `class A e`, and a body that is no block is a block of one. */
  lemma ClassBodies(id: string, e: Cst, s: Storage)
    ensures NodeOf(Prefix(Sym(KwClass), [Leaf(Id(id)), EMPTY_ANGLES, Sub(e)]), s)
         == NodeOf(Prefix(Sym(KwClass), [Leaf(Id(id)), NO_ANGLES, Sub(e)]), s)
    ensures !NodeOf(e, Instance).CompoundExpr? ==>
      NodeOf(Prefix(Sym(KwClass), [Leaf(Id(id)), NO_ANGLES, Sub(e)]), s)
      == NodeOf(Prefix(Sym(KwClass), [Leaf(Id(id)), NO_ANGLES, Sub(Prefix(Sym(OpenCurly), [Rep(Statements([e]))]))]), s)
  {
    hide NodeOf, PrefixNode, InPiece, PieceOf, Pieces, Statements, NodesOf;
    var block := Prefix(Sym(OpenCurly), [Rep(Statements([e]))]);
    EmptyAnglesHold(Instance);
    NoAnglesHold(Instance);
    ClassParts(id, EMPTY_ANGLES, e, s);
    ClassParts(id, NO_ANGLES, e, s);
    ClassParts(id, NO_ANGLES, block, s);
    CompoundIs([e], Instance);
    OneStatement(e, Instance);
  }

  lemma ClassParts(id: string, angles: Part, e: Cst, s: Storage)
    requires InPiece(PieceOf(angles, Instance)) == EMPTY
    ensures NodeOf(Prefix(Sym(KwClass), [Leaf(Id(id)), angles, Sub(e)]), s) == ClassDef(id, ClassBody(NodeOf(e, Instance)))
  {
    hide NodeOf, Nodes, Ids, TypesIn, ParametersIn, Pieces, ClassBody;
    var ps := [Leaf(Id(id)), angles, Sub(e)];
    NameHolds(id, Instance);
    SubHolds(e, Instance);
    Holds3(ps[0], ps[1], ps[2], Instance);
    PrefixNodes(Sym(KwClass), ps, s);
  }
}
