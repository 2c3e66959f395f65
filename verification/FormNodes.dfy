/** The written form stands for the node it was made from. */
module FormNodes {
  import opened Common
  import opened Tokens
  import opened Grammar
  import opened Parens
  import opened Ast
  import opened Build
  import opened Forms

  // ----- what a list of parts holds -----

  /** The nodes, names, types and parameters of the parts `ps`. */
  datatype Holding = Holding(nodes: seq<Node>, ids: seq<string>, types: seq<TypeName>, parameters: seq<Parameter>)

  const EMPTY := Holding([], [], [], [])

  function Plus(a: Holding, b: Holding): Holding {
    Holding(a.nodes + b.nodes, a.ids + b.ids, a.types + b.types, a.parameters + b.parameters)
  }

  function InPieces(ps: seq<Piece>): Holding {
    Holding(Nodes(ps), Ids(ps), TypesIn(ps), ParametersIn(ps))
  }

  function InPiece(p: Piece): Holding {
    Holding(NodesIn(p), IdsIn(p), TypesOf(p), ParametersOf(p))
  }

  function Holds(ps: seq<Part>, s: Storage): Holding {
    InPieces(Pieces(ps, s))
  }

  lemma HoldsNone(s: Storage)
    ensures Pieces([], s) == [] && Holds([], s) == EMPTY
  {
  }

  lemma HoldsCons(p: Part, ps: seq<Part>, s: Storage)
    ensures Pieces([p] + ps, s) == [PieceOf(p, s)] + Pieces(ps, s)
    ensures Holds([p] + ps, s) == Plus(InPiece(PieceOf(p, s)), Holds(ps, s))
  {
    hide PieceOf, NodesIn, IdsIn, TypesOf, ParametersOf;
    assert ([p] + ps)[1..] == ps;
    var qs := Pieces([p] + ps, s);
    assert qs[1..] == Pieces(ps, s);
  }

  lemma Holds1(p: Part, s: Storage)
    ensures Pieces([p], s) == [PieceOf(p, s)]
    ensures Holds([p], s) == InPiece(PieceOf(p, s))
  {
    hide PieceOf, InPiece;
    HoldsNone(s);
    HoldsCons(p, [], s);
    assert [p] + [] == [p] && [PieceOf(p, s)] + [] == [PieceOf(p, s)];
  }

  lemma Holds2(p: Part, q: Part, s: Storage)
    ensures Pieces([p, q], s) == [PieceOf(p, s), PieceOf(q, s)]
    ensures Holds([p, q], s) == Plus(InPiece(PieceOf(p, s)), InPiece(PieceOf(q, s)))
  {
    hide PieceOf, InPiece, Holds;
    Holds1(q, s);
    HoldsCons(p, [q], s);
    assert [p] + [q] == [p, q];
  }

  lemma Holds3(p: Part, q: Part, r: Part, s: Storage)
    ensures Pieces([p, q, r], s) == [PieceOf(p, s), PieceOf(q, s), PieceOf(r, s)]
    ensures Holds([p, q, r], s) == Plus(InPiece(PieceOf(p, s)), Plus(InPiece(PieceOf(q, s)), InPiece(PieceOf(r, s))))
  {
    hide PieceOf, InPiece, Holds, Plus;
    Holds2(q, r, s);
    HoldsCons(p, [q, r], s);
    assert [p] + [q, r] == [p, q, r];
  }

  lemma HoldsFront(p: Part, q: Part, r: Part, ps: seq<Part>, s: Storage)
    ensures Pieces([p, q, r] + ps, s) == [PieceOf(p, s), PieceOf(q, s), PieceOf(r, s)] + Pieces(ps, s)
    ensures Holds([p, q, r] + ps, s) == Plus(InPiece(PieceOf(p, s)), Plus(InPiece(PieceOf(q, s)), Plus(InPiece(PieceOf(r, s)), Holds(ps, s))))
  {
    hide PieceOf, InPiece, Holds, Plus, Pieces;
    var rs := [r] + ps;
    var qs := [q] + rs;
    HoldsCons(r, ps, s);
    HoldsCons(q, rs, s);
    HoldsCons(p, qs, s);
    assert [p] + qs == [p, q, r] + ps;
  }

  // ----- what one part holds -----

  lemma WordHolds(k: Kind, s: Storage)
    ensures InPiece(PieceOf(Leaf(Sym(k)), s)) == EMPTY
  {
  }

  lemma NameHolds(id: string, s: Storage)
    ensures InPiece(PieceOf(Leaf(Id(id)), s)) == Holding([], [id], [], [])
  {
  }

  lemma SubHolds(c: Cst, s: Storage)
    ensures InPiece(PieceOf(Sub(c), s)) == Holding([NodeOf(c, s)], [], [], [])
  {
    hide NodeOf;
  }

  /** A part that is neither a type reference nor a parameter holds what its parts hold. */
  lemma PartHolds(p: Part, ps: seq<Part>, s: Storage)
    requires p == Taken(ps) || p == Skipped(ps) || p == Rep(ps)
    requires |ps| != 3
    ensures InPiece(PieceOf(p, s)) == Holds(ps, s)
  {
  }

  lemma {:induction false} QualifiedHolds(name: seq<string>, s: Storage)
    ensures Holds(QualifiedParts(name), s) == Holding([], name, [], [])
  {
    hide Holds, InPiece, PieceOf;
    if name == [] {
      HoldsNone(s);
    } else {
      var round := [Leaf(Sym(OpNamespace)), Leaf(Id(name[0]))];
      WordHolds(OpNamespace, s);
      NameHolds(name[0], s);
      Holds2(round[0], round[1], s);
      PartHolds(Rep(round), round, s);
      QualifiedHolds(name[1..], s);
      HoldsCons(Rep(round), QualifiedParts(name[1..]), s);
    }
  }

  lemma NamesHold(name: seq<string>, s: Storage)
    ensures InPiece(PieceOf(Qualified(name), s)) == Holding([], Rest(name), [], []) && !PieceOf(Qualified(name), s).Word?
  {
    QualifiedHolds(Rest(name), s);
    var ps := QualifiedParts(Rest(name));
    if |ps| == 3 {
      Holds3(ps[0], ps[1], ps[2], s);
      assert ps == [ps[0], ps[1], ps[2]];
      QualifiedRounds(Rest(name));
    } else {
      PartHolds(Rep(ps), ps, s);
    }
  }

  lemma {:induction false} QualifiedRounds(name: seq<string>)
    ensures forall i | 0 <= i < |QualifiedParts(name)| :: QualifiedParts(name)[i].Rep?
  {
    if name != [] { QualifiedRounds(name[1..]); }
  }

  lemma {:induction false} SeparatedHolds(close: Kind, members: seq<Part>, s: Storage)
    ensures Holds(Separated(close, members), s) == Holds(members, s) && |Separated(close, members)| == 2 * |members|
  {
    hide Holds, InPiece, PieceOf;
    if members != [] {
      var k := if |members| == 1 then close else Comma;
      var more := Separated(close, members[1..]);
      SeparatedHolds(close, members[1..], s);
      WordHolds(k, s);
      HoldsCons(Leaf(Sym(k)), more, s);
      HoldsCons(members[0], [Leaf(Sym(k))] + more, s);
      HoldsCons(members[0], members[1..], s);
      assert [members[0]] + members[1..] == members;
      assert [members[0]] + ([Leaf(Sym(k))] + more) == Separated(close, members);
    }
  }

  lemma SeparatedPart(close: Kind, members: seq<Part>, s: Storage)
    ensures InPiece(PieceOf(Rep(Separated(close, members)), s)) == Holds(members, s)
  {
    hide Holds, InPiece, PieceOf;
    SeparatedHolds(close, members, s);
    PartHolds(Rep(Separated(close, members)), Separated(close, members), s);
  }

  lemma ListingHolds(close: Kind, members: seq<Part>, s: Storage)
    ensures InPiece(PieceOf(Listing(close, members), s)) == Holds(members, s)
  {
    hide Holds, InPiece, PieceOf, Separated;
    HoldsNone(s);
    if members == [] {
      WordHolds(close, s);
      Holds1(Leaf(Sym(close)), s);
      PartHolds(Taken([Leaf(Sym(close))]), [Leaf(Sym(close))], s);
    } else {
      var list := Rep(Separated(close, members));
      SeparatedPart(close, members, s);
      Holds1(list, s);
      PartHolds(Skipped([list]), [list], s);
    }
  }

  lemma AngledHolds(members: seq<Part>, s: Storage)
    ensures InPiece(PieceOf(Angled(members), s)) == Holds(members, s)
  {
    hide Holds, InPiece, PieceOf, Separated;
    HoldsNone(s);
    if members == [] {
      PartHolds(Skipped([]), [], s);
    } else {
      var list := Skipped([Rep(Separated(OpGt, members))]);
      ListingHolds(OpGt, members, s);
      WordHolds(OpLt, s);
      Holds2(Leaf(Sym(OpLt)), list, s);
      PartHolds(Angled(members), [Leaf(Sym(OpLt)), list], s);
    }
  }

  // ----- types -----

  /** The type arguments of `ty`, as a part. */
  function ArgumentsOf(ty: TypeName): Part {
    if ty.args == [] then Skipped([]) else Taken([Leaf(Sym(OpLt)), Rep(Separated(OpGt, TypeMembers(ty.args)))])
  }

  lemma ArgumentsHold(ty: TypeName, s: Storage)
    ensures InPiece(PieceOf(ArgumentsOf(ty), s)) == Holds(TypeMembers(ty.args), s)
  {
    hide Holds, InPiece, PieceOf, Separated;
    HoldsNone(s);
    if ty.args == [] {
      PartHolds(Skipped([]), [], s);
    } else {
      var list := Rep(Separated(OpGt, TypeMembers(ty.args)));
      SeparatedPart(OpGt, TypeMembers(ty.args), s);
      WordHolds(OpLt, s);
      Holds2(Leaf(Sym(OpLt)), list, s);
      PartHolds(ArgumentsOf(ty), [Leaf(Sym(OpLt)), list], s);
    }
  }

  predicate IsOneType(h: Holding, ty: TypeName) {
    h.nodes == [] && h.types == [ty]
  }

  lemma {:induction false} TypeHolds(ty: TypeName, s: Storage)
    requires TypeOk(ty)
    ensures IsOneType(InPiece(PieceOf(TypeForm(ty), s)), ty)
    decreases ty, 1
  {
    hide Holds, InPiece, PieceOf, Separated, TypeMembers, QualifiedParts;
    var ps := [Leaf(Id(Head(ty.name))), Qualified(ty.name), ArgumentsOf(ty)];
    NameHolds(Head(ty.name), s);
    NamesHold(ty.name, s);
    ArgumentsHold(ty, s);
    TypeMembersHold(ty, s);
    Holds3(ps[0], ps[1], ps[2], s);
    TypePiece(ty, ps, s);
    assert [Head(ty.name)] + Rest(ty.name) == ty.name;
  }

  lemma TypePiece(ty: TypeName, ps: seq<Part>, s: Storage)
    requires |ps| == 3 && ps[0].Leaf? && ps[0].t.Id? && Pieces(ps, s) == [PieceOf(ps[0], s), PieceOf(ps[1], s), PieceOf(ps[2], s)]
    requires !PieceOf(ps[1], s).Word?
    ensures InPiece(PieceOf(Rep(ps), s)).nodes == Holds(ps, s).nodes
    ensures InPiece(PieceOf(Rep(ps), s)).types == [TypeName([ps[0].t.name] + InPiece(PieceOf(ps[1], s)).ids, InPiece(PieceOf(ps[2], s)).types)]
  {
  }

  lemma {:induction false} TypeMembersHold(ty: TypeName, s: Storage)
    requires TypeOk(ty)
    ensures var h := Holds(TypeMembers(ty.args), s); h.nodes == [] && h.types == ty.args
    decreases ty, 0
  {
    hide Holds, InPiece, PieceOf, TypeForm;
    forall i | 0 <= i < |ty.args| ensures IsOneType(InPiece(PieceOf(TypeForm(ty.args[i]), s)), ty.args[i]) { TypeHolds(ty.args[i], s); }
    TypeListHolds(ty.args, s);
  }

  lemma {:induction false} TypeListHolds(tys: seq<TypeName>, s: Storage)
    requires forall i | 0 <= i < |tys| :: IsOneType(InPiece(PieceOf(TypeForm(tys[i]), s)), tys[i])
    ensures var h := Holds(TypeMembers(tys), s); h.nodes == [] && h.types == tys
  {
    hide Holds, InPiece, PieceOf, TypeForm;
    if tys == [] {
      HoldsNone(s);
    } else {
      var m := [TypeForm(tys[0])];
      Holds1(m[0], s);
      PartHolds(Rep(m), m, s);
      TypeListHolds(tys[1..], s);
      HoldsCons(Rep(m), TypeMembers(tys[1..]), s);
    }
  }

  lemma TypesHold(tys: seq<TypeName>, s: Storage)
    requires TypesOk(tys)
    ensures var h := Holds(TypeMembers(tys), s); h.nodes == [] && h.types == tys
  {
    hide Holds, InPiece, PieceOf, TypeForm, TypeOk;
    forall i | 0 <= i < |tys| ensures IsOneType(InPiece(PieceOf(TypeForm(tys[i]), s)), tys[i]) { TypeHolds(tys[i], s); }
    TypeListHolds(tys, s);
  }

  // ----- names, parameters, expressions -----

  lemma {:induction false} NameListHolds(names: seq<string>, s: Storage)
    ensures Holds(NameMembers(names), s) == Holding([], names, [], [])
  {
    hide Holds, InPiece, PieceOf;
    if names == [] {
      HoldsNone(s);
    } else {
      var m := [Leaf(Id(names[0]))];
      NameHolds(names[0], s);
      Holds1(m[0], s);
      PartHolds(Rep(m), m, s);
      NameListHolds(names[1..], s);
      HoldsCons(Rep(m), NameMembers(names[1..]), s);
    }
  }

  lemma ParameterHolds(p: Parameter, s: Storage)
    requires TypeOk(p.ty)
    ensures HoldsParameters(InPiece(PieceOf(Rep([Leaf(Id(p.name)), COLON, TypeForm(p.ty)]), s)), [p])
  {
    hide Holds, TypeForm;
    var ps := [Leaf(Id(p.name)), COLON, TypeForm(p.ty)];
    NameHolds(p.name, s);
    WordHolds(OpDef, s);
    TypeHolds(p.ty, s);
    Holds3(ps[0], ps[1], ps[2], s);
    ParameterPiece(p.name, ps, s);
  }

  lemma ParameterPiece(name: string, ps: seq<Part>, s: Storage)
    requires |ps| == 3 && ps[0] == Leaf(Id(name)) && ps[1] == COLON && Pieces(ps, s) == [PieceOf(ps[0], s), PieceOf(ps[1], s), PieceOf(ps[2], s)]
    requires |Holds(ps, s).types| == 1
    ensures InPiece(PieceOf(Rep(ps), s)).nodes == Holds(ps, s).nodes
    ensures InPiece(PieceOf(Rep(ps), s)).parameters == [Parameter(name, Holds(ps, s).types[0])]
  {
  }

  predicate HoldsParameters(h: Holding, ps: seq<Parameter>) {
    h.nodes == [] && h.parameters == ps
  }

  lemma NoParameters()
    ensures HoldsParameters(EMPTY, [])
  {
  }

  lemma PlusParameters(a: Holding, b: Holding, ps: seq<Parameter>, qs: seq<Parameter>)
    requires HoldsParameters(a, ps) && HoldsParameters(b, qs)
    ensures HoldsParameters(Plus(a, b), ps + qs)
  {
  }

  lemma {:induction false} ParameterListHolds(ps: seq<Parameter>, s: Storage)
    requires ParametersOk(ps)
    ensures HoldsParameters(Holds(ParameterMembers(ps), s), ps)
    decreases ps
  {
    hide Holds, InPiece, PieceOf, TypeForm, TypeOk, Pieces, Plus, HoldsParameters;
    if ps == [] {
      HoldsNone(s);
      NoParameters();
    } else {
      var m := Rep([Leaf(Id(ps[0].name)), COLON, TypeForm(ps[0].ty)]);
      var more := ParameterMembers(ps[1..]);
      ParameterHolds(ps[0], s);
      ParameterListHolds(ps[1..], s);
      HoldsCons(m, more, s);
      PlusParameters(InPiece(PieceOf(m, s)), Holds(more, s), [ps[0]], ps[1..]);
      assert [ps[0]] + ps[1..] == ps;
    }
  }

  function NodesOf(cs: seq<Cst>, s: Storage): (ns: seq<Node>)
    ensures |ns| == |cs|
  {
    if cs == [] then [] else [NodeOf(cs[0], s)] + NodesOf(cs[1..], s)
  }

  lemma {:induction false} MembersHold(cs: seq<Cst>, s: Storage)
    ensures Holds(Members(cs), s) == Holding(NodesOf(cs, s), [], [], [])
  {
    hide Holds, InPiece, PieceOf, NodeOf;
    if cs == [] {
      HoldsNone(s);
    } else {
      var m := [Sub(cs[0])];
      SubHolds(cs[0], s);
      Holds1(m[0], s);
      PartHolds(Rep(m), m, s);
      MembersHold(cs[1..], s);
      HoldsCons(Rep(m), Members(cs[1..]), s);
    }
  }

  lemma {:induction false} StatementsHold(cs: seq<Cst>, s: Storage)
    ensures Holds(Statements(cs), s) == Holding(NodesOf(cs, s), [], [], [])
  {
    hide Holds, InPiece, PieceOf, NodeOf;
    if cs == [] {
      WordHolds(CloseCurly, s);
      Holds1(Leaf(Sym(CloseCurly)), s);
    } else {
      SubHolds(cs[0], s);
      StatementsHold(cs[1..], s);
      HoldsCons(Sub(cs[0]), Statements(cs[1..]), s);
    }
  }

  lemma StatementsPart(cs: seq<Cst>, s: Storage)
    ensures var h := InPiece(PieceOf(Rep(Statements(cs)), s)); h.nodes == NodesOf(cs, s) && h.ids == []
  {
    hide Nodes, Ids, TypesIn, ParametersIn;
    StatementsHold(cs, s);
  }

  lemma BlockHolds(cs: seq<Cst>, s: Storage)
    ensures var h := InPiece(PieceOf(Block(cs), s)); h.nodes == NodesOf(cs, s) && h.ids == []
  {
    hide Holds, InPiece, PieceOf, NodesOf;
    var rest := Rep(Statements(cs));
    StatementsPart(cs, s);
    WordHolds(OpenCurly, s);
    Holds2(Leaf(Sym(OpenCurly)), rest, s);
    PartHolds(Block(cs), [Leaf(Sym(OpenCurly)), rest], s);
  }

  // ----- one form at a time -----

  lemma PrefixNodes(head: Token, ps: seq<Part>, s: Storage)
    ensures NodeOf(Prefix(head, ps), s) == PrefixNode(head, Pieces(ps, BodyStorage(head, s)), s)
  {
    hide PrefixNode, Pieces, BodyStorage;
  }

  lemma VariableIs(name: seq<string>, s: Storage)
    requires name != []
    ensures NodeOf(Prefix(Id(Head(name)), [Qualified(name), Skipped([])]), s) == VariableRef(name, Read)
  {
    hide NodeOf, Nodes, Ids, TypesIn, ParametersIn, Pieces;
    var ps := [Qualified(name), Skipped([])];
    PrefixNodes(Id(name[0]), ps, s);
    NamesHold(name, s);
    HoldsNone(s);
    PartHolds(Skipped([]), [], s);
    Holds2(ps[0], ps[1], s);
    assert [name[0]] + Rest(name) == name;
  }

  lemma DeclarationIs(name: seq<string>, ty: TypeName, s: Storage)
    requires name != [] && TypeOk(ty)
    ensures NodeOf(Prefix(Id(Head(name)), [Qualified(name), Taken([COLON, TypeForm(ty)])]), s) == VariableDecl(name, ty, Read)
  {
    hide NodeOf, Nodes, Ids, TypesIn, ParametersIn, Pieces, TypeForm;
    var t := Taken([COLON, TypeForm(ty)]);
    var ps := [Qualified(name), t];
    PrefixNodes(Id(name[0]), ps, s);
    NamesHold(name, s);
    WordHolds(OpDef, s);
    TypeHolds(ty, s);
    Holds2(COLON, TypeForm(ty), s);
    PartHolds(t, [COLON, TypeForm(ty)], s);
    Holds2(ps[0], t, s);
    Holds1(t, s);
    assert Pieces(ps, s)[1..] == Pieces([t], s);
    assert [name[0]] + Rest(name) == name;
  }

  lemma UnaryIs(op: Kind, c: Cst, s: Storage)
    requires op in {OpNot, OpInc, OpDec}
    ensures NodeOf(Prefix(Sym(op), [Sub(c)]), s) == UnaryExpr(op, NodeOf(c, s))
  {
    hide NodeOf, Nodes, Ids, TypesIn, ParametersIn, Pieces;
    PrefixNodes(Sym(op), [Sub(c)], s);
    SubHolds(c, s);
    Holds1(Sub(c), s);
  }

  lemma CompoundIs(cs: seq<Cst>, s: Storage)
    ensures NodeOf(Prefix(Sym(OpenCurly), [Rep(Statements(cs))]), s) == CompoundExpr(s, NodesOf(cs, s))
  {
    hide NodeOf, Nodes, Ids, TypesIn, ParametersIn, Pieces, NodesOf, Statements;
    PrefixNodes(Sym(OpenCurly), [Rep(Statements(cs))], s);
    StatementsPart(cs, s);
    Holds1(Rep(Statements(cs)), s);
  }

  lemma CastIs(ty: TypeName, c: Cst, s: Storage)
    requires TypeOk(ty)
    ensures NodeOf(Prefix(Sym(KwCast), [Leaf(Sym(OpLt)), TypeForm(ty), Leaf(Sym(OpGt)), OPEN, Sub(c), SHUT]), s) == CastExpr(ty, NodeOf(c, s))
  {
    hide NodeOf, Nodes, Ids, TypesIn, ParametersIn, Pieces, TypeForm;
    var lt, gt := Leaf(Sym(OpLt)), Leaf(Sym(OpGt));
    TypeHolds(ty, s);
    WordHolds(OpLt, s);
    WordHolds(OpGt, s);
    ConditionHolds(c, s);
    HoldsFront(lt, TypeForm(ty), gt, [OPEN, Sub(c), SHUT], s);
    var ps := [lt, TypeForm(ty), gt] + [OPEN, Sub(c), SHUT];
    assert ps == [lt, TypeForm(ty), gt, OPEN, Sub(c), SHUT];
    PrefixNodes(Sym(KwCast), ps, s);
  }

  lemma ConditionHolds(c: Cst, s: Storage)
    ensures Holds([OPEN, Sub(c), SHUT], s) == Holding([NodeOf(c, s)], [], [], [])
    ensures InPiece(PieceOf(OPEN, s)) == EMPTY && InPiece(PieceOf(SHUT, s)) == EMPTY && InPiece(PieceOf(SEMI, s)) == EMPTY
    ensures InPiece(PieceOf(Sub(c), s)) == Holding([NodeOf(c, s)], [], [], [])
  {
    hide NodeOf, Holds, InPiece, PieceOf;
    WordHolds(OpenParen, s);
    WordHolds(CloseParen, s);
    WordHolds(EndOfStatement, s);
    SubHolds(c, s);
    Holds3(OPEN, Sub(c), SHUT, s);
  }

  lemma NewIs(ty: TypeName, s: Storage)
    requires TypeOk(ty)
    ensures NodeOf(Prefix(Sym(KwNew), [TypeForm(ty), OPEN, SHUT]), s) == NewExpr(ty)
  {
    hide NodeOf, Nodes, Ids, TypesIn, ParametersIn, Pieces, TypeForm;
    TypeHolds(ty, s);
    WordHolds(OpenParen, s);
    WordHolds(CloseParen, s);
    Holds3(TypeForm(ty), OPEN, SHUT, s);
    PrefixNodes(Sym(KwNew), [TypeForm(ty), OPEN, SHUT], s);
  }

  lemma ConditionalIs(c: Cst, t: Cst, e: Cst, s: Storage)
    ensures NodeOf(Prefix(Sym(OpCond), [Sub(c), SEMI, Sub(t), SEMI, Sub(e), SHUT]), s) == IfExpr(NodeOf(c, s), NodeOf(t, s), Some(NodeOf(e, s)))
  {
    hide NodeOf, Nodes, Ids, TypesIn, ParametersIn, Pieces;
    ConditionHolds(c, s);
    ConditionHolds(t, s);
    ConditionHolds(e, s);
    Holds3(SEMI, Sub(e), SHUT, s);
    HoldsFront(Sub(c), SEMI, Sub(t), [SEMI, Sub(e), SHUT], s);
    var ps := [Sub(c), SEMI, Sub(t)] + [SEMI, Sub(e), SHUT];
    assert ps == [Sub(c), SEMI, Sub(t), SEMI, Sub(e), SHUT];
    PrefixNodes(Sym(OpCond), ps, s);
  }

  lemma IfIs(c: Cst, t: Cst, s: Storage)
    ensures NodeOf(Prefix(Sym(KwIf), [OPEN, Sub(c), SHUT, Sub(t), Skipped([])]), s) == IfExpr(NodeOf(c, s), NodeOf(t, s), None)
  {
    hide NodeOf, InPiece, PieceOf, Pieces;
    ConditionHolds(c, s);
    ConditionHolds(t, s);
    HoldsNone(s);
    PartHolds(Skipped([]), [], s);
    Holds2(Sub(t), Skipped([]), s);
    HoldsFront(OPEN, Sub(c), SHUT, [Sub(t), Skipped([])], s);
    var ps := [OPEN, Sub(c), SHUT] + [Sub(t), Skipped([])];
    assert ps == [OPEN, Sub(c), SHUT, Sub(t), Skipped([])];
    PrefixNodes(Sym(KwIf), ps, s);
  }

  lemma WhileIs(c: Cst, b: Cst, s: Storage)
    ensures NodeOf(Prefix(Sym(KwWhile), [OPEN, Sub(c), SHUT, Sub(b)]), s) == WhileExpr(NodeOf(c, s), NodeOf(b, s))
  {
    hide NodeOf, Nodes, Ids, TypesIn, ParametersIn, Pieces;
    ConditionHolds(c, s);
    ConditionHolds(b, s);
    Holds1(Sub(b), s);
    HoldsFront(OPEN, Sub(c), SHUT, [Sub(b)], s);
    var ps := [OPEN, Sub(c), SHUT] + [Sub(b)];
    assert ps == [OPEN, Sub(c), SHUT, Sub(b)];
    PrefixNodes(Sym(KwWhile), ps, s);
  }

  lemma AssertIs(c: Cst, s: Storage)
    ensures NodeOf(Prefix(Sym(KwAssert), [OPEN, Sub(c), SHUT]), s) == AssertExpr(NodeOf(c, s))
  {
    hide NodeOf, Nodes, Ids, TypesIn, ParametersIn, Pieces;
    ConditionHolds(c, s);
    PrefixNodes(Sym(KwAssert), [OPEN, Sub(c), SHUT], s);
  }

  lemma FuncIs(id: string, ret: TypeName, params: seq<Parameter>, b: Cst, s: Storage)
    requires TypeOk(ret) && ParametersOk(params)
    ensures NodeOf(Prefix(Sym(KwFunc), [Leaf(Id(id)), COLON, TypeForm(ret), OPEN, Listing(CloseParen, ParameterMembers(params)), Sub(b)]), s)
         == FuncDef(id, ret, params, NodeOf(b, Local))
  {
    hide NodeOf, Nodes, Ids, TypesIn, ParametersIn, Pieces, TypeForm, Listing;
    var list := Listing(CloseParen, ParameterMembers(params));
    NameHolds(id, Local);
    WordHolds(OpDef, Local);
    TypeHolds(ret, Local);
    ParameterListHolds(params, Local);
    ListingHolds(CloseParen, ParameterMembers(params), Local);
    ConditionHolds(b, Local);
    Holds3(OPEN, list, Sub(b), Local);
    HoldsFront(Leaf(Id(id)), COLON, TypeForm(ret), [OPEN, list, Sub(b)], Local);
    var ps := [Leaf(Id(id)), COLON, TypeForm(ret)] + [OPEN, list, Sub(b)];
    assert ps == [Leaf(Id(id)), COLON, TypeForm(ret), OPEN, list, Sub(b)];
    PrefixNodes(Sym(KwFunc), ps, s);
  }

  lemma ClassIs(id: string, tps: seq<string>, b: Cst, s: Storage)
    ensures NodeOf(Prefix(Sym(KwClass), [Leaf(Id(id)), Angled(NameMembers(tps)), Sub(b)]), s)
         == if tps == [] then ClassDef(id, ClassBody(NodeOf(b, Instance))) else GenericClass(tps, id, ClassBody(NodeOf(b, Instance)))
  {
    hide NodeOf, Nodes, Ids, TypesIn, ParametersIn, Pieces, Angled, ClassBody;
    var list := Angled(NameMembers(tps));
    NameHolds(id, Instance);
    NameListHolds(tps, Instance);
    AngledHolds(NameMembers(tps), Instance);
    SubHolds(b, Instance);
    Holds3(Leaf(Id(id)), list, Sub(b), Instance);
    PrefixNodes(Sym(KwClass), [Leaf(Id(id)), list, Sub(b)], s);
  }

  lemma NamespaceIs(name: seq<string>, cs: seq<Cst>, s: Storage)
    requires name != []
    ensures NodeOf(Prefix(Sym(KwNamespace), [Leaf(Id(Head(name))), Qualified(name), Block(cs)]), s) == NamespaceExpr(name, NodesOf(cs, s))
  {
    hide NodeOf, PrefixNode, InPiece, PieceOf, Pieces, Block, NodesOf, Rest;
    var ps := [Leaf(Id(name[0])), Qualified(name), Block(cs)];
    NameHolds(name[0], s);
    NamesHold(name, s);
    BlockHolds(cs, s);
    Holds3(ps[0], ps[1], ps[2], s);
    PrefixNodes(Sym(KwNamespace), ps, s);
    NamespaceNode(Pieces(ps, s), s);
    WholeName(name);
  }

  lemma NamespaceNode(ps: seq<Piece>, s: Storage)
    ensures PrefixNode(Sym(KwNamespace), ps, s) == NamespaceExpr(Ids(ps), Nodes(ps)) && BodyStorage(Sym(KwNamespace), s) == s
  {
  }

  lemma WholeName(name: seq<string>)
    requires name != []
    ensures [Head(name)] + Rest(name) == name
  {
  }

  lemma PieceHolds(p: Piece)
    ensures InPiece(p).ids == IdsIn(p)
  {
  }

  lemma TemplateIs(id: string, tps: seq<string>, cs: seq<Cst>, s: Storage)
    ensures NodeOf(Prefix(Sym(KwTemplate), [Leaf(Id(id)), Angled(NameMembers(tps)), Block(cs)]), s) == NamedTemplate(id, tps, NodesOf(cs, s))
  {
    hide NodeOf, PrefixNode, InPiece, Pieces, Block, NodesOf, Angled;
    var ps := [Leaf(Id(id)), Angled(NameMembers(tps)), Block(cs)];
    NameHolds(id, s);
    NameListHolds(tps, s);
    AngledHolds(NameMembers(tps), s);
    BlockHolds(cs, s);
    Holds3(ps[0], ps[1], ps[2], s);
    PrefixNodes(Sym(KwTemplate), ps, s);
    TemplateNode(id, Pieces(ps, s), s);
    PieceHolds(PieceOf(ps[1], s));
  }

  lemma TemplateNode(id: string, ps: seq<Piece>, s: Storage)
    requires |ps| == 3 && ps[0] == Word(Id(id))
    ensures PrefixNode(Sym(KwTemplate), ps, s) == NamedTemplate(id, IdsIn(ps[1]), Nodes(ps)) && BodyStorage(Sym(KwTemplate), s) == s
  {
  }

  lemma ExpansionIs(name: seq<string>, tys: seq<TypeName>, s: Storage)
    requires name != [] && TypesOk(tys)
    ensures NodeOf(Prefix(Sym(KwExpand), [Leaf(Id(Head(name))), Qualified(name), Angled(TypeMembers(tys))]), s) == Expansion(name, tys)
  {
    hide NodeOf, PrefixNode, InPiece, Pieces, Angled, TypesOk, Qualified, Rest;
    var ps := [Leaf(Id(name[0])), Qualified(name), Angled(TypeMembers(tys))];
    NameHolds(name[0], s);
    NamesHold(name, s);
    TypesHold(tys, s);
    AngledHolds(TypeMembers(tys), s);
    Holds3(ps[0], ps[1], ps[2], s);
    PrefixNodes(Sym(KwExpand), ps, s);
    ExpansionNode(name[0], Pieces(ps, s), s);
    PieceHolds(PieceOf(ps[1], s));
    WholeName(name);
  }

  lemma ExpansionNode(id: string, ps: seq<Piece>, s: Storage)
    requires |ps| == 3 && ps[0] == Word(Id(id))
    ensures PrefixNode(Sym(KwExpand), ps, s) == Expansion([id] + IdsIn(ps[1]), TypesIn(ps)) && BodyStorage(Sym(KwExpand), s) == s
  {
  }

  lemma BinaryIs(l: Cst, op: Kind, r: Cst, s: Storage)
    requires IsBinary(op)
    ensures NodeOf(Infix(l, Sym(op), [Sub(r)]), s) == BinaryExpr(op, if op == OpAssign then MarkWrite(NodeOf(l, s)) else NodeOf(l, s), NodeOf(r, s))
  {
    hide Nodes, Ids, TypesIn, ParametersIn, Pieces;
    SubHolds(r, s);
    Holds1(Sub(r), s);
  }

  lemma DotIs(l: Cst, m: string, s: Storage)
    ensures NodeOf(Infix(l, Sym(OpDot), [Leaf(Id(m)), Skipped([])]), s) == DotExpr(NodeOf(l, s), m, false)
  {
    hide Nodes, Pieces;
    Holds2(Leaf(Id(m)), Skipped([]), s);
  }

  lemma CallIs(l: Cst, cs: seq<Cst>, s: Storage)
    ensures NodeOf(Infix(l, Sym(OpenParen), [Listing(CloseParen, Members(cs))]), s) == FuncCall(None, NodeOf(l, s), NodesOf(cs, s))
  {
    hide Nodes, Ids, TypesIn, ParametersIn, Pieces, Listing, NodesOf;
    MembersHold(cs, s);
    ListingHolds(CloseParen, Members(cs), s);
    Holds1(Listing(CloseParen, Members(cs)), s);
  }

  lemma MethodCallIs(l: Cst, m: string, cs: seq<Cst>, s: Storage)
    ensures NodeOf(Infix(l, Sym(OpDot), [Leaf(Id(m)), Taken([OPEN, Listing(CloseParen, Members(cs))])]), s)
         == FuncCall(Some(NodeOf(l, s)), MethodRef(m), NodesOf(cs, s))
  {
    hide Nodes, Ids, TypesIn, ParametersIn, Pieces, Listing, NodesOf;
    var list := Listing(CloseParen, Members(cs));
    var taken := Taken([OPEN, list]);
    MembersHold(cs, s);
    ListingHolds(CloseParen, Members(cs), s);
    WordHolds(OpenParen, s);
    NameHolds(m, s);
    Holds2(OPEN, list, s);
    PartHolds(taken, [OPEN, list], s);
    Holds2(Leaf(Id(m)), taken, s);
  }

  lemma LiteralIs(n: Node, s: Storage)
    requires n.LiteralInt? || n.LiteralFloat? || n.LiteralBool?
    ensures NodeOf(Form(n), s) == n
  {
  }

  // ----- every node -----

  lemma {:induction false} AllFormsAre(ns: seq<Node>, s: Storage)
    requires forall i | 0 <= i < |ns| :: NodeOf(Form(ns[i]), s) == ns[i]
    ensures NodesOf(FormAll(ns), s) == ns
  {
    hide NodeOf, Form;
    if ns != [] { AllFormsAre(ns[1..], s); }
  }

  /** Reading the written form gives the node back, wherever its compounds have the right kind. */
  lemma {:induction false} FormIs(n: Node, s: Storage)
    requires Printable(n) && KindsExact(n, s)
    ensures NodeOf(Form(n), s) == n
    decreases n, 1
  {
    hide NodeOf, Form, TypeOk, TypesOk, ParametersOk;
    if IsControl(n) {
      ControlIs(n, s);
    } else if IsDefinition(n) {
      DefinitionIs(n, s);
    } else {
      OperandIs(n, s);
    }
  }

  lemma {:induction false} OperandIs(n: Node, s: Storage)
    requires Printable(n) && KindsExact(n, s) && !IsControl(n) && !IsDefinition(n)
    ensures NodeOf(Form(n), s) == n
    decreases n, 0, 1
  {
    hide NodeOf, TypeForm, Qualified, Separated, Listing, Angled, Block, TypeOk, TypesOk, ParametersOk;
    match n
    case VariableRef(name, _) => VariableIs(name, s);
    case VariableDecl(name, ty, _) => DeclarationIs(name, ty, s);
    case UnaryExpr(op, v) =>
      FormIs(v, s);
      UnaryIs(op, Form(v), s);
    case BinaryExpr(op, l, r) =>
      FormIs(r, s);
      if op == OpAssign && IsVariable(l) { TargetIs(l, s); } else { FormIs(l, s); }
      BinaryIs(Form(l), op, Form(r), s);
    case CastExpr(ty, v) =>
      FormIs(v, s);
      CastIs(ty, Form(v), s);
    case NewExpr(ty) => NewIs(ty, s);
    case DotExpr(v, m, _) =>
      FormIs(v, s);
      DotIs(Form(v), m, s);
    case FuncCall(o, f, args) =>
      NodesAre(n, args, s);
      if o.None? {
        FormIs(f, s);
        CallIs(Form(f), FormAll(args), s);
      } else {
        FormIs(o.value, s);
        MethodCallIs(Form(o.value), f.member, FormAll(args), s);
      }
    case _ => LiteralIs(n, s);
  }

  lemma {:induction false} ControlIs(n: Node, s: Storage)
    requires Printable(n) && KindsExact(n, s) && IsControl(n)
    ensures NodeOf(Form(n), s) == n
    decreases n, 0, 1
  {
    hide NodeOf, TypeForm, Qualified, Separated, Listing, Angled, Block, Statements;
    match n
    case CompoundExpr(_, es) =>
      NodesAre(n, es, s);
      CompoundIs(FormAll(es), s);
    case IfExpr(c, t, e) =>
      FormIs(c, s);
      FormIs(t, s);
      if e.Some? {
        FormIs(e.value, s);
        ConditionalIs(Form(c), Form(t), Form(e.value), s);
      } else {
        IfIs(Form(c), Form(t), s);
      }
    case WhileExpr(c, b) =>
      FormIs(c, s);
      FormIs(b, s);
      WhileIs(Form(c), Form(b), s);
    case AssertExpr(c) =>
      FormIs(c, s);
      AssertIs(Form(c), s);
  }

  lemma {:induction false} DefinitionIs(n: Node, s: Storage)
    requires Printable(n) && KindsExact(n, s) && IsDefinition(n)
    ensures NodeOf(Form(n), s) == n
    decreases n, 0, 1
  {
    hide NodeOf, TypeForm, Qualified, Separated, Listing, Angled, Block, TypeOk, TypesOk, ParametersOk;
    match n
    case FuncDef(id, ret, ps, b) =>
      FormIs(b, Local);
      FuncIs(id, ret, ps, Form(b), s);
    case ClassDef(id, b) =>
      FormIs(b, Instance);
      NoAngles();
      ClassIs(id, [], Form(b), s);
    case GenericClass(tps, id, b) =>
      FormIs(b, Instance);
      ClassIs(id, tps, Form(b), s);
    case NamespaceExpr(name, es) =>
      NodesAre(n, es, s);
      NamespaceIs(name, FormAll(es), s);
    case NamedTemplate(id, tps, es) =>
      NodesAre(n, es, s);
      TemplateIs(id, tps, FormAll(es), s);
    case Expansion(name, args) => ExpansionIs(name, args, s);
  }

  lemma {:induction false} NodesAre(n: Node, ns: seq<Node>, s: Storage)
    requires IsListOf(n, ns)
    requires AllKinds(ns, s) && forall i | 0 <= i < |ns| :: Printable(ns[i])
    ensures NodesOf(FormAll(ns), s) == ns
    decreases n, 0, 0
  {
    hide NodeOf, Form, Printable, KindsExact;
    forall i | 0 <= i < |ns| ensures NodeOf(Form(ns[i]), s) == ns[i] { FormIs(ns[i], s); }
    AllFormsAre(ns, s);
  }

  lemma TargetIs(n: Node, s: Storage)
    requires VariableOk(n, Write)
    ensures MarkWrite(NodeOf(Form(n), s)) == n
  {
    hide NodeOf, TypeForm, TypeOk, Qualified;
    if n.VariableRef? { VariableIs(n.name, s); } else { DeclarationIs(n.name, n.ty, s); }
  }
}
