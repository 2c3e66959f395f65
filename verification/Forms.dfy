/** The written form of every node, before parentheses are put in, and that it has the shape of its kind. */
module Forms {
  import opened Common
  import opened Tokens
  import opened Grammar
  import opened Parens
  import opened Ast
  import opened Build

  // ----- what can be written -----

  predicate TypeOk(ty: TypeName) {
    ty.name != [] && forall i | 0 <= i < |ty.args| :: TypeOk(ty.args[i])
  }

  predicate TypesOk(tys: seq<TypeName>) {
    forall i | 0 <= i < |tys| :: TypeOk(tys[i])
  }

  predicate ParametersOk(ps: seq<Parameter>) {
    forall i | 0 <= i < |ps| :: TypeOk(ps[i].ty)
  }

  predicate VariableOk(n: Node, access: Access) {
    match n
    case VariableRef(name, a) => name != [] && a == access
    case VariableDecl(name, ty, a) => name != [] && TypeOk(ty) && a == access
    case _ => false
  }

  /** The nodes that parsing can build: names have parts, and variables and fields are marked as parsing
      marks them. */
  predicate Printable(n: Node) {
    match n
    case LiteralInt(_) => true
    case LiteralFloat(_) => true
    case LiteralBool(_) => true
    case VariableRef(_, _) => VariableOk(n, Read)
    case VariableDecl(_, _, _) => VariableOk(n, Read)
    case UnaryExpr(op, v) => op in {OpNot, OpInc, OpDec} && Printable(v)
    case BinaryExpr(op, l, r) => IsBinary(op) && Printable(r) && if op == OpAssign && IsVariable(l) then VariableOk(l, Write) else Printable(l)
    case CompoundExpr(_, es) => forall i | 0 <= i < |es| :: Printable(es[i])
    case CastExpr(ty, v) => TypeOk(ty) && Printable(v)
    case NewExpr(ty) => TypeOk(ty)
    case IfExpr(c, t, e) => Printable(c) && Printable(t) && (e.Some? ==> Printable(e.value))
    case WhileExpr(c, b) => Printable(c) && Printable(b)
    case FuncDef(_, ret, ps, b) => TypeOk(ret) && ParametersOk(ps) && Printable(b)
    case ClassDef(_, b) => b.CompoundExpr? && Printable(b)
    case GenericClass(tps, _, b) => tps != [] && b.CompoundExpr? && Printable(b)
    case AssertExpr(c) => Printable(c)
    case NamespaceExpr(name, es) => name != [] && forall i | 0 <= i < |es| :: Printable(es[i])
    case NamedTemplate(_, _, es) => forall i | 0 <= i < |es| :: Printable(es[i])
    case Expansion(name, args) => name != [] && TypesOk(args)
    case DotExpr(v, _, isWrite) => !isWrite && Printable(v)
    case FuncCall(None, f, args) => Printable(f) && forall i | 0 <= i < |args| :: Printable(args[i])
    case FuncCall(Some(o), f, args) => Printable(o) && f.MethodRef? && forall i | 0 <= i < |args| :: Printable(args[i])
    case _ => false
  }

  // ----- how it is written -----

  function Head(name: seq<string>): string {
    if name == [] then "" else name[0]
  }

  function Rest(name: seq<string>): seq<string> {
    if name == [] then [] else name[1..]
  }

  function QualifiedParts(name: seq<string>): seq<Part> {
    if name == [] then [] else [Rep([Leaf(Sym(OpNamespace)), Leaf(Id(name[0]))])] + QualifiedParts(name[1..])
  }

  /** The parts of a qualified name after its first. */
  function Qualified(name: seq<string>): Part {
    Rep(QualifiedParts(Rest(name)))
  }

  /** Members with commas between them and `close` at the end. */
  function Separated(close: Kind, members: seq<Part>): seq<Part> {
    if members == [] then []
    else [members[0], Leaf(Sym(if |members| == 1 then close else Comma))] + Separated(close, members[1..])
  }

  /** A list in parentheses, after the opening one. */
  function Listing(close: Kind, members: seq<Part>): Part {
    if members == [] then Taken([Leaf(Sym(close))]) else Skipped([Rep(Separated(close, members))])
  }

  /** A list in angle brackets, left out if empty. */
  function Angled(members: seq<Part>): Part {
    if members == [] then Skipped([]) else Taken([Leaf(Sym(OpLt)), Skipped([Rep(Separated(OpGt, members))])])
  }

  function TypeForm(ty: TypeName): Part {
    Rep([Leaf(Id(Head(ty.name))), Qualified(ty.name),
         if ty.args == [] then Skipped([]) else Taken([Leaf(Sym(OpLt)), Rep(Separated(OpGt, TypeMembers(ty.args)))])])
  }

  function TypeMembers(tys: seq<TypeName>): (r: seq<Part>)
    ensures |r| == |tys|
  {
    if tys == [] then [] else [Rep([TypeForm(tys[0])])] + TypeMembers(tys[1..])
  }

  function NameMembers(names: seq<string>): (r: seq<Part>)
    ensures |r| == |names|
  {
    if names == [] then [] else [Rep([Leaf(Id(names[0]))])] + NameMembers(names[1..])
  }

  function ParameterMembers(ps: seq<Parameter>): (r: seq<Part>)
    ensures |r| == |ps|
  {
    if ps == [] then []
    else [Rep([Leaf(Id(ps[0].name)), Leaf(Sym(OpDef)), TypeForm(ps[0].ty)])] + ParameterMembers(ps[1..])
  }

  function Members(cs: seq<Cst>): (r: seq<Part>)
    ensures |r| == |cs|
  {
    if cs == [] then [] else [Rep([Sub(cs[0])])] + Members(cs[1..])
  }

  /** A block after its opening brace. */
  function Statements(cs: seq<Cst>): seq<Part> {
    if cs == [] then [Leaf(Sym(CloseCurly))] else [Sub(cs[0])] + Statements(cs[1..])
  }

  function Block(cs: seq<Cst>): Part {
    Taken([Leaf(Sym(OpenCurly)), Rep(Statements(cs))])
  }

  const OPEN := Leaf(Sym(OpenParen))
  const SHUT := Leaf(Sym(CloseParen))
  const SEMI := Leaf(Sym(EndOfStatement))
  const COLON := Leaf(Sym(OpDef))

  /** An `if` with both branches is written `(? …; …; …)`. */
  function Form(n: Node): Cst {
    match n
    case LiteralInt(i) => Prefix(IntLit(i), [])
    case LiteralFloat(t) => Prefix(FloatLit(t), [])
    case LiteralBool(b) => Prefix(BoolLit(b), [])
    case VariableRef(name, _) => Prefix(Id(Head(name)), [Qualified(name), Skipped([])])
    case VariableDecl(name, ty, _) => Prefix(Id(Head(name)), [Qualified(name), Taken([COLON, TypeForm(ty)])])
    case UnaryExpr(op, v) => Prefix(Sym(op), [Sub(Form(v))])
    case BinaryExpr(op, l, r) => Infix(Form(l), Sym(op), [Sub(Form(r))])
    case CompoundExpr(_, es) => Prefix(Sym(OpenCurly), [Rep(Statements(FormAll(es)))])
    case CastExpr(ty, v) => Prefix(Sym(KwCast), [Leaf(Sym(OpLt)), TypeForm(ty), Leaf(Sym(OpGt)), OPEN, Sub(Form(v)), SHUT])
    case NewExpr(ty) => Prefix(Sym(KwNew), [TypeForm(ty), OPEN, SHUT])
    case IfExpr(c, t, e) =>
      if e.None? then Prefix(Sym(KwIf), [OPEN, Sub(Form(c)), SHUT, Sub(Form(t)), Skipped([])])
      else Prefix(Sym(OpCond), [Sub(Form(c)), SEMI, Sub(Form(t)), SEMI, Sub(Form(e.value)), SHUT])
    case WhileExpr(c, b) => Prefix(Sym(KwWhile), [OPEN, Sub(Form(c)), SHUT, Sub(Form(b))])
    case FuncDef(id, ret, ps, b) =>
      Prefix(Sym(KwFunc), [Leaf(Id(id)), COLON, TypeForm(ret), OPEN, Listing(CloseParen, ParameterMembers(ps)), Sub(Form(b))])
    case ClassDef(id, b) => Prefix(Sym(KwClass), [Leaf(Id(id)), Skipped([]), Sub(Form(b))])
    case GenericClass(tps, id, b) => Prefix(Sym(KwClass), [Leaf(Id(id)), Angled(NameMembers(tps)), Sub(Form(b))])
    case AssertExpr(c) => Prefix(Sym(KwAssert), [OPEN, Sub(Form(c)), SHUT])
    case NamespaceExpr(name, es) => Prefix(Sym(KwNamespace), [Leaf(Id(Head(name))), Qualified(name), Block(FormAll(es))])
    case NamedTemplate(id, tps, es) => Prefix(Sym(KwTemplate), [Leaf(Id(id)), Angled(NameMembers(tps)), Block(FormAll(es))])
    case Expansion(name, args) => Prefix(Sym(KwExpand), [Leaf(Id(Head(name))), Qualified(name), Angled(TypeMembers(args))])
    case DotExpr(v, m, _) => Infix(Form(v), Sym(OpDot), [Leaf(Id(m)), Skipped([])])
    case MethodRef(_) => NOTHING
    case FuncCall(o, f, args) =>
      if o.None? then Infix(Form(f), Sym(OpenParen), [Listing(CloseParen, Members(FormAll(args)))])
      else if f.MethodRef? then Infix(Form(o.value), Sym(OpDot), [Leaf(Id(f.member)), Taken([OPEN, Listing(CloseParen, Members(FormAll(args)))])])
      else NOTHING
    case Missing => NOTHING
  }

  const NOTHING := Prefix(Sym(Unexpected), [])

  function FormAll(ns: seq<Node>): (cs: seq<Cst>)
    ensures |cs| == |ns|
  {
    if ns == [] then [] else [Form(ns[0])] + FormAll(ns[1..])
  }

  // ----- the written form has the shape of its kind -----

  lemma ShapedCons(i: Item, items: seq<Item>, p: Part, ps: seq<Part>)
    requires ShapedOne(i, p) && ShapedAll(items, ps)
    ensures ShapedAll([i] + items, [p] + ps)
  {
    hide ShapedOne;
    assert ([i] + items)[1..] == items && ([p] + ps)[1..] == ps;
  }

  lemma ShapedNone()
    ensures ShapedAll([], [])
  {
  }

  lemma Shaped1(i: Item, p: Part)
    requires ShapedOne(i, p)
    ensures ShapedAll([i], [p])
  {
    hide ShapedOne;
    ShapedNone();
    ShapedCons(i, [], p, []);
    assert [i] + [] == [i] && [p] + [] == [p];
  }

  lemma Shaped2(i: Item, j: Item, p: Part, q: Part)
    requires ShapedOne(i, p) && ShapedOne(j, q)
    ensures ShapedAll([i, j], [p, q])
  {
    hide ShapedOne, ShapedAll;
    Shaped1(j, q);
    ShapedCons(i, [j], p, [q]);
    assert [i] + [j] == [i, j] && [p] + [q] == [p, q];
  }

  lemma Shaped3(i: Item, j: Item, k: Item, p: Part, q: Part, r: Part)
    requires ShapedOne(i, p) && ShapedOne(j, q) && ShapedOne(k, r)
    ensures ShapedAll([i, j, k], [p, q, r])
  {
    hide ShapedOne, ShapedAll;
    Shaped2(j, k, q, r);
    ShapedCons(i, [j, k], p, [q, r]);
    assert [i] + [j, k] == [i, j, k] && [p] + [q, r] == [p, q, r];
  }

  lemma ShapedFront(i: Item, j: Item, k: Item, items: seq<Item>, p: Part, q: Part, r: Part, ps: seq<Part>)
    requires ShapedOne(i, p) && ShapedOne(j, q) && ShapedOne(k, r) && ShapedAll(items, ps)
    ensures ShapedAll([i, j, k] + items, [p, q, r] + ps)
  {
    hide ShapedOne, ShapedAll;
    ShapedCons(k, items, r, ps);
    ShapedCons(j, [k] + items, q, [r] + ps);
    ShapedCons(i, [j] + ([k] + items), p, [q] + ([r] + ps));
    assert [i] + ([j] + ([k] + items)) == [i, j, k] + items;
    assert [p] + ([q] + ([r] + ps)) == [p, q, r] + ps;
  }

  lemma WordShaped(k: Kind)
    ensures ShapedOne(Lit(k), Leaf(Sym(k)))
  {
  }

  lemma NameShaped(id: string)
    ensures ShapedOne(Ident, Leaf(Id(id)))
  {
  }

  lemma SubShaped(q: int, c: Cst)
    requires Shaped(c)
    ensures ShapedOne(SubExpr(q), Sub(c))
  {
  }

  lemma TakenShaped(k: Kind, yes: seq<Item>, no: seq<Item>, ps: seq<Part>)
    requires ShapedAll(yes, ps)
    ensures ShapedOne(Either(k, yes, no), Taken([Leaf(Sym(k))] + ps))
  {
    hide ShapedAll;
    assert ([Leaf(Sym(k))] + ps)[1..] == ps;
  }

  lemma SkippedShaped(k: Kind, yes: seq<Item>, no: seq<Item>, ps: seq<Part>)
    requires ShapedAll(no, ps) && Either(k, yes, no) != BLOCK
    ensures ShapedOne(Either(k, yes, no), Skipped(ps))
  {
    hide ShapedAll;
  }

  lemma {:induction false} QualifiedShaped(name: seq<string>)
    ensures ShapedWhile(OpNamespace, [Ident], QualifiedParts(name))
  {
    hide ShapedAll;
    if name != [] {
      NameShaped(name[0]);
      Shaped1(Ident, Leaf(Id(name[0])));
      var round := [Leaf(Sym(OpNamespace)), Leaf(Id(name[0]))];
      assert round[1..] == [Leaf(Id(name[0]))];
      assert ShapedRound(OpNamespace, [Ident], Rep(round));
      QualifiedShaped(name[1..]);
      assert QualifiedParts(name)[1..] == QualifiedParts(name[1..]);
    }
  }

  lemma NamesShaped(name: seq<string>)
    ensures ShapedOne(QUALIFIED, Qualified(name))
  {
    QualifiedShaped(Rest(name));
  }

  predicate MembersShaped(body: seq<Item>, members: seq<Part>) {
    forall i | 0 <= i < |members| :: ShapedMember(body, members[i])
  }

  lemma {:induction false} SeparatedShaped(close: Kind, body: seq<Item>, members: seq<Part>)
    requires close != Comma && members != [] && MembersShaped(body, members)
    ensures ShapedSep(close, body, Separated(close, members))
  {
    hide ShapedMember;
    var rest := members[1..];
    var all := Separated(close, members);
    assert all[2..] == Separated(close, rest);
    if rest == [] {
      assert |all| == 2;
    } else {
      assert MembersShaped(body, rest) by { assert forall i | 0 <= i < |rest| :: rest[i] == members[i + 1]; }
      SeparatedShaped(close, body, rest);
    }
  }

  lemma ListingShaped(close: Kind, body: seq<Item>, members: seq<Part>)
    requires close != Comma && MembersShaped(body, members) && Either(close, [], [Sep(close, body)]) != BLOCK
    ensures ShapedOne(Either(close, [], [Sep(close, body)]), Listing(close, members))
  {
    hide ShapedAll, ShapedSep, MembersShaped;
    ShapedNone();
    if members == [] {
      TakenShaped(close, [], [Sep(close, body)], []);
      assert [Leaf(Sym(close))] + [] == [Leaf(Sym(close))];
    } else {
      SeparatedShaped(close, body, members);
      Shaped1(Sep(close, body), Rep(Separated(close, members)));
      SkippedShaped(close, [], [Sep(close, body)], [Rep(Separated(close, members))]);
    }
  }

  lemma AngledShaped(body: seq<Item>, members: seq<Part>)
    requires MembersShaped(body, members)
    ensures ShapedOne(Either(OpLt, [Either(OpGt, [], [Sep(OpGt, body)])], []), Angled(members))
  {
    hide ShapedAll, ShapedSep, ShapedOne, MembersShaped;
    ShapedNone();
    var e := Either(OpGt, [], [Sep(OpGt, body)]);
    if members == [] {
      SkippedShaped(OpLt, [e], [], []);
    } else {
      ListingShaped(OpGt, body, members);
      Shaped1(e, Listing(OpGt, members));
      TakenShaped(OpLt, [e], [], [Listing(OpGt, members)]);
      assert [Leaf(Sym(OpLt))] + [Listing(OpGt, members)] == [Leaf(Sym(OpLt)), Listing(OpGt, members)];
    }
  }

  lemma {:induction false} TypeShaped(ty: TypeName)
    requires TypeOk(ty)
    ensures ShapedOne(TypeRef, TypeForm(ty))
    decreases ty, 0
  {
    hide ShapedAll, ShapedOne, MembersShaped;
    var args := if ty.args == [] then Skipped([]) else Taken([Leaf(Sym(OpLt)), Rep(Separated(OpGt, TypeMembers(ty.args)))]);
    NamesShaped(ty.name);
    ArgumentsShaped(ty);
    Shaped2(QUALIFIED, Either(OpLt, [Sep(OpGt, [TypeRef])], []), Qualified(ty.name), args);
    TypeHead(Head(ty.name), [Qualified(ty.name), args]);
    assert [Leaf(Id(Head(ty.name)))] + [Qualified(ty.name), args] == TypeForm(ty).ps;
  }

  lemma TypeHead(id: string, ps: seq<Part>)
    requires ShapedAll(TYPE_TAIL, ps)
    ensures ShapedOne(TypeRef, Rep([Leaf(Id(id))] + ps))
  {
    hide ShapedAll;
    assert ([Leaf(Id(id))] + ps)[1..] == ps;
  }

  lemma {:induction false} ArgumentsShaped(ty: TypeName)
    requires TypeOk(ty)
    ensures ShapedOne(Either(OpLt, [Sep(OpGt, [TypeRef])], []),
                      if ty.args == [] then Skipped([]) else Taken([Leaf(Sym(OpLt)), Rep(Separated(OpGt, TypeMembers(ty.args)))]))
    decreases ty, 0, 0
  {
    hide ShapedAll, ShapedSep, MembersShaped;
    ShapedNone();
    var sep := Sep(OpGt, [TypeRef]);
    if ty.args == [] {
      SkippedShaped(OpLt, [sep], [], []);
    } else {
      forall i | 0 <= i < |ty.args| ensures ShapedOne(TypeRef, TypeForm(ty.args[i])) { TypeShaped(ty.args[i]); }
      TypeMembersShaped(ty.args);
      var ms := TypeMembers(ty.args);
      SeparatedShaped(OpGt, [TypeRef], ms);
      Shaped1(sep, Rep(Separated(OpGt, ms)));
      TakenShaped(OpLt, [sep], [], [Rep(Separated(OpGt, ms))]);
      assert [Leaf(Sym(OpLt))] + [Rep(Separated(OpGt, ms))] == [Leaf(Sym(OpLt)), Rep(Separated(OpGt, ms))];
    }
  }

  lemma {:induction false} TypeMembersShaped(tys: seq<TypeName>)
    requires forall i | 0 <= i < |tys| :: ShapedOne(TypeRef, TypeForm(tys[i]))
    ensures MembersShaped([TypeRef], TypeMembers(tys))
  {
    hide ShapedAll, ShapedOne, TypeForm;
    if tys != [] {
      Shaped1(TypeRef, TypeForm(tys[0]));
      TypeMembersShaped(tys[1..]);
    }
  }

  lemma TypesShaped(tys: seq<TypeName>)
    requires TypesOk(tys)
    ensures MembersShaped([TypeRef], TypeMembers(tys))
  {
    hide TypeOk, MembersShaped, ShapedOne;
    forall i | 0 <= i < |tys| ensures ShapedOne(TypeRef, TypeForm(tys[i])) { TypeShaped(tys[i]); }
    TypeMembersShaped(tys);
  }

  lemma {:induction false} NameMembersShaped(names: seq<string>)
    ensures MembersShaped([Ident], NameMembers(names))
  {
    hide ShapedAll;
    if names != [] {
      NameShaped(names[0]);
      Shaped1(Ident, Leaf(Id(names[0])));
      NameMembersShaped(names[1..]);
    }
  }

  lemma {:induction false} ParameterMembersShaped(ps: seq<Parameter>)
    requires ParametersOk(ps)
    ensures MembersShaped([Ident, Lit(OpDef), TypeRef], ParameterMembers(ps))
  {
    hide ShapedAll, ShapedOne, TypeOk, TypeForm;
    if ps != [] {
      NameShaped(ps[0].name);
      WordShaped(OpDef);
      TypeShaped(ps[0].ty);
      Shaped3(Ident, Lit(OpDef), TypeRef, Leaf(Id(ps[0].name)), COLON, TypeForm(ps[0].ty));
      ParameterMembersShaped(ps[1..]);
    }
  }

  predicate AllShaped(cs: seq<Cst>) {
    forall i | 0 <= i < |cs| :: Shaped(cs[i])
  }

  lemma {:induction false} ExprMembersShaped(cs: seq<Cst>)
    requires AllShaped(cs)
    ensures MembersShaped([EXPR], Members(cs))
  {
    hide ShapedAll, ShapedOne, Shaped;
    if cs != [] {
      SubShaped(0, cs[0]);
      Shaped1(EXPR, Sub(cs[0]));
      ExprMembersShaped(cs[1..]);
    }
  }

  lemma {:induction false} StatementsShaped(cs: seq<Cst>)
    requires AllShaped(cs)
    ensures ShapedUntil(CloseCurly, Statements(cs))
  {
    hide Shaped;
    if cs != [] {
      assert AllShaped(cs[1..]);
      StatementsShaped(cs[1..]);
      assert Statements(cs)[1..] == Statements(cs[1..]);
    }
  }

  lemma BlockShaped(cs: seq<Cst>)
    requires AllShaped(cs)
    ensures ShapedOne(BLOCK, Block(cs))
  {
    hide ShapedAll, ShapedUntil, AllShaped;
    StatementsShaped(cs);
    Shaped1(Until(CloseCurly), Rep(Statements(cs)));
    TakenShaped(OpenCurly, [Until(CloseCurly)], [EXPR], [Rep(Statements(cs))]);
    assert [Leaf(Sym(OpenCurly))] + [Rep(Statements(cs))] == [Leaf(Sym(OpenCurly)), Rep(Statements(cs))];
  }

  lemma ShapedPrefix(head: Token, ps: seq<Part>)
    requires PrefixForm(head).Some? && ShapedAll(PrefixForm(head).value, ps)
    ensures Shaped(Prefix(head, ps))
  {
    hide ShapedAll, PrefixForm;
  }

  lemma ShapedInfix(l: Cst, op: Token, ps: seq<Part>)
    requires Shaped(l) && InfixForm(op).Some? && ShapedAll(InfixForm(op).value, ps)
    ensures Shaped(Infix(l, op, ps))
  {
    hide ShapedAll, InfixForm;
  }

  lemma VariableShaped(name: seq<string>)
    ensures Shaped(Prefix(Id(Head(name)), [Qualified(name), Skipped([])]))
  {
    hide ShapedAll, ShapedOne, Shaped;
    ShapedNone();
    NamesShaped(name);
    SkippedShaped(OpDef, [TypeRef], [], []);
    Shaped2(QUALIFIED, Either(OpDef, [TypeRef], []), Qualified(name), Skipped([]));
    ShapedPrefix(Id(Head(name)), [Qualified(name), Skipped([])]);
  }

  lemma DeclarationShaped(name: seq<string>, ty: TypeName)
    requires TypeOk(ty)
    ensures Shaped(Prefix(Id(Head(name)), [Qualified(name), Taken([COLON, TypeForm(ty)])]))
  {
    hide ShapedAll, ShapedOne, Shaped, TypeForm;
    NamesShaped(name);
    TypeShaped(ty);
    Shaped1(TypeRef, TypeForm(ty));
    TakenShaped(OpDef, [TypeRef], [], [TypeForm(ty)]);
    assert [COLON] + [TypeForm(ty)] == [COLON, TypeForm(ty)];
    Shaped2(QUALIFIED, Either(OpDef, [TypeRef], []), Qualified(name), Taken([COLON, TypeForm(ty)]));
    ShapedPrefix(Id(Head(name)), [Qualified(name), Taken([COLON, TypeForm(ty)])]);
  }

  lemma UnaryShaped(op: Kind, c: Cst)
    requires op in {OpNot, OpInc, OpDec} && Shaped(c)
    ensures Shaped(Prefix(Sym(op), [Sub(c)]))
  {
    hide ShapedAll, ShapedOne, Shaped;
    SubShaped(0, c);
    Shaped1(EXPR, Sub(c));
    ShapedPrefix(Sym(op), [Sub(c)]);
  }

  lemma BinaryShaped(l: Cst, op: Kind, r: Cst)
    requires IsBinary(op) && Shaped(l) && Shaped(r)
    ensures Shaped(Infix(l, Sym(op), [Sub(r)]))
  {
    hide ShapedAll, ShapedOne, Shaped;
    SubShaped(RightPrecedence(op), r);
    Shaped1(SubExpr(RightPrecedence(op)), Sub(r));
    ShapedInfix(l, Sym(op), [Sub(r)]);
  }

  lemma CompoundShaped(cs: seq<Cst>)
    requires AllShaped(cs)
    ensures Shaped(Prefix(Sym(OpenCurly), [Rep(Statements(cs))]))
  {
    hide ShapedAll, Shaped, ShapedUntil, AllShaped;
    StatementsShaped(cs);
    Shaped1(Until(CloseCurly), Rep(Statements(cs)));
    ShapedPrefix(Sym(OpenCurly), [Rep(Statements(cs))]);
  }

  lemma CastShaped(ty: TypeName, c: Cst)
    requires TypeOk(ty) && Shaped(c)
    ensures Shaped(Prefix(Sym(KwCast), [Leaf(Sym(OpLt)), TypeForm(ty), Leaf(Sym(OpGt)), OPEN, Sub(c), SHUT]))
  {
    hide ShapedAll, ShapedOne, Shaped, TypeForm;
    TypeShaped(ty);
    ConditionShaped(c);
    WordShaped(OpLt);
    WordShaped(OpGt);
    var ps := [OPEN, Sub(c), SHUT];
    ShapedFront(Lit(OpLt), TypeRef, Lit(OpGt), [Lit(OpenParen), EXPR, Lit(CloseParen)], Leaf(Sym(OpLt)), TypeForm(ty), Leaf(Sym(OpGt)), ps);
    assert [Lit(OpLt), TypeRef, Lit(OpGt)] + [Lit(OpenParen), EXPR, Lit(CloseParen)] == PrefixForm(Sym(KwCast)).value;
    ShapedPrefix(Sym(KwCast), [Leaf(Sym(OpLt)), TypeForm(ty), Leaf(Sym(OpGt))] + ps);
    assert [Leaf(Sym(OpLt)), TypeForm(ty), Leaf(Sym(OpGt))] + ps == [Leaf(Sym(OpLt)), TypeForm(ty), Leaf(Sym(OpGt)), OPEN, Sub(c), SHUT];
  }

  lemma ConditionShaped(c: Cst)
    requires Shaped(c)
    ensures ShapedAll([Lit(OpenParen), EXPR, Lit(CloseParen)], [OPEN, Sub(c), SHUT])
    ensures ShapedOne(EXPR, Sub(c)) && ShapedOne(Lit(OpenParen), OPEN) && ShapedOne(Lit(CloseParen), SHUT)
  {
    hide ShapedAll, Shaped;
    Shaped3(Lit(OpenParen), EXPR, Lit(CloseParen), OPEN, Sub(c), SHUT);
  }

  lemma NewShaped(ty: TypeName)
    requires TypeOk(ty)
    ensures Shaped(Prefix(Sym(KwNew), [TypeForm(ty), OPEN, SHUT]))
  {
    hide ShapedAll, ShapedOne, Shaped, TypeForm;
    TypeShaped(ty);
    WordShaped(OpenParen);
    WordShaped(CloseParen);
    Shaped3(TypeRef, Lit(OpenParen), Lit(CloseParen), TypeForm(ty), OPEN, SHUT);
    ShapedPrefix(Sym(KwNew), [TypeForm(ty), OPEN, SHUT]);
  }

  lemma ConditionalShaped(c: Cst, t: Cst, e: Cst)
    requires Shaped(c) && Shaped(t) && Shaped(e)
    ensures Shaped(Prefix(Sym(OpCond), [Sub(c), SEMI, Sub(t), SEMI, Sub(e), SHUT]))
  {
    hide ShapedAll, ShapedOne, Shaped;
    SubShaped(0, c);
    SubShaped(0, t);
    SubShaped(0, e);
    WordShaped(EndOfStatement);
    WordShaped(CloseParen);
    var semi := Lit(EndOfStatement);
    Shaped3(semi, EXPR, Lit(CloseParen), SEMI, Sub(e), SHUT);
    ShapedFront(EXPR, semi, EXPR, [semi, EXPR, Lit(CloseParen)], Sub(c), SEMI, Sub(t), [SEMI, Sub(e), SHUT]);
    assert [EXPR, semi, EXPR] + [semi, EXPR, Lit(CloseParen)] == PrefixForm(Sym(OpCond)).value;
    ShapedPrefix(Sym(OpCond), [Sub(c), SEMI, Sub(t)] + [SEMI, Sub(e), SHUT]);
    assert [Sub(c), SEMI, Sub(t)] + [SEMI, Sub(e), SHUT] == [Sub(c), SEMI, Sub(t), SEMI, Sub(e), SHUT];
  }

  lemma IfShaped(c: Cst, t: Cst)
    requires Shaped(c) && Shaped(t)
    ensures Shaped(Prefix(Sym(KwIf), [OPEN, Sub(c), SHUT, Sub(t), Skipped([])]))
  {
    hide ShapedAll, ShapedOne, Shaped;
    ConditionShaped(c);
    SubShaped(0, t);
    ShapedNone();
    var e := Either(KwElse, [EXPR], []);
    SkippedShaped(KwElse, [EXPR], [], []);
    Shaped2(EXPR, e, Sub(t), Skipped([]));
    ShapedFront(Lit(OpenParen), EXPR, Lit(CloseParen), [EXPR, e], OPEN, Sub(c), SHUT, [Sub(t), Skipped([])]);
    assert [Lit(OpenParen), EXPR, Lit(CloseParen)] + [EXPR, e] == PrefixForm(Sym(KwIf)).value;
    ShapedPrefix(Sym(KwIf), [OPEN, Sub(c), SHUT] + [Sub(t), Skipped([])]);
    assert [OPEN, Sub(c), SHUT] + [Sub(t), Skipped([])] == [OPEN, Sub(c), SHUT, Sub(t), Skipped([])];
  }

  lemma WhileShaped(c: Cst, b: Cst)
    requires Shaped(c) && Shaped(b)
    ensures Shaped(Prefix(Sym(KwWhile), [OPEN, Sub(c), SHUT, Sub(b)]))
  {
    hide ShapedAll, ShapedOne, Shaped;
    ConditionShaped(c);
    SubShaped(0, b);
    Shaped1(EXPR, Sub(b));
    ShapedFront(Lit(OpenParen), EXPR, Lit(CloseParen), [EXPR], OPEN, Sub(c), SHUT, [Sub(b)]);
    assert [Lit(OpenParen), EXPR, Lit(CloseParen)] + [EXPR] == PrefixForm(Sym(KwWhile)).value;
    ShapedPrefix(Sym(KwWhile), [OPEN, Sub(c), SHUT] + [Sub(b)]);
    assert [OPEN, Sub(c), SHUT] + [Sub(b)] == [OPEN, Sub(c), SHUT, Sub(b)];
  }

  lemma AssertShaped(c: Cst)
    requires Shaped(c)
    ensures Shaped(Prefix(Sym(KwAssert), [OPEN, Sub(c), SHUT]))
  {
    hide ShapedAll, Shaped;
    ConditionShaped(c);
    ShapedPrefix(Sym(KwAssert), [OPEN, Sub(c), SHUT]);
  }

  lemma FuncShaped(id: string, ret: TypeName, ps: seq<Parameter>, b: Cst)
    requires TypeOk(ret) && ParametersOk(ps) && Shaped(b)
    ensures Shaped(Prefix(Sym(KwFunc), [Leaf(Id(id)), COLON, TypeForm(ret), OPEN, Listing(CloseParen, ParameterMembers(ps)), Sub(b)]))
  {
    hide ShapedAll, ShapedOne, Shaped, TypeForm, Listing, MembersShaped;
    var list := Listing(CloseParen, ParameterMembers(ps));
    TypeShaped(ret);
    ParameterMembersShaped(ps);
    ListingShaped(CloseParen, [Ident, Lit(OpDef), TypeRef], ParameterMembers(ps));
    SubShaped(0, b);
    WordShaped(OpDef);
    WordShaped(OpenParen);
    NameShaped(id);
    Shaped3(Lit(OpenParen), PARAMETERS, EXPR, OPEN, list, Sub(b));
    ShapedFront(Ident, Lit(OpDef), TypeRef, [Lit(OpenParen), PARAMETERS, EXPR], Leaf(Id(id)), COLON, TypeForm(ret), [OPEN, list, Sub(b)]);
    assert [Ident, Lit(OpDef), TypeRef] + [Lit(OpenParen), PARAMETERS, EXPR] == PrefixForm(Sym(KwFunc)).value;
    ShapedPrefix(Sym(KwFunc), [Leaf(Id(id)), COLON, TypeForm(ret)] + [OPEN, list, Sub(b)]);
    assert [Leaf(Id(id)), COLON, TypeForm(ret)] + [OPEN, list, Sub(b)] == [Leaf(Id(id)), COLON, TypeForm(ret), OPEN, list, Sub(b)];
  }

  lemma ClassShaped(id: string, tps: seq<string>, b: Cst)
    requires Shaped(b)
    ensures Shaped(Prefix(Sym(KwClass), [Leaf(Id(id)), Angled(NameMembers(tps)), Sub(b)]))
  {
    hide ShapedAll, ShapedOne, Shaped, Angled, MembersShaped;
    NameMembersShaped(tps);
    AngledShaped([Ident], NameMembers(tps));
    NameShaped(id);
    SubShaped(0, b);
    Shaped3(Ident, TEMPLATE_PARAMETERS, EXPR, Leaf(Id(id)), Angled(NameMembers(tps)), Sub(b));
    ShapedPrefix(Sym(KwClass), [Leaf(Id(id)), Angled(NameMembers(tps)), Sub(b)]);
  }

  lemma NamespaceShaped(name: seq<string>, cs: seq<Cst>)
    requires AllShaped(cs)
    ensures Shaped(Prefix(Sym(KwNamespace), [Leaf(Id(Head(name))), Qualified(name), Block(cs)]))
  {
    hide ShapedAll, ShapedOne, Shaped, Block, AllShaped;
    BlockShaped(cs);
    NamesShaped(name);
    NameShaped(Head(name));
    Shaped3(Ident, QUALIFIED, BLOCK, Leaf(Id(Head(name))), Qualified(name), Block(cs));
    ShapedPrefix(Sym(KwNamespace), [Leaf(Id(Head(name))), Qualified(name), Block(cs)]);
  }

  lemma TemplateShaped(id: string, tps: seq<string>, cs: seq<Cst>)
    requires AllShaped(cs)
    ensures Shaped(Prefix(Sym(KwTemplate), [Leaf(Id(id)), Angled(NameMembers(tps)), Block(cs)]))
  {
    hide ShapedAll, ShapedOne, Shaped, Block, Angled, MembersShaped, AllShaped;
    BlockShaped(cs);
    NameMembersShaped(tps);
    AngledShaped([Ident], NameMembers(tps));
    NameShaped(id);
    Shaped3(Ident, TEMPLATE_PARAMETERS, BLOCK, Leaf(Id(id)), Angled(NameMembers(tps)), Block(cs));
    ShapedPrefix(Sym(KwTemplate), [Leaf(Id(id)), Angled(NameMembers(tps)), Block(cs)]);
  }

  lemma ExpansionShaped(name: seq<string>, tys: seq<TypeName>)
    requires TypesOk(tys)
    ensures Shaped(Prefix(Sym(KwExpand), [Leaf(Id(Head(name))), Qualified(name), Angled(TypeMembers(tys))]))
  {
    hide ShapedAll, ShapedOne, Shaped, Angled, TypeForm, MembersShaped;
    TypesShaped(tys);
    AngledShaped([TypeRef], TypeMembers(tys));
    NamesShaped(name);
    NameShaped(Head(name));
    var e := Either(OpLt, [Either(OpGt, [], [Sep(OpGt, [TypeRef])])], []);
    Shaped3(Ident, QUALIFIED, e, Leaf(Id(Head(name))), Qualified(name), Angled(TypeMembers(tys)));
    ShapedPrefix(Sym(KwExpand), [Leaf(Id(Head(name))), Qualified(name), Angled(TypeMembers(tys))]);
  }

  lemma DotShaped(l: Cst, m: string)
    requires Shaped(l)
    ensures Shaped(Infix(l, Sym(OpDot), [Leaf(Id(m)), Skipped([])]))
  {
    hide ShapedAll, ShapedOne, Shaped;
    NameShaped(m);
    ShapedNone();
    SkippedShaped(OpenParen, [ARGUMENTS], [], []);
    Shaped2(Ident, Either(OpenParen, [ARGUMENTS], []), Leaf(Id(m)), Skipped([]));
    ShapedInfix(l, Sym(OpDot), [Leaf(Id(m)), Skipped([])]);
  }

  lemma CallShaped(l: Cst, cs: seq<Cst>)
    requires Shaped(l) && AllShaped(cs)
    ensures Shaped(Infix(l, Sym(OpenParen), [Listing(CloseParen, Members(cs))]))
    ensures ShapedOne(ARGUMENTS, Listing(CloseParen, Members(cs)))
  {
    hide ShapedAll, ShapedOne, Shaped, Listing, MembersShaped;
    ExprMembersShaped(cs);
    ListingShaped(CloseParen, [EXPR], Members(cs));
    Shaped1(ARGUMENTS, Listing(CloseParen, Members(cs)));
    ShapedInfix(l, Sym(OpenParen), [Listing(CloseParen, Members(cs))]);
  }

  lemma MethodCallShaped(l: Cst, m: string, cs: seq<Cst>)
    requires Shaped(l) && AllShaped(cs)
    ensures Shaped(Infix(l, Sym(OpDot), [Leaf(Id(m)), Taken([OPEN, Listing(CloseParen, Members(cs))])]))
  {
    hide ShapedAll, ShapedOne, Shaped, Listing, AllShaped;
    var list := Listing(CloseParen, Members(cs));
    CallShaped(l, cs);
    Shaped1(ARGUMENTS, list);
    TakenShaped(OpenParen, [ARGUMENTS], [], [list]);
    assert [OPEN] + [list] == [OPEN, list];
    NameShaped(m);
    Shaped2(Ident, Either(OpenParen, [ARGUMENTS], []), Leaf(Id(m)), Taken([OPEN, list]));
    ShapedInfix(l, Sym(OpDot), [Leaf(Id(m)), Taken([OPEN, list])]);
  }

  lemma LiteralShaped(n: Node)
    requires n.LiteralInt? || n.LiteralFloat? || n.LiteralBool?
    ensures Shaped(Form(n))
  {
    ShapedNone();
  }

  lemma {:induction false} AllFormsShaped(ns: seq<Node>)
    requires forall i | 0 <= i < |ns| :: Shaped(Form(ns[i]))
    ensures AllShaped(FormAll(ns))
  {
    hide Shaped, Form;
    if ns != [] { AllFormsShaped(ns[1..]); }
  }

  predicate IsControl(n: Node) {
    n.IfExpr? || n.WhileExpr? || n.AssertExpr? || n.CompoundExpr?
  }

  predicate IsDefinition(n: Node) {
    n.FuncDef? || n.ClassDef? || n.GenericClass? || n.NamespaceExpr? || n.NamedTemplate? || n.Expansion?
  }

  lemma {:induction false} FormShaped(n: Node)
    requires Printable(n)
    ensures Shaped(Form(n))
    decreases n, 1
  {
    hide Shaped, Form, TypeOk, TypesOk, ParametersOk;
    if IsControl(n) {
      ControlShaped(n);
    } else if IsDefinition(n) {
      DefinitionShaped(n);
    } else {
      OperandShaped(n);
    }
  }

  lemma {:induction false} OperandShaped(n: Node)
    requires Printable(n) && !IsControl(n) && !IsDefinition(n)
    ensures Shaped(Form(n))
    decreases n, 0, 1
  {
    hide Shaped, AllShaped, TypeForm, QualifiedParts, Separated, Listing, Angled, Block, TypeOk, TypesOk, ParametersOk;
    match n
    case VariableRef(name, _) => VariableShaped(name);
    case VariableDecl(name, ty, _) => DeclarationShaped(name, ty);
    case UnaryExpr(op, v) =>
      FormShaped(v);
      UnaryShaped(op, Form(v));
    case BinaryExpr(op, l, r) =>
      FormShaped(r);
      if op == OpAssign && IsVariable(l) { TargetShaped(l); } else { FormShaped(l); }
      BinaryShaped(Form(l), op, Form(r));
    case CastExpr(ty, v) =>
      FormShaped(v);
      CastShaped(ty, Form(v));
    case NewExpr(ty) => NewShaped(ty);
    case DotExpr(v, m, _) =>
      FormShaped(v);
      DotShaped(Form(v), m);
    case FuncCall(o, f, args) =>
      NodesShaped(n, args);
      if o.None? {
        FormShaped(f);
        CallShaped(Form(f), FormAll(args));
      } else {
        FormShaped(o.value);
        MethodCallShaped(Form(o.value), f.member, FormAll(args));
      }
    case _ => LiteralShaped(n);
  }

  lemma {:induction false} ControlShaped(n: Node)
    requires Printable(n) && IsControl(n)
    ensures Shaped(Form(n))
    decreases n, 0, 1
  {
    hide Shaped, AllShaped, TypeForm, QualifiedParts, Separated, Listing, Angled, Block, TypeOk, TypesOk, ParametersOk;
    match n
    case CompoundExpr(_, es) =>
      NodesShaped(n, es);
      CompoundShaped(FormAll(es));
    case IfExpr(c, t, e) =>
      FormShaped(c);
      FormShaped(t);
      if e.Some? {
        FormShaped(e.value);
        ConditionalShaped(Form(c), Form(t), Form(e.value));
      } else {
        IfShaped(Form(c), Form(t));
      }
    case WhileExpr(c, b) =>
      FormShaped(c);
      FormShaped(b);
      WhileShaped(Form(c), Form(b));
    case AssertExpr(c) =>
      FormShaped(c);
      AssertShaped(Form(c));
  }

  lemma {:induction false} DefinitionShaped(n: Node)
    requires Printable(n) && IsDefinition(n)
    ensures Shaped(Form(n))
    decreases n, 0, 1
  {
    hide Shaped, AllShaped, TypeForm, QualifiedParts, Separated, Listing, Angled, Block, TypeOk, TypesOk, ParametersOk;
    match n
    case FuncDef(id, ret, ps, b) =>
      FormShaped(b);
      FuncShaped(id, ret, ps, Form(b));
    case ClassDef(id, b) =>
      FormShaped(b);
      ClassShaped(id, [], Form(b));
      NoAngles();
    case GenericClass(tps, id, b) =>
      FormShaped(b);
      ClassShaped(id, tps, Form(b));
    case NamespaceExpr(name, es) =>
      NodesShaped(n, es);
      NamespaceShaped(name, FormAll(es));
    case NamedTemplate(id, tps, es) =>
      NodesShaped(n, es);
      TemplateShaped(id, tps, FormAll(es));
    case Expansion(name, args) => ExpansionShaped(name, args);
  }

  /** The nodes that `n` is a list of, or that it is called with. */
  predicate IsListOf(n: Node, ns: seq<Node>) {
    match n
    case CompoundExpr(_, es) => ns == es
    case NamespaceExpr(_, es) => ns == es
    case NamedTemplate(_, _, es) => ns == es
    case FuncCall(_, _, args) => ns == args
    case _ => false
  }

  lemma {:induction false} NodesShaped(n: Node, ns: seq<Node>)
    requires IsListOf(n, ns)
    requires forall i | 0 <= i < |ns| :: Printable(ns[i])
    ensures AllShaped(FormAll(ns))
    decreases n, 0, 0
  {
    hide Shaped, Form, Printable, AllShaped;
    forall i | 0 <= i < |ns| ensures Shaped(Form(ns[i])) { FormShaped(ns[i]); }
    AllFormsShaped(ns);
  }

  lemma NoAngles()
    ensures Angled(NameMembers([])) == Skipped([])
  {
  }

  lemma TargetShaped(n: Node)
    requires VariableOk(n, Write)
    ensures Shaped(Form(n))
  {
    hide Shaped, TypeForm, TypeOk;
    if n.VariableRef? { VariableShaped(n.name); } else { DeclarationShaped(n.name, n.ty); }
  }
}
