/** From concrete syntax trees to nodes, and what every node tree the parser can return satisfies:
    write marks sit exactly on the targets of assignments, and every compound has the storage
    kind of the innermost function or class around it. */
module Build {
  import opened Common
  import opened Tokens
  import opened Grammar
  import opened Ast

  function NodeOf(c: Cst, storage: Storage): Node {
    match c
    case Prefix(head, ps) => PrefixNode(head, Pieces(ps, BodyStorage(head, storage)), storage)
    case Infix(left, op, ps) => InfixNode(NodeOf(left, storage), op, Pieces(ps, storage))
  }

  function PieceOf(p: Part, storage: Storage): Piece {
    match p
    case Leaf(t) => Word(t)
    case Sub(e) => Built(NodeOf(e, storage))
    case Taken(ps) => Present(Pieces(ps, storage))
    case Skipped(ps) => Absent(Pieces(ps, storage))
    case Rep(ps) => Several(Pieces(ps, storage))
  }

  function Pieces(ps: seq<Part>, storage: Storage): (r: seq<Piece>)
    ensures |r| == |ps|
  {
    if ps == [] then [] else [PieceOf(ps[0], storage)] + Pieces(ps[1..], storage)
  }

  // ----- write marks -----

  predicate IsVariable(n: Node) {
    n.VariableRef? || n.VariableDecl?
  }

  /** What parsing marks: a variable is marked as written where it is the target of an assignment,
      and only there; a field access is not marked yet; a method name is only ever called. */
  predicate MarksExact(n: Node) {
    match n
    case VariableRef(_, access) => access == Read
    case VariableDecl(_, _, access) => access == Read
    case UnaryExpr(_, v) => MarksExact(v)
    case BinaryExpr(op, l, r) => MarksExact(r) && if op == OpAssign && IsVariable(l) then l.access == Write else MarksExact(l)
    case CompoundExpr(_, es) => AllMarks(es)
    case CastExpr(_, v) => MarksExact(v)
    case IfExpr(c, t, e) => MarksExact(c) && MarksExact(t) && (e.Some? ==> MarksExact(e.value))
    case WhileExpr(c, b) => MarksExact(c) && MarksExact(b)
    case FuncDef(_, _, _, b) => MarksExact(b)
    case ClassDef(_, b) => MarksExact(b)
    case GenericClass(_, _, b) => MarksExact(b)
    case AssertExpr(c) => MarksExact(c)
    case NamespaceExpr(_, es) => AllMarks(es)
    case NamedTemplate(_, _, es) => AllMarks(es)
    case DotExpr(v, _, isWrite) => !isWrite && MarksExact(v)
    case MethodRef(_) => false
    case FuncCall(i, f, args) => (if i.Some? then MarksExact(i.value) && f.MethodRef? else MarksExact(f)) && AllMarks(args)
    case _ => true
  }

  predicate AllMarks(ns: seq<Node>) {
    forall i | 0 <= i < |ns| :: MarksExact(ns[i])
  }

  lemma {:induction false} ParsedMarks(c: Cst, storage: Storage)
    ensures MarksExact(NodeOf(c, storage))
  {
    hide MarksExact, PrefixNode, InfixNode, Nodes;
    match c
    case Prefix(head, ps) =>
      PiecesMarks(ps, BodyStorage(head, storage));
      PrefixMarks(head, Pieces(ps, BodyStorage(head, storage)), storage);
    case Infix(left, op, ps) =>
      ParsedMarks(left, storage);
      PiecesMarks(ps, storage);
      InfixMarks(NodeOf(left, storage), op, Pieces(ps, storage));
  }

  lemma NodeAtMarks(ps: seq<Piece>, i: nat)
    requires AllMarks(Nodes(ps))
    ensures MarksExact(NodeAt(ps, i))
  {
  }

  lemma ClassBodyMarks(n: Node)
    requires MarksExact(n)
    ensures MarksExact(ClassBody(n))
  {
  }

  lemma PrefixMarks(head: Token, ps: seq<Piece>, storage: Storage)
    requires AllMarks(Nodes(ps))
    ensures MarksExact(PrefixNode(head, ps, storage))
  {
    hide Nodes, NodeAt, ClassBody, TypeAt, Ids, IdsIn, IdAt, TypesIn, ParametersOf, AllMarks, AllKinds;
    NodeAtMarks(ps, 0);
    NodeAtMarks(ps, 1);
    NodeAtMarks(ps, 2);
    ClassBodyMarks(NodeAt(ps, 0));
  }

  lemma InfixMarks(left: Node, op: Token, ps: seq<Piece>)
    requires MarksExact(left) && AllMarks(Nodes(ps))
    ensures MarksExact(InfixNode(left, op, ps))
  {
    hide Nodes, NodeAt, IdAt, AllMarks, AllKinds;
    NodeAtMarks(ps, 0);
  }

  lemma {:induction false} PiecesMarks(ps: seq<Part>, storage: Storage)
    ensures AllMarks(Nodes(Pieces(ps, storage)))
  {
    hide MarksExact;
    if ps != [] {
      PartMarks(ps[0], storage);
      PiecesMarks(ps[1..], storage);
      NodesCons(PieceOf(ps[0], storage), Pieces(ps[1..], storage));
    }
  }

  lemma NodesCons(p: Piece, ps: seq<Piece>)
    ensures Nodes([p] + ps) == NodesIn(p) + Nodes(ps)
  {
    assert ([p] + ps)[1..] == ps;
  }

  lemma {:induction false} PartMarks(p: Part, storage: Storage)
    ensures AllMarks(NodesIn(PieceOf(p, storage)))
  {
    hide MarksExact, NodeOf;
    match p
    case Leaf(_) =>
    case Sub(e) => ParsedMarks(e, storage);
    case Taken(ps) => PiecesMarks(ps, storage);
    case Skipped(ps) => PiecesMarks(ps, storage);
    case Rep(ps) => PiecesMarks(ps, storage);
  }

  // ----- storage kinds -----

  /** Every compound in `n`, which stands where `s` is the innermost storage kind, has the kind of
      the innermost function or class around it. */
  predicate KindsExact(n: Node, s: Storage) {
    match n
    case UnaryExpr(_, v) => KindsExact(v, s)
    case BinaryExpr(_, l, r) => KindsExact(l, s) && KindsExact(r, s)
    case CompoundExpr(storage, es) => storage == s && AllKinds(es, s)
    case CastExpr(_, v) => KindsExact(v, s)
    case IfExpr(c, t, e) => KindsExact(c, s) && KindsExact(t, s) && (e.Some? ==> KindsExact(e.value, s))
    case WhileExpr(c, b) => KindsExact(c, s) && KindsExact(b, s)
    case FuncDef(_, _, _, b) => KindsExact(b, Local)
    case ClassDef(_, b) => b.CompoundExpr? && KindsExact(b, Instance)
    case GenericClass(_, _, b) => b.CompoundExpr? && KindsExact(b, Instance)
    case AssertExpr(c) => KindsExact(c, s)
    case NamespaceExpr(_, es) => AllKinds(es, s)
    case NamedTemplate(_, _, es) => AllKinds(es, s)
    case DotExpr(v, _, _) => KindsExact(v, s)
    case FuncCall(i, f, args) => (i.Some? ==> KindsExact(i.value, s)) && KindsExact(f, s) && AllKinds(args, s)
    case _ => true
  }

  predicate AllKinds(ns: seq<Node>, s: Storage) {
    forall i | 0 <= i < |ns| :: KindsExact(ns[i], s)
  }

  lemma {:induction false} ParsedKinds(c: Cst, s: Storage)
    ensures KindsExact(NodeOf(c, s), s)
  {
    hide KindsExact, PrefixNode, InfixNode, Nodes;
    match c
    case Prefix(head, ps) =>
      PiecesKinds(ps, BodyStorage(head, s));
      PrefixKinds(head, Pieces(ps, BodyStorage(head, s)), s);
    case Infix(left, op, ps) =>
      ParsedKinds(left, s);
      PiecesKinds(ps, s);
      InfixKinds(NodeOf(left, s), op, Pieces(ps, s), s);
  }

  lemma NodeAtKinds(ps: seq<Piece>, i: nat, s: Storage)
    requires AllKinds(Nodes(ps), s)
    ensures KindsExact(NodeAt(ps, i), s)
  {
  }

  lemma ClassBodyKinds(n: Node)
    requires KindsExact(n, Instance)
    ensures KindsExact(ClassBody(n), Instance) && ClassBody(n).CompoundExpr?
  {
  }

  lemma PrefixKinds(head: Token, ps: seq<Piece>, s: Storage)
    requires AllKinds(Nodes(ps), BodyStorage(head, s))
    ensures KindsExact(PrefixNode(head, ps, s), s)
  {
    hide KindsExact, PrefixNode, Nodes, AllKinds;
    if head == Sym(KwFunc) || head == Sym(KwClass) {
      DefinitionKinds(head, ps, s);
    } else {
      PlainKinds(head, ps, s);
    }
  }

  lemma DefinitionKinds(head: Token, ps: seq<Piece>, s: Storage)
    requires head == Sym(KwFunc) || head == Sym(KwClass)
    requires AllKinds(Nodes(ps), BodyStorage(head, s))
    ensures KindsExact(PrefixNode(head, ps, s), s)
  {
    hide Nodes, NodeAt, ClassBody, TypeAt, Ids, IdsIn, IdAt, TypesIn, ParametersOf, AllKinds;
    NodeAtKinds(ps, 0, BodyStorage(head, s));
    if head == Sym(KwClass) { ClassBodyKinds(NodeAt(ps, 0)); }
  }

  lemma PlainKinds(head: Token, ps: seq<Piece>, s: Storage)
    requires head != Sym(KwFunc) && head != Sym(KwClass) && AllKinds(Nodes(ps), s)
    ensures KindsExact(PrefixNode(head, ps, s), s)
  {
    hide Nodes, NodeAt, ClassBody, TypeAt, Ids, IdsIn, IdAt, TypesIn, ParametersOf, AllKinds, BodyStorage;
    NodeAtKinds(ps, 0, s);
    NodeAtKinds(ps, 1, s);
    NodeAtKinds(ps, 2, s);
  }

  lemma InfixKinds(left: Node, op: Token, ps: seq<Piece>, s: Storage)
    requires KindsExact(left, s) && AllKinds(Nodes(ps), s)
    ensures KindsExact(InfixNode(left, op, ps), s)
  {
    hide Nodes, NodeAt, IdAt, AllMarks, AllKinds;
    NodeAtKinds(ps, 0, s);
  }

  lemma {:induction false} PiecesKinds(ps: seq<Part>, s: Storage)
    ensures AllKinds(Nodes(Pieces(ps, s)), s)
  {
    hide KindsExact;
    if ps != [] {
      PartKinds(ps[0], s);
      PiecesKinds(ps[1..], s);
      NodesCons(PieceOf(ps[0], s), Pieces(ps[1..], s));
    }
  }

  lemma {:induction false} PartKinds(p: Part, s: Storage)
    ensures AllKinds(NodesIn(PieceOf(p, s)), s)
  {
    hide KindsExact, NodeOf;
    match p
    case Leaf(_) =>
    case Sub(e) => ParsedKinds(e, s);
    case Taken(ps) => PiecesKinds(ps, s);
    case Skipped(ps) => PiecesKinds(ps, s);
    case Rep(ps) => PiecesKinds(ps, s);
  }
}
