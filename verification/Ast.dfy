/** The nodes the parselets build, from the first token and the pieces consumed after it. */
module Ast {
  import opened Common
  import opened Tokens

  datatype Storage = Global | Local | Instance
  datatype TypeName = TypeName(name: seq<string>, args: seq<TypeName>)
  datatype Parameter = Parameter(name: string, ty: TypeName)

  datatype Node =
    | LiteralInt(n: int)
    | LiteralFloat(text: string)
    | LiteralBool(b: bool)
    | VariableRef(name: seq<string>, access: Access)
    | VariableDecl(name: seq<string>, ty: TypeName, access: Access)
    | UnaryExpr(op: Kind, value: Node)
    | BinaryExpr(op: Kind, left: Node, right: Node)
    | CompoundExpr(storage: Storage, es: seq<Node>)
    | CastExpr(ty: TypeName, value: Node)
    | NewExpr(ty: TypeName)
    | IfExpr(cond: Node, thn: Node, els: Option<Node>)
    | WhileExpr(cond: Node, body: Node)
    | FuncDef(id: string, ret: TypeName, parameters: seq<Parameter>, body: Node)
    | ClassDef(id: string, body: Node)
    | GenericClass(typeParameters: seq<string>, id: string, body: Node)
    | AssertExpr(cond: Node)
    | NamespaceExpr(name: seq<string>, es: seq<Node>)
    | NamedTemplate(id: string, typeParameters: seq<string>, es: seq<Node>)
    | Expansion(name: seq<string>, args: seq<TypeName>)
    | DotExpr(value: Node, member: string, isWrite: bool)
    | MethodRef(member: string)
    | FuncCall(instance: Option<Node>, callee: Node, arguments: seq<Node>)
    | Missing

  /** What one step of a parselet yields: tokens, finished nodes, and lists of these. */
  datatype Piece =
    | Word(t: Token)
    | Built(node: Node)
    | Present(ps: seq<Piece>)
    | Absent(ps: seq<Piece>)
    | Several(ps: seq<Piece>)

  // ----- what a node takes from the pieces -----

  /** The finished nodes, in order. */
  function Nodes(ps: seq<Piece>): seq<Node> {
    if ps == [] then [] else NodesIn(ps[0]) + Nodes(ps[1..])
  }

  function NodesIn(p: Piece): seq<Node> {
    match p
    case Word(_) => []
    case Built(n) => [n]
    case Present(ps) => Nodes(ps)
    case Absent(ps) => Nodes(ps)
    case Several(ps) => Nodes(ps)
  }

  function NodeAt(ps: seq<Piece>, i: nat): Node {
    if i < |Nodes(ps)| then Nodes(ps)[i] else Missing
  }

  /** The identifiers, in order. */
  function Ids(ps: seq<Piece>): seq<string> {
    if ps == [] then [] else IdsIn(ps[0]) + Ids(ps[1..])
  }

  function IdsIn(p: Piece): seq<string> {
    match p
    case Word(t) => if t.Id? then [t.name] else []
    case Built(_) => []
    case Present(ps) => Ids(ps)
    case Absent(ps) => Ids(ps)
    case Several(ps) => Ids(ps)
  }

  function IdAt(ps: seq<Piece>, i: nat): string {
    if i < |ps| && ps[i].Word? && ps[i].t.Id? then ps[i].t.name else ""
  }

  predicate IsType(p: Piece) {
    p.Several? && |p.ps| == 3 && p.ps[0].Word? && p.ps[0].t.Id? && !p.ps[1].Word?
  }

  /** The outermost type references, in order. */
  function TypesIn(ps: seq<Piece>): seq<TypeName> {
    if ps == [] then [] else TypesOf(ps[0]) + TypesIn(ps[1..])
  }

  function TypesOf(p: Piece): seq<TypeName> {
    if IsType(p) then [TypeName([p.ps[0].t.name] + IdsIn(p.ps[1]), TypesOf(p.ps[2]))]
    else if p.Word? || p.Built? then []
    else TypesIn(p.ps)
  }

  function TypeAt(ps: seq<Piece>, i: nat): TypeName {
    if i < |TypesIn(ps)| then TypesIn(ps)[i] else TypeName([], [])
  }

  /** The members of a parameter list: a name, a colon, a type. */
  function ParametersIn(ps: seq<Piece>): seq<Parameter> {
    if ps == [] then [] else ParametersOf(ps[0]) + ParametersIn(ps[1..])
  }

  function ParametersOf(p: Piece): seq<Parameter> {
    if p.Word? || p.Built? then []
    else if |p.ps| == 3 && p.ps[1] == Word(Sym(OpDef)) then [Parameter(IdAt(p.ps, 0), TypeAt(p.ps, 0))]
    else ParametersIn(p.ps)
  }

  // ----- building nodes -----

  /** A class body is a compound of storage kind Instance, whatever was parsed. */
  function ClassBody(n: Node): Node {
    if n.CompoundExpr? then n.(storage := Instance) else CompoundExpr(Instance, [n])
  }

  /** The node of a prefix form, built while `storage` is on top of the storage-kind stack. */
  function PrefixNode(head: Token, ps: seq<Piece>, storage: Storage): Node {
    match head
    case IntLit(n) => LiteralInt(n)
    case FloatLit(text) => LiteralFloat(text)
    case BoolLit(b) => LiteralBool(b)
    case Id(name) =>
      if |ps| == 2 && ps[1].Present? then VariableDecl([name] + IdsIn(ps[0]), TypeAt(ps[1..], 0), Read)
      else VariableRef([name] + Ids(ps), Read)
    case Sym(k) =>
      match k
      case OpenCurly => CompoundExpr(storage, Nodes(ps))
      case OpenParen => NodeAt(ps, 0)
      case KwCast => CastExpr(TypeAt(ps, 0), NodeAt(ps, 0))
      case KwNew => NewExpr(TypeAt(ps, 0))
      case OpCond => IfExpr(NodeAt(ps, 0), NodeAt(ps, 1), Some(NodeAt(ps, 2)))
      case KwIf => IfExpr(NodeAt(ps, 0), NodeAt(ps, 1), if |Nodes(ps)| > 2 then Some(NodeAt(ps, 2)) else None)
      case KwWhile => WhileExpr(NodeAt(ps, 0), NodeAt(ps, 1))
      case KwFunc => FuncDef(IdAt(ps, 0), TypeAt(ps, 0), if |ps| > 4 then ParametersOf(ps[4]) else [], NodeAt(ps, 0))
      case KwClass =>
        var typeParameters := if |ps| > 1 then IdsIn(ps[1]) else [];
        var body := ClassBody(NodeAt(ps, 0));
        if typeParameters == [] then ClassDef(IdAt(ps, 0), body) else GenericClass(typeParameters, IdAt(ps, 0), body)
      case KwAssert => AssertExpr(NodeAt(ps, 0))
      case KwNamespace => NamespaceExpr(Ids(ps), Nodes(ps))
      case KwTemplate => NamedTemplate(IdAt(ps, 0), if |ps| > 1 then IdsIn(ps[1]) else [], Nodes(ps))
      case KwExpand => Expansion([IdAt(ps, 0)] + (if |ps| > 1 then IdsIn(ps[1]) else []), TypesIn(ps))
      case _ => UnaryExpr(k, NodeAt(ps, 0))
  }

  /** A variable, or a declaration, becomes a write where it is. */
  function MarkWrite(n: Node): Node {
    if n.VariableRef? || n.VariableDecl? then n.(access := Write) else n
  }

  function InfixNode(left: Node, op: Token, ps: seq<Piece>): Node {
    if !op.Sym? then Missing
    else if op.kind == OpDot then
      if |ps| > 1 && ps[1].Present? then FuncCall(Some(left), MethodRef(IdAt(ps, 0)), Nodes(ps))
      else DotExpr(left, IdAt(ps, 0), false)
    else if op.kind == OpenParen then FuncCall(None, left, Nodes(ps))
    else BinaryExpr(op.kind, if op.kind == OpAssign then MarkWrite(left) else left, NodeAt(ps, 0))
  }

  /** The storage kind pushed while the body of a form is parsed. */
  function BodyStorage(head: Token, storage: Storage): Storage {
    if head == Sym(KwFunc) then Local else if head == Sym(KwClass) then Instance else storage
  }
}
