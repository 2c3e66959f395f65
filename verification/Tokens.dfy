/** Tokens, operator precedence, and what each parselet consumes after its first token. */
module Tokens {
  import opened Common

  datatype Kind =
    | EndOfStatement
    | OpNot | OpAdd | OpSub | OpMul | OpDiv | OpAssign | OpEq | OpNeq | OpGt | OpLt | OpLte | OpGte
    | OpLAnd | OpLOr | OpDot | OpDef | OpInc | OpDec | OpCond | OpNamespace
    | OpenParen | CloseParen | OpenCurly | CloseCurly | Comma
    | KwIf | KwElse | KwWhile | KwFunc | KwCast | KwClass | KwAssert | KwNew | KwAlias
    | KwTemplate | KwExpand | KwNamespace
    | Unexpected

  /** The end of input is the end of the sequence of tokens. */
  datatype Token = Sym(kind: Kind) | Id(name: string) | IntLit(n: int) | FloatLit(text: string) | BoolLit(b: bool)

  const NO_PRECEDENCE := -100000

  function KindPrecedence(k: Kind): int {
    match k
    case OpDot => 14
    case OpenParen => 14
    case OpNot => 13
    case OpMul => 11
    case OpDiv => 11
    case OpAdd => 10
    case OpSub => 10
    case OpGt => 8
    case OpLt => 8
    case OpLte => 8
    case OpGte => 8
    case OpEq => 7
    case OpNeq => 7
    case OpLAnd => 3
    case OpLOr => 2
    case OpAssign => 1
    case _ => NO_PRECEDENCE
  }

  function Precedence(t: Token): int {
    if t.Sym? then KindPrecedence(t.kind) else NO_PRECEDENCE
  }

  predicate IsBinary(k: Kind) {
    k in {OpAdd, OpSub, OpMul, OpDiv, OpEq, OpNeq, OpGt, OpGte, OpLt, OpLte, OpLAnd, OpLOr, OpAssign}
  }

  /** The precedence at which a binary operator parses its right operand: one less than its own
      when it associates to the right. */
  function RightPrecedence(k: Kind): int {
    if k == OpAssign then KindPrecedence(k) - 1 else KindPrecedence(k)
  }

  // ----- forms -----

  /** One step of a parselet.  The parselets differ only in these steps and in the node they
      build at the end. */
  datatype Item =
    | Lit(k: Kind)                                      // consume this token
    | Ident                                             // consume an identifier
    | SubExpr(p: int)                                   // parse an expression at this precedence
    | TypeRef                                           // parse a type reference
    | Either(k: Kind, yes: seq<Item>, no: seq<Item>)    // if this token is next consume it and go on
    | While(k: Kind, body: seq<Item>)                   // as long as this token is next consume it and go on
    | Until(k: Kind)                                    // parse expressions until this token, and consume it
    | Sep(close: Kind, body: seq<Item>)                 // one or more, separated by commas, up to this token

  const EXPR := SubExpr(0)
  const QUALIFIED := While(OpNamespace, [Ident])

  /** What follows the first identifier of a type reference. */
  const TYPE_TAIL := [QUALIFIED, Either(OpLt, [Sep(OpGt, [TypeRef])], [])]

  /** Template parameters are optional everywhere. */
  const TEMPLATE_PARAMETERS := Either(OpLt, [Either(OpGt, [], [Sep(OpGt, [Ident])])], [])

  /** A block in braces, or a single expression. */
  const BLOCK := Either(OpenCurly, [Until(CloseCurly)], [EXPR])

  /** What follows the opening parenthesis of a call. */
  const ARGUMENTS := Either(CloseParen, [], [Sep(CloseParen, [EXPR])])

  const PARAMETERS := Either(CloseParen, [], [Sep(CloseParen, [Ident, Lit(OpDef), TypeRef])])

  /** The prefix parselets, by their first token. */
  function PrefixForm(t: Token): Option<seq<Item>> {
    match t
    case IntLit(_) => Some([])
    case FloatLit(_) => Some([])
    case BoolLit(_) => Some([])
    case Id(_) => Some([QUALIFIED, Either(OpDef, [TypeRef], [])])
    case Sym(k) =>
      match k
      case OpNot => Some([EXPR])
      case OpInc => Some([EXPR])
      case OpDec => Some([EXPR])
      case OpenCurly => Some([Until(CloseCurly)])
      case OpenParen => Some([EXPR, Lit(CloseParen)])
      case KwCast => Some([Lit(OpLt), TypeRef, Lit(OpGt), Lit(OpenParen), EXPR, Lit(CloseParen)])
      case KwNew => Some([TypeRef, Lit(OpenParen), Lit(CloseParen)])
      case OpCond => Some([EXPR, Lit(EndOfStatement), EXPR, Lit(EndOfStatement), EXPR, Lit(CloseParen)])
      case KwIf => Some([Lit(OpenParen), EXPR, Lit(CloseParen), EXPR, Either(KwElse, [EXPR], [])])
      case KwWhile => Some([Lit(OpenParen), EXPR, Lit(CloseParen), EXPR])
      case KwFunc => Some([Ident, Lit(OpDef), TypeRef, Lit(OpenParen), PARAMETERS, EXPR])
      case KwClass => Some([Ident, TEMPLATE_PARAMETERS, EXPR])
      case KwAssert => Some([Lit(OpenParen), EXPR, Lit(CloseParen)])
      case KwNamespace => Some([Ident, QUALIFIED, BLOCK])
      case KwTemplate => Some([Ident, TEMPLATE_PARAMETERS, BLOCK])
      case KwExpand => Some([Ident, QUALIFIED, Either(OpLt, [Either(OpGt, [], [Sep(OpGt, [TypeRef])])], [])])
      case _ => None
  }

  /** The infix parselets, by their operator.  `!` has a precedence but no infix parselet. */
  function InfixForm(t: Token): Option<seq<Item>> {
    if !t.Sym? then None
    else if IsBinary(t.kind) then Some([SubExpr(RightPrecedence(t.kind))])
    else if t.kind == OpDot then Some([Ident, Either(OpenParen, [ARGUMENTS], [])])
    else if t.kind == OpenParen then Some([ARGUMENTS])
    else None
  }
}
