/** Concrete syntax trees, the tokens they stand for, and which trees are the right ones. */
module Grammar {
  import opened Common
  import opened Tokens

  /** What one step of a parselet consumed. */
  datatype Part =
    | Leaf(t: Token)
    | Sub(e: Cst)
    | Taken(ps: seq<Part>)
    | Skipped(ps: seq<Part>)
    | Rep(ps: seq<Part>)

  /** A prefix form with its first token, or an infix form after its left operand. */
  datatype Cst =
    | Prefix(head: Token, ps: seq<Part>)
    | Infix(left: Cst, op: Token, ps: seq<Part>)

  // ----- the tokens of a tree -----

  function Flatten(c: Cst): seq<Token> {
    match c
    case Prefix(head, ps) => [head] + FlattenAll(ps)
    case Infix(left, op, ps) => Flatten(left) + [op] + FlattenAll(ps)
  }

  function FlattenPart(p: Part): seq<Token> {
    match p
    case Leaf(t) => [t]
    case Sub(e) => Flatten(e)
    case Taken(ps) => FlattenAll(ps)
    case Skipped(ps) => FlattenAll(ps)
    case Rep(ps) => FlattenAll(ps)
  }

  function FlattenAll(ps: seq<Part>): seq<Token> {
    if ps == [] then [] else FlattenPart(ps[0]) + FlattenAll(ps[1..])
  }

  // ----- the right trees -----

  function First(ts: seq<Token>): Option<Token> {
    if ts == [] then None else Some(ts[0])
  }

  /** The token that comes after the tokens `ts`, when `next` comes after those. */
  function Ahead(ts: seq<Token>, next: Option<Token>): Option<Token> {
    if ts == [] then next else Some(ts[0])
  }

  /** Does a loop at precedence `p` stop before `next`? */
  predicate Stops(p: int, next: Option<Token>) {
    next.None? || Precedence(next.value) <= p
  }

  /** `c`, followed by `next`, is a well bound expression at precedence `p`: every operator on its
      left spine binds tighter than `p`, and `next` does not. */
  predicate Bound(p: int, c: Cst, next: Option<Token>)
    decreases c, 1
  {
    BoundSpine(p, c, next) && Stops(p, next)
  }

  predicate BoundSpine(p: int, c: Cst, next: Option<Token>)
    decreases c, 0
  {
    match c
    case Prefix(head, ps) => PrefixForm(head).Some? && Fits(PrefixForm(head).value, ps, next)
    case Infix(left, op, ps) =>
      && p < Precedence(op) && BoundSpine(p, left, Some(op))
      && InfixForm(op).Some? && Fits(InfixForm(op).value, ps, next)
  }

  /** The parts are what the steps ask for, one for one. */
  predicate Fits(items: seq<Item>, ps: seq<Part>, next: Option<Token>)
    decreases ps, 1
  {
    if items == [] || ps == [] then items == [] && ps == []
    else FitsOne(items[0], ps[0], Ahead(FlattenAll(ps[1..]), next)) && Fits(items[1..], ps[1..], next)
  }

  predicate FitsOne(i: Item, p: Part, next: Option<Token>)
    decreases p, 2
  {
    match i
    case Lit(k) => p == Leaf(Sym(k))
    case Ident => p.Leaf? && p.t.Id?
    case SubExpr(q) => p.Sub? && Bound(q, p.e, next)
    case TypeRef => p.Rep? && p.ps != [] && p.ps[0].Leaf? && p.ps[0].t.Id? && Fits(TYPE_TAIL, p.ps[1..], next)
    case Either(k, yes, no) =>
      if p.Taken? then p.ps != [] && p.ps[0] == Leaf(Sym(k)) && Fits(yes, p.ps[1..], next)
      else p.Skipped? && Ahead(FlattenAll(p.ps), next) != Some(Sym(k)) && Fits(no, p.ps, next)
    case While(k, body) => p.Rep? && FitsWhile(k, body, p.ps, next)
    case Until(k) => p.Rep? && FitsUntil(k, p.ps, next)
    case Sep(close, body) => p.Rep? && FitsSep(close, body, p.ps, next)
  }

  predicate FitsWhile(k: Kind, body: seq<Item>, ps: seq<Part>, next: Option<Token>)
    decreases ps, 0
  {
    if ps == [] then next != Some(Sym(k))
    else
      && ps[0].Rep? && ps[0].ps != [] && ps[0].ps[0] == Leaf(Sym(k))
      && Fits(body, ps[0].ps[1..], Ahead(FlattenAll(ps[1..]), next)) && FitsWhile(k, body, ps[1..], next)
  }

  predicate FitsUntil(k: Kind, ps: seq<Part>, next: Option<Token>)
    decreases ps, 0
  {
    if ps == [] then false
    else if ps[0] == Leaf(Sym(k)) then |ps| == 1
    else
      && FitsOne(EXPR, ps[0], Ahead(FlattenAll(ps[1..]), next)) && FitsUntil(k, ps[1..], next)
      && First(FlattenPart(ps[0])) != Some(Sym(k))
  }

  /** Members alternate with their separators; the last one is followed by `close`. */
  predicate FitsSep(close: Kind, body: seq<Item>, ps: seq<Part>, next: Option<Token>)
    decreases ps, 0
  {
    if |ps| < 2 then false
    else
      && FitsMember(body, ps[0], Ahead(FlattenAll(ps[1..]), next))
      && if |ps| == 2 then ps[1] == Leaf(Sym(close)) else close != Comma && ps[1] == Leaf(Sym(Comma)) && FitsSep(close, body, ps[2..], next)
  }

  predicate FitsMember(body: seq<Item>, p: Part, next: Option<Token>)
    decreases p, 2
  {
    p.Rep? && Fits(body, p.ps, next)
  }

  function FlattenModule(cs: seq<Cst>): seq<Token> {
    if cs == [] then [] else Flatten(cs[0]) + FlattenModule(cs[1..])
  }

  predicate BoundModule(cs: seq<Cst>) {
    cs == [] || (Bound(0, cs[0], First(FlattenModule(cs[1..]))) && BoundModule(cs[1..]))
  }
}
