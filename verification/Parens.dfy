/** Putting parentheses into a concrete tree where they are needed and nowhere else, so that it becomes
    well bound. */
module Parens {
  import opened Common
  import opened Tokens
  import opened Grammar
  import opened Parse
  import opened ParseCorrect

  // ----- trees of the right shape -----

  /** The parts are of the kinds the steps ask for; how tightly operators bind, and what follows, does not
      matter.  The bodies of namespaces and templates are in braces. */
  predicate Shaped(c: Cst)
    decreases c, 0
  {
    match c
    case Prefix(head, ps) => PrefixForm(head).Some? && ShapedAll(PrefixForm(head).value, ps)
    case Infix(left, op, ps) => Shaped(left) && InfixForm(op).Some? && ShapedAll(InfixForm(op).value, ps)
  }

  predicate ShapedAll(items: seq<Item>, ps: seq<Part>)
    decreases ps, 1
  {
    if items == [] || ps == [] then items == [] && ps == []
    else ShapedOne(items[0], ps[0]) && ShapedAll(items[1..], ps[1..])
  }

  predicate ShapedOne(i: Item, p: Part)
    decreases p, 2
  {
    match i
    case Lit(k) => p == Leaf(Sym(k))
    case Ident => p.Leaf? && p.t.Id?
    case SubExpr(_) => p.Sub? && Shaped(p.e)
    case TypeRef => p.Rep? && p.ps != [] && p.ps[0].Leaf? && p.ps[0].t.Id? && ShapedAll(TYPE_TAIL, p.ps[1..])
    case Either(k, yes, no) =>
      if p.Taken? then p.ps != [] && p.ps[0] == Leaf(Sym(k)) && ShapedAll(yes, p.ps[1..])
      else i != BLOCK && p.Skipped? && ShapedAll(no, p.ps)
    case While(k, body) => p.Rep? && ShapedWhile(k, body, p.ps)
    case Until(k) => p.Rep? && ShapedUntil(k, p.ps)
    case Sep(close, body) => p.Rep? && ShapedSep(close, body, p.ps)
  }

  predicate ShapedWhile(k: Kind, body: seq<Item>, ps: seq<Part>)
    decreases ps, 0
  {
    ps == [] || (ShapedRound(k, body, ps[0]) && ShapedWhile(k, body, ps[1..]))
  }

  predicate ShapedRound(k: Kind, body: seq<Item>, p: Part)
    decreases p, 2
  {
    p.Rep? && p.ps != [] && p.ps[0] == Leaf(Sym(k)) && ShapedAll(body, p.ps[1..])
  }

  predicate ShapedUntil(k: Kind, ps: seq<Part>)
    decreases ps, 0
  {
    ps != [] && if ps[0] == Leaf(Sym(k)) then |ps| == 1 else ShapedOne(EXPR, ps[0]) && ShapedUntil(k, ps[1..])
  }

  predicate ShapedSep(close: Kind, body: seq<Item>, ps: seq<Part>)
    decreases ps, 0
  {
    && |ps| >= 2 && ShapedMember(body, ps[0])
    && if |ps| == 2 then ps[1] == Leaf(Sym(close)) else close != Comma && ps[1] == Leaf(Sym(Comma)) && ShapedSep(close, body, ps[2..])
  }

  predicate ShapedMember(body: seq<Item>, p: Part)
    decreases p, 2
  {
    p.Rep? && ShapedAll(body, p.ps)
  }

  // ----- parentheses -----

  const CLOSE := Some(Sym(CloseParen))

  function Paren(c: Cst): Cst {
    Prefix(Sym(OpenParen), [Sub(c), Leaf(Sym(CloseParen))])
  }

  /** `c` as an expression at precedence `q` with `next` after it: as it is if that is well bound, in
      parentheses if not. */
  function Guard(q: int, c: Cst, next: Option<Token>): Cst
    decreases c, 3
  {
    if Bound(q, Inside(q, c, next), next) then Inside(q, c, next) else Paren(Inside(0, c, CLOSE))
  }

  /** The left operand of `op`, on a spine at precedence `p`. */
  function GuardLeft(p: int, left: Cst, op: Token): Cst
    decreases left, 3
  {
    if BoundSpine(p, Inside(p, left, Some(op)), Some(op)) then Inside(p, left, Some(op)) else Paren(Inside(0, left, CLOSE))
  }

  /** `c` with its parts guarded. */
  function Inside(p: int, c: Cst, next: Option<Token>): Cst
    decreases c, 2
  {
    match c
    case Prefix(head, ps) => if PrefixForm(head).None? then c else Prefix(head, GuardAll(PrefixForm(head).value, ps, next))
    case Infix(left, op, ps) =>
      Infix(GuardLeft(p, left, op), op, if InfixForm(op).None? then ps else GuardAll(InfixForm(op).value, ps, next))
  }

  function GuardAll(items: seq<Item>, ps: seq<Part>, next: Option<Token>): (r: seq<Part>)
    ensures |r| == |ps|
    decreases ps, 1
  {
    if items == [] || ps == [] then ps
    else
      var rest := GuardAll(items[1..], ps[1..], next);
      [GuardOne(items[0], ps[0], Ahead(FlattenAll(rest), next))] + rest
  }

  function GuardOne(i: Item, p: Part, next: Option<Token>): Part
    decreases p, 2
  {
    match i
    case SubExpr(q) => if p.Sub? then Sub(Guard(q, p.e, next)) else p
    case TypeRef => if p.Rep? && p.ps != [] then Rep([p.ps[0]] + GuardAll(TYPE_TAIL, p.ps[1..], next)) else p
    case Either(_, yes, no) =>
      if p.Taken? && p.ps != [] then Taken([p.ps[0]] + GuardAll(yes, p.ps[1..], next))
      else if p.Skipped? then Skipped(GuardAll(no, p.ps, next))
      else p
    case While(_, body) => if p.Rep? then Rep(GuardWhile(body, p.ps, next)) else p
    case Until(_) => if p.Rep? then Rep(GuardUntil(p.ps, next)) else p
    case Sep(_, body) => if p.Rep? then Rep(GuardSep(body, p.ps, next)) else p
    case _ => p
  }

  function GuardWhile(body: seq<Item>, ps: seq<Part>, next: Option<Token>): (r: seq<Part>)
    ensures |r| == |ps|
    decreases ps, 0
  {
    if ps == [] then []
    else
      var rest := GuardWhile(body, ps[1..], next);
      [GuardRound(body, ps[0], Ahead(FlattenAll(rest), next))] + rest
  }

  /** What is repeated begins with the token that was looked for. */
  function GuardRound(body: seq<Item>, p: Part, next: Option<Token>): Part
    decreases p, 2
  {
    if p.Rep? && p.ps != [] then Rep([p.ps[0]] + GuardAll(body, p.ps[1..], next)) else p
  }

  function GuardUntil(ps: seq<Part>, next: Option<Token>): (r: seq<Part>)
    ensures |r| == |ps|
    decreases ps, 0
  {
    if ps == [] then []
    else
      var rest := GuardUntil(ps[1..], next);
      [GuardOne(EXPR, ps[0], Ahead(FlattenAll(rest), next))] + rest
  }

  function GuardSep(body: seq<Item>, ps: seq<Part>, next: Option<Token>): (r: seq<Part>)
    ensures |r| == |ps|
    decreases ps, 0
  {
    if |ps| < 2 then ps
    else
      var rest := [ps[1]] + GuardSep(body, ps[2..], next);
      [GuardMember(body, ps[0], Ahead(FlattenAll(rest), next))] + rest
  }

  function GuardMember(body: seq<Item>, p: Part, next: Option<Token>): Part
    decreases p, 2
  {
    if p.Rep? then Rep(GuardAll(body, p.ps, next)) else p
  }

  // ----- statements -----

  /** Does a statement begin with what would continue the one before it? */
  predicate Begins(p: Part) {
    p.Sub? && First(FlattenPart(p)) in {Some(Sym(OpenParen)), Some(Sym(OpNot))}
  }

  /** In every block no statement but the first begins with an opening parenthesis or `!`. */
  predicate Listed(c: Cst)
    decreases c, 0
  {
    match c
    case Prefix(head, ps) => PrefixForm(head).Some? ==> ListedAll(PrefixForm(head).value, ps)
    case Infix(left, op, ps) => Listed(left) && (InfixForm(op).Some? ==> ListedAll(InfixForm(op).value, ps))
  }

  predicate ListedAll(items: seq<Item>, ps: seq<Part>)
    decreases ps, 1
  {
    items == [] || ps == [] || (ListedOne(items[0], ps[0]) && ListedAll(items[1..], ps[1..]))
  }

  predicate ListedOne(i: Item, p: Part)
    decreases p, 2
  {
    match i
    case SubExpr(_) => p.Sub? ==> Listed(p.e)
    case TypeRef => p.Rep? && p.ps != [] ==> ListedAll(TYPE_TAIL, p.ps[1..])
    case Either(_, yes, no) =>
      if p.Taken? && p.ps != [] then ListedAll(yes, p.ps[1..]) else p.Skipped? ==> ListedAll(no, p.ps)
    case While(_, body) => p.Rep? ==> ListedWhile(body, p.ps)
    case Until(_) => p.Rep? ==> ListedUntil(p.ps)
    case Sep(_, body) => p.Rep? ==> ListedSep(body, p.ps)
    case _ => true
  }

  predicate ListedWhile(body: seq<Item>, ps: seq<Part>)
    decreases ps, 0
  {
    ps == [] || (ListedRound(body, ps[0]) && ListedWhile(body, ps[1..]))
  }

  predicate ListedRound(body: seq<Item>, p: Part)
    decreases p, 2
  {
    p.Rep? && p.ps != [] ==> ListedAll(body, p.ps[1..])
  }

  predicate ListedUntil(ps: seq<Part>)
    decreases ps, 0
  {
    ps == [] || (ListedOne(EXPR, ps[0]) && ListedUntil(ps[1..]) && (|ps| > 1 ==> !Begins(GuardUntil(ps[1..], None)[0])))
  }

  predicate ListedSep(body: seq<Item>, ps: seq<Part>)
    decreases ps, 0
  {
    |ps| < 2 || (ListedMember(body, ps[0]) && ListedSep(body, ps[2..]))
  }

  predicate ListedMember(body: seq<Item>, p: Part)
    decreases p, 2
  {
    p.Rep? ==> ListedAll(body, p.ps)
  }
}
