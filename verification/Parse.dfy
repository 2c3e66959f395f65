/** The Pratt parser as functions on the tokens that are left. */
module Parse {
  import opened Common
  import opened Tokens
  import opened Grammar

  /** Why a parse was aborted. */
  datatype Abort = UnexpectedEnd | SurpriseToken | UnexpectedToken

  datatype Result<+T> = Ok(value: T, rest: seq<Token>) | Aborted(why: Abort)

  predicate Next(k: Kind, ts: seq<Token>) {
    ts != [] && ts[0] == Sym(k)
  }

  function ParseExpr(p: int, ts: seq<Token>): (r: Result<Cst>)
    ensures r.Ok? ==> |r.rest| < |ts|
    decreases |ts|, 3
  {
    if ts == [] then Aborted(UnexpectedEnd)
    else if PrefixForm(ts[0]).None? then Aborted(SurpriseToken)
    else
      match ParseItems(PrefixForm(ts[0]).value, ts[1..])
      case Aborted(why) => Aborted(why)
      case Ok(ps, rest) => ParseLoop(p, Prefix(ts[0], ps), rest)
  }

  function ParseLoop(p: int, left: Cst, ts: seq<Token>): (r: Result<Cst>)
    ensures r.Ok? ==> |r.rest| <= |ts|
    decreases |ts|, 2
  {
    if ts == [] || Precedence(ts[0]) <= p then Ok(left, ts)
    else if InfixForm(ts[0]).None? then Aborted(SurpriseToken)
    else
      match ParseItems(InfixForm(ts[0]).value, ts[1..])
      case Aborted(why) => Aborted(why)
      case Ok(ps, rest) => ParseLoop(p, Infix(left, ts[0], ps), rest)
  }

  function ParseItems(items: seq<Item>, ts: seq<Token>): (r: Result<seq<Part>>)
    ensures r.Ok? ==> |r.rest| <= |ts|
    decreases |ts|, 5, items, 0
  {
    if items == [] then Ok([], ts)
    else
      match ParseItem(items[0], ts)
      case Aborted(why) => Aborted(why)
      case Ok(p, rest) =>
        match ParseItems(items[1..], rest)
        case Aborted(why) => Aborted(why)
        case Ok(ps, rest2) => Ok([p] + ps, rest2)
  }

  function ParseItem(i: Item, ts: seq<Token>): (r: Result<Part>)
    ensures r.Ok? ==> |r.rest| <= |ts|
    decreases |ts|, 5, i, 0
  {
    match i
    case Lit(k) => if Next(k, ts) then Ok(Leaf(ts[0]), ts[1..]) else Aborted(UnexpectedToken)
    case Ident => if ts != [] && ts[0].Id? then Ok(Leaf(ts[0]), ts[1..]) else Aborted(UnexpectedToken)
    case SubExpr(p) =>
      (match ParseExpr(p, ts)
       case Aborted(why) => Aborted(why)
       case Ok(c, rest) => Ok(Sub(c), rest))
    case TypeRef =>
      if ts == [] || !ts[0].Id? then Aborted(UnexpectedToken)
      else
        (match ParseItems(TYPE_TAIL, ts[1..])
         case Aborted(why) => Aborted(why)
         case Ok(ps, rest) => Ok(Rep([Leaf(ts[0])] + ps), rest))
    case Either(k, yes, no) =>
      if Next(k, ts) then
        (match ParseItems(yes, ts[1..])
         case Aborted(why) => Aborted(why)
         case Ok(ps, rest) => Ok(Taken([Leaf(ts[0])] + ps), rest))
      else
        (match ParseItems(no, ts)
         case Aborted(why) => Aborted(why)
         case Ok(ps, rest) => Ok(Skipped(ps), rest))
    case While(k, body) =>
      (match ParseWhile(k, body, ts)
       case Aborted(why) => Aborted(why)
       case Ok(ps, rest) => Ok(Rep(ps), rest))
    case Until(k) =>
      (match ParseUntil(k, ts)
       case Aborted(why) => Aborted(why)
       case Ok(ps, rest) => Ok(Rep(ps), rest))
    case Sep(close, body) =>
      (match ParseSep(close, body, ts)
       case Aborted(why) => Aborted(why)
       case Ok(ps, rest) => Ok(Rep(ps), rest))
  }

  function ParseWhile(k: Kind, body: seq<Item>, ts: seq<Token>): (r: Result<seq<Part>>)
    ensures r.Ok? ==> |r.rest| <= |ts|
    decreases |ts|, 5, body, 1
  {
    if !Next(k, ts) then Ok([], ts)
    else
      match ParseItems(body, ts[1..])
      case Aborted(why) => Aborted(why)
      case Ok(ps, rest) =>
        match ParseWhile(k, body, rest)
        case Aborted(why) => Aborted(why)
        case Ok(more, rest2) => Ok([Rep([Leaf(ts[0])] + ps)] + more, rest2)
  }

  function ParseUntil(k: Kind, ts: seq<Token>): (r: Result<seq<Part>>)
    ensures r.Ok? ==> |r.rest| <= |ts|
    decreases |ts|, 4
  {
    if Next(k, ts) then Ok([Leaf(ts[0])], ts[1..])
    else
      match ParseExpr(0, ts)
      case Aborted(why) => Aborted(why)
      case Ok(c, rest) =>
        match ParseUntil(k, rest)
        case Aborted(why) => Aborted(why)
        case Ok(more, rest2) => Ok([Sub(c)] + more, rest2)
  }

  function ParseSep(close: Kind, body: seq<Item>, ts: seq<Token>): (r: Result<seq<Part>>)
    ensures r.Ok? ==> |r.rest| <= |ts|
    decreases |ts|, 5, body, 1
  {
    match ParseItems(body, ts)
    case Aborted(why) => Aborted(why)
    case Ok(ps, rest) =>
      if Next(close, rest) then Ok([Rep(ps), Leaf(rest[0])], rest[1..])
      else if !Next(Comma, rest) then Aborted(UnexpectedToken)
      else
        match ParseSep(close, body, rest[1..])
        case Aborted(why) => Aborted(why)
        case Ok(more, rest2) => Ok([Rep(ps), Leaf(rest[0])] + more, rest2)
  }

  /** A module is the expressions up to the end of input. */
  function ParseModule(ts: seq<Token>): Result<seq<Cst>>
    decreases |ts|
  {
    if ts == [] then Ok([], [])
    else
      match ParseExpr(0, ts)
      case Aborted(why) => Aborted(why)
      case Ok(c, rest) =>
        match ParseModule(rest)
        case Aborted(why) => Aborted(why)
        case Ok(cs, rest2) => Ok([c] + cs, rest2)
  }
}
