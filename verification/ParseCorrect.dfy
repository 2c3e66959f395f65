/** The parser against the grammar: what it returns is the well bound tree of the tokens it
    consumed, every well bound tree is returned, and no tokens have two. */
module ParseCorrect {
  import opened Common
  import opened Tokens
  import opened Grammar
  import opened Parse

  // ----- soundness -----

  predicate SoundAll(items: seq<Item>, ts: seq<Token>, ps: seq<Part>, rest: seq<Token>) {
    ts == FlattenAll(ps) + rest && Fits(items, ps, First(rest))
  }

  predicate SoundOne(i: Item, ts: seq<Token>, p: Part, rest: seq<Token>) {
    ts == FlattenPart(p) + rest && FitsOne(i, p, First(rest))
  }

  lemma AheadFirst(ts: seq<Token>, rest: seq<Token>)
    ensures First(ts + rest) == Ahead(ts, First(rest))
  {
  }

  lemma FlattenCons(p: Part, ps: seq<Part>)
    ensures FlattenAll([p] + ps) == FlattenPart(p) + FlattenAll(ps)
  {
    assert ([p] + ps)[1..] == ps;
  }

  lemma {:induction false} SoundExpr(p: int, ts: seq<Token>)
    requires ParseExpr(p, ts).Ok?
    ensures var r := ParseExpr(p, ts); ts == Flatten(r.value) + r.rest && Bound(p, r.value, First(r.rest))
    decreases |ts|, 3
  {
    hide Fits, ParseItems, PrefixForm;
    var items := PrefixForm(ts[0]).value;
    SoundItems(items, ts[1..]);
    var r := ParseItems(items, ts[1..]);
    SoundLoop(p, Prefix(ts[0], r.value), r.rest);
    assert [ts[0]] + ts[1..] == ts;
    assert [ts[0]] + FlattenAll(r.value) + r.rest == ts;
  }

  lemma {:induction false} SoundLoop(p: int, left: Cst, ts: seq<Token>)
    requires ParseLoop(p, left, ts).Ok? && BoundSpine(p, left, First(ts))
    ensures var r := ParseLoop(p, left, ts); Flatten(left) + ts == Flatten(r.value) + r.rest && Bound(p, r.value, First(r.rest))
    decreases |ts|, 2
  {
    hide Fits, ParseItems, InfixForm, FlattenAll, Flatten, BoundSpine;
    if ts != [] && p < Precedence(ts[0]) {
      var items := InfixForm(ts[0]).value;
      SoundItems(items, ts[1..]);
      var r := ParseItems(items, ts[1..]);
      SpineStep(p, left, ts, r.value, r.rest);
      SoundLoop(p, Infix(left, ts[0], r.value), r.rest);
    }
  }

  /** The operator and what follows it join the spine. */
  lemma SpineStep(p: int, left: Cst, ts: seq<Token>, ps: seq<Part>, rest: seq<Token>)
    requires ts != [] && p < Precedence(ts[0]) && BoundSpine(p, left, Some(ts[0])) && InfixForm(ts[0]).Some?
    requires Fits(InfixForm(ts[0]).value, ps, First(rest)) && ts[1..] == FlattenAll(ps) + rest
    ensures BoundSpine(p, Infix(left, ts[0], ps), First(rest))
        && Flatten(left) + ts == Flatten(Infix(left, ts[0], ps)) + rest
  {
    hide Fits, FlattenAll;
    assert ts == [ts[0]] + (FlattenAll(ps) + rest);
    assert Flatten(Infix(left, ts[0], ps)) + rest == Flatten(left) + ([ts[0]] + (FlattenAll(ps) + rest));
  }

  lemma {:induction false} SoundItems(items: seq<Item>, ts: seq<Token>)
    requires ParseItems(items, ts).Ok?
    ensures var r := ParseItems(items, ts); SoundAll(items, ts, r.value, r.rest)
    decreases |ts|, 5, items, 0
  {
    hide FitsOne, ParseItem, FlattenPart;
    if items != [] {
      SoundItem(items[0], ts);
      var r := ParseItem(items[0], ts);
      SoundItems(items[1..], r.rest);
      var r2 := ParseItems(items[1..], r.rest);
      FlattenCons(r.value, r2.value);
      AheadFirst(FlattenAll(r2.value), r2.rest);
      assert ([r.value] + r2.value)[1..] == r2.value;
    }
  }

  lemma {:induction false} SoundItem(i: Item, ts: seq<Token>)
    requires ParseItem(i, ts).Ok?
    ensures var r := ParseItem(i, ts); SoundOne(i, ts, r.value, r.rest)
    decreases |ts|, 5, i, 0
  {
    hide Fits, FitsWhile, FitsUntil, FitsSep, Bound, ParseItems, ParseExpr, ParseWhile, ParseUntil, ParseSep,
         FlattenAll, Flatten, Stops;
    match i
    case SubExpr(p) => SoundExpr(p, ts);
    case TypeRef =>
      SoundItems(TYPE_TAIL, ts[1..]);
      SoundHead(ts[0], ts, ParseItems(TYPE_TAIL, ts[1..]));
    case Either(k, yes, no) =>
      if Next(k, ts) {
        SoundItems(yes, ts[1..]);
        SoundHead(ts[0], ts, ParseItems(yes, ts[1..]));
      } else {
        SoundItems(no, ts);
        AheadFirst(FlattenAll(ParseItems(no, ts).value), ParseItems(no, ts).rest);
      }
    case While(k, body) => SoundWhile(k, body, ts);
    case Until(k) => SoundUntil(k, ts);
    case Sep(close, body) => SoundSep(close, body, ts);
    case _ =>
  }

  lemma SoundHead(t: Token, ts: seq<Token>, r: Result<seq<Part>>)
    requires r.Ok? && ts != [] && t == ts[0] && ts[1..] == FlattenAll(r.value) + r.rest
    ensures ts == FlattenAll([Leaf(t)] + r.value) + r.rest
    ensures ([Leaf(t)] + r.value)[1..] == r.value && ([Leaf(t)] + r.value)[0] == Leaf(t)
  {
    FlattenCons(Leaf(t), r.value);
    assert ts == [t] + (FlattenAll(r.value) + r.rest);
  }

  /** One more part in front of what the rest of a list consumed. */
  lemma ConsTokens(p: Part, ps: seq<Part>, ts: seq<Token>, mid: seq<Token>, rest: seq<Token>)
    requires ts == FlattenPart(p) + mid && mid == FlattenAll(ps) + rest
    ensures ts == FlattenAll([p] + ps) + rest && ([p] + ps)[1..] == ps && ([p] + ps)[0] == p
    ensures First(mid) == Ahead(FlattenAll(ps), First(rest))
  {
    hide FlattenPart, FlattenAll;
    FlattenCons(p, ps);
    AheadFirst(FlattenAll(ps), rest);
  }

  lemma {:induction false} SoundWhile(k: Kind, body: seq<Item>, ts: seq<Token>)
    requires ParseWhile(k, body, ts).Ok?
    ensures var r := ParseWhile(k, body, ts); ts == FlattenAll(r.value) + r.rest && FitsWhile(k, body, r.value, First(r.rest))
    decreases |ts|, 5, body, 1
  {
    hide Fits, ParseItems, FlattenAll;
    if Next(k, ts) {
      SoundItems(body, ts[1..]);
      var r := ParseItems(body, ts[1..]);
      SoundHead(ts[0], ts, r);
      SoundWhile(k, body, r.rest);
      var r2 := ParseWhile(k, body, r.rest);
      ConsTokens(Rep([Leaf(ts[0])] + r.value), r2.value, ts, r.rest, r2.rest);
    } else {
      NoTokens(ts);
    }
  }

  lemma NoTokens(ts: seq<Token>)
    ensures FlattenAll([]) + ts == ts
  {
  }

  lemma FlattenOne(p: Part)
    ensures FlattenAll([p]) == FlattenPart(p)
  {
    hide FlattenPart;
    assert [p][1..] == [];
  }

  lemma {:induction false} SoundUntil(k: Kind, ts: seq<Token>)
    requires ParseUntil(k, ts).Ok?
    ensures var r := ParseUntil(k, ts); ts == FlattenAll(r.value) + r.rest && FitsUntil(k, r.value, First(r.rest))
    decreases |ts|, 4
  {
    hide Fits, ParseExpr, Bound, FlattenAll, Flatten;
    if Next(k, ts) {
      FlattenOne(Leaf(ts[0]));
    } else {
      SoundExpr(0, ts);
      var r := ParseExpr(0, ts);
      SoundUntil(k, r.rest);
      var r2 := ParseUntil(k, r.rest);
      ConsTokens(Sub(r.value), r2.value, ts, r.rest, r2.rest);
      FirstOf(r.value, r.rest);
    }
  }

  lemma FirstOf(c: Cst, rest: seq<Token>)
    ensures Flatten(c) != [] && First(Flatten(c) + rest) == First(Flatten(c))
  {
    if c.Infix? { FirstOf(c.left, rest); }
  }

  lemma {:induction false} SoundSep(close: Kind, body: seq<Item>, ts: seq<Token>)
    requires ParseSep(close, body, ts).Ok?
    ensures var r := ParseSep(close, body, ts); ts == FlattenAll(r.value) + r.rest && FitsSep(close, body, r.value, First(r.rest))
    decreases |ts|, 5, body, 1
  {
    hide Fits, ParseItems, FlattenAll;
    SoundItems(body, ts);
    var r := ParseItems(body, ts);
    var m, s := Rep(r.value), Leaf(r.rest[0]);
    assert r.rest == [s.t] + r.rest[1..];
    if Next(close, r.rest) {
      NoTokens(r.rest[1..]);
      SoundMember(close, body, ts, m, s, [], r.rest[1..]);
      assert [m, s] + [] == [m, s];
    } else {
      SoundSep(close, body, r.rest[1..]);
      var r2 := ParseSep(close, body, r.rest[1..]);
      SepNotEmpty(close, body, r2.value, First(r2.rest));
      SoundMember(close, body, ts, m, s, r2.value, r2.rest);
    }
  }

  lemma SepNotEmpty(close: Kind, body: seq<Item>, ps: seq<Part>, next: Option<Token>)
    requires FitsSep(close, body, ps, next)
    ensures ps != []
  {
  }

  lemma SoundMember(close: Kind, body: seq<Item>, ts: seq<Token>, m: Part, s: Part, more: seq<Part>, rest: seq<Token>)
    requires m.Rep? && s.Leaf? && ts == FlattenAll(m.ps) + ([s.t] + (FlattenAll(more) + rest))
        && Fits(body, m.ps, Some(s.t))
    requires if more == [] then s == Leaf(Sym(close)) else close != Comma && s == Leaf(Sym(Comma)) && FitsSep(close, body, more, First(rest))
    ensures ts == FlattenAll([m, s] + more) + rest && FitsSep(close, body, [m, s] + more, First(rest))
  {
    hide Fits, FlattenAll;
    SepTokens(m, s, more);
    assert ([m, s] + more)[2..] == more;
  }

  lemma SepTokens(m: Part, s: Part, more: seq<Part>)
    requires s.Leaf?
    ensures FlattenAll([m, s] + more) == FlattenPart(m) + ([s.t] + FlattenAll(more))
    ensures FlattenAll(([m, s] + more)[1..]) == [s.t] + FlattenAll(more)
  {
    assert ([m, s] + more)[1..] == [s] + more;
    FlattenCons(s, more);
    assert [m, s] + more == [m] + ([s] + more);
    FlattenCons(m, [s] + more);
  }

  // ----- completeness -----

  lemma {:induction false} CompleteExpr(p: int, c: Cst, rest: seq<Token>)
    requires Bound(p, c, First(rest))
    ensures ParseExpr(p, Flatten(c) + rest) == Ok(c, rest)
    decreases c, 1
  {
    hide BoundSpine, ParseExpr, Flatten;
    CompleteSpine(p, c, rest);
    LoopStops(p, c, rest);
  }

  lemma LoopStops(p: int, c: Cst, rest: seq<Token>)
    requires Stops(p, First(rest))
    ensures ParseLoop(p, c, rest) == Ok(c, rest)
  {
  }

  lemma LoopSteps(p: int, left: Cst, op: Token, ps: seq<Part>, rest: seq<Token>)
    requires p < Precedence(op) && InfixForm(op).Some?
        && ParseItems(InfixForm(op).value, FlattenAll(ps) + rest) == Ok(ps, rest)
    ensures ParseLoop(p, left, [op] + (FlattenAll(ps) + rest)) == ParseLoop(p, Infix(left, op, ps), rest)
  {
    hide ParseItems, FlattenAll, InfixForm, KindPrecedence;
    var ts := [op] + (FlattenAll(ps) + rest);
    assert ts[1..] == FlattenAll(ps) + rest;
  }

  lemma ExprStarts(p: int, head: Token, ps: seq<Part>, rest: seq<Token>)
    requires PrefixForm(head).Some? && ParseItems(PrefixForm(head).value, FlattenAll(ps) + rest) == Ok(ps, rest)
    ensures ParseExpr(p, [head] + (FlattenAll(ps) + rest)) == ParseLoop(p, Prefix(head, ps), rest)
  {
    hide ParseItems, FlattenAll, PrefixForm, ParseLoop;
    var ts := [head] + (FlattenAll(ps) + rest);
    assert ts[1..] == FlattenAll(ps) + rest;
  }

  /** Parsing the tokens of a spine brings the loop to its end. */
  lemma {:induction false} CompleteSpine(p: int, c: Cst, rest: seq<Token>)
    requires BoundSpine(p, c, First(rest))
    ensures ParseExpr(p, Flatten(c) + rest) == ParseLoop(p, c, rest)
    decreases c, 0
  {
    hide Fits, ParseItems, FlattenAll, ParseLoop, ParseExpr, PrefixForm, InfixForm, KindPrecedence;
    match c
    case Prefix(head, ps) =>
      CompleteItems(PrefixForm(head).value, ps, rest);
      ExprStarts(p, head, ps, rest);
      assert Flatten(c) + rest == [head] + (FlattenAll(ps) + rest);
    case Infix(left, op, ps) =>
      CompleteItems(InfixForm(op).value, ps, rest);
      LoopSteps(p, left, op, ps, rest);
      CompleteSpine(p, left, [op] + (FlattenAll(ps) + rest));
      assert Flatten(c) + rest == Flatten(left) + ([op] + (FlattenAll(ps) + rest));
  }

  /** The tokens of a list, split before its rest. */
  lemma SplitTokens(ps: seq<Part>, rest: seq<Token>)
    requires ps != []
    ensures FlattenAll(ps) + rest == FlattenPart(ps[0]) + (FlattenAll(ps[1..]) + rest)
    ensures First(FlattenAll(ps[1..]) + rest) == Ahead(FlattenAll(ps[1..]), First(rest))
  {
    hide FlattenPart;
  }

  lemma {:induction false} CompleteItems(items: seq<Item>, ps: seq<Part>, rest: seq<Token>)
    requires Fits(items, ps, First(rest))
    ensures ParseItems(items, FlattenAll(ps) + rest) == Ok(ps, rest)
    decreases ps, 1
  {
    hide FitsOne, ParseItem, FlattenPart, FlattenAll;
    if items == [] {
      NoTokens(rest);
    } else {
      SplitTokens(ps, rest);
      CompleteItem(items[0], ps[0], FlattenAll(ps[1..]) + rest);
      CompleteItems(items[1..], ps[1..], rest);
      assert [ps[0]] + ps[1..] == ps;
    }
  }

  lemma {:induction false} CompleteItem(i: Item, p: Part, rest: seq<Token>)
    requires FitsOne(i, p, First(rest))
    ensures ParseItem(i, FlattenPart(p) + rest) == Ok(p, rest)
    decreases p, 2
  {
    hide Fits, FitsWhile, FitsUntil, FitsSep, Bound, ParseItems, ParseExpr, ParseWhile, ParseUntil, ParseSep, FlattenAll;
    match i
    case Lit(k) => assert ([p.t] + rest)[1..] == rest;
    case Ident => assert ([p.t] + rest)[1..] == rest;
    case SubExpr(q) => CompleteExpr(q, p.e, rest);
    case TypeRef =>
      SplitTokens(p.ps, rest);
      CompleteItems(TYPE_TAIL, p.ps[1..], rest);
      AfterHead(p.ps, rest);
    case Either(k, yes, no) =>
      if p.Taken? {
        SplitTokens(p.ps, rest);
        CompleteItems(yes, p.ps[1..], rest);
        AfterHead(p.ps, rest);
      } else {
        CompleteItems(no, p.ps, rest);
        AheadFirst(FlattenAll(p.ps), rest);
      }
    case While(k, body) => CompleteWhile(k, body, p.ps, rest);
    case Until(k) => CompleteUntil(k, p.ps, rest);
    case Sep(close, body) => CompleteSep(close, body, p.ps, rest);
  }

  /** A part list that begins with a token. */
  lemma AfterHead(ps: seq<Part>, rest: seq<Token>)
    requires ps != [] && ps[0].Leaf?
    ensures var ts := FlattenAll(ps) + rest;
            ts != [] && ts[0] == ps[0].t && ts[1..] == FlattenAll(ps[1..]) + rest && [Leaf(ts[0])] + ps[1..] == ps
  {
    SplitTokens(ps, rest);
    hide FlattenAll;
    assert FlattenAll(ps) + rest == [ps[0].t] + (FlattenAll(ps[1..]) + rest);
  }

  lemma {:induction false} CompleteWhile(k: Kind, body: seq<Item>, ps: seq<Part>, rest: seq<Token>)
    requires FitsWhile(k, body, ps, First(rest))
    ensures ParseWhile(k, body, FlattenAll(ps) + rest) == Ok(ps, rest)
    decreases ps, 0
  {
    hide Fits, ParseItems, FlattenAll;
    if ps == [] {
      NoTokens(rest);
    } else {
      var mid := FlattenAll(ps[1..]) + rest;
      SplitTokens(ps, rest);
      AfterHead(ps[0].ps, mid);
      CompleteItems(body, ps[0].ps[1..], mid);
      CompleteWhile(k, body, ps[1..], rest);
      assert [ps[0]] + ps[1..] == ps;
    }
  }

  lemma UntilSteps(k: Kind, c: Cst, more: seq<Part>, ts: seq<Token>, mid: seq<Token>, rest: seq<Token>)
    requires !Next(k, ts) && ParseExpr(0, ts) == Ok(c, mid) && ParseUntil(k, mid) == Ok(more, rest)
    ensures ParseUntil(k, ts) == Ok([Sub(c)] + more, rest)
  {
    hide ParseExpr;
  }

  lemma {:induction false} CompleteUntil(k: Kind, ps: seq<Part>, rest: seq<Token>)
    requires FitsUntil(k, ps, First(rest))
    ensures ParseUntil(k, FlattenAll(ps) + rest) == Ok(ps, rest)
    decreases ps, 0
  {
    hide Fits, ParseExpr, Bound, FlattenAll, Flatten;
    if ps[0] == Leaf(Sym(k)) {
      AfterHead(ps, rest);
      NoTokens(rest);
      assert ps[1..] == [] && ps == [Leaf(Sym(k))];
    } else {
      UntilMore(k, ps, rest);
    }
  }

  lemma {:induction false} UntilMore(k: Kind, ps: seq<Part>, rest: seq<Token>)
    requires FitsUntil(k, ps, First(rest)) && ps[0] != Leaf(Sym(k))
    ensures ParseUntil(k, FlattenAll(ps) + rest) == Ok(ps, rest)
    decreases ps, 0, 0
  {
    hide Fits, ParseExpr, Bound, FlattenAll, Flatten, ParseUntil;
    var mid := FlattenAll(ps[1..]) + rest;
    SplitTokens(ps, rest);
    CompletePart(0, ps[0], mid);
    CompleteUntil(k, ps[1..], rest);
    FirstOf(ps[0].e, mid);
    UntilSteps(k, ps[0].e, ps[1..], FlattenAll(ps) + rest, mid, rest);
    assert [ps[0]] + ps[1..] == ps;
  }

  lemma {:induction false} CompletePart(q: int, p: Part, rest: seq<Token>)
    requires p.Sub? && Bound(q, p.e, First(rest))
    ensures ParseExpr(q, Flatten(p.e) + rest) == Ok(p.e, rest)
    decreases p, 2
  {
    CompleteExpr(q, p.e, rest);
  }

  lemma SepSteps(close: Kind, body: seq<Item>, m: seq<Part>, s: Token, more: seq<Part>, ts: seq<Token>,
      tail: seq<Token>, rest: seq<Token>)
    requires ParseItems(body, ts) == Ok(m, [s] + tail)
    requires if more == [] then s == Sym(close) && tail == rest else close != Comma && s == Sym(Comma) && ParseSep(close, body, tail) == Ok(more, rest)
    ensures ParseSep(close, body, ts) == Ok([Rep(m), Leaf(s)] + more, rest)
  {
    hide ParseItems;
    assert ([s] + tail)[1..] == tail;
    if more == [] {
      assert [Rep(m), Leaf(s)] + more == [Rep(m), Leaf(s)];
    } else {
      SepShorter(body, ts, m, s, tail);
    }
  }

  lemma SepShorter(body: seq<Item>, ts: seq<Token>, m: seq<Part>, s: Token, tail: seq<Token>)
    requires ParseItems(body, ts) == Ok(m, [s] + tail)
    ensures |tail| < |ts|
  {
  }

  lemma {:induction false} CompleteSep(close: Kind, body: seq<Item>, ps: seq<Part>, rest: seq<Token>)
    requires FitsSep(close, body, ps, First(rest))
    ensures ParseSep(close, body, FlattenAll(ps) + rest) == Ok(ps, rest)
    decreases ps, 0
  {
    hide Fits, ParseItems, FlattenAll, ParseSep;
    var mid := FlattenAll(ps[1..]) + rest;
    var tail := FlattenAll(ps[2..]) + rest;
    SplitTokens(ps, rest);
    CompleteMember(body, ps[0], mid);
    AfterHead(ps[1..], rest);
    assert ps[1..][1..] == ps[2..] && mid == [ps[1].t] + tail;
    if |ps| == 2 {
      NoTokens(rest);
      assert ps[2..] == [];
    } else {
      CompleteSep(close, body, ps[2..], rest);
    }
    SepSteps(close, body, ps[0].ps, ps[1].t, ps[2..], FlattenAll(ps) + rest, tail, rest);
    assert ps == [ps[0], ps[1]] + ps[2..];
  }

  lemma {:induction false} CompleteMember(body: seq<Item>, p: Part, rest: seq<Token>)
    requires FitsMember(body, p, First(rest))
    ensures ParseItems(body, FlattenPart(p) + rest) == Ok(p.ps, rest)
    decreases p, 2
  {
    hide Fits, ParseItems;
    CompleteItems(body, p.ps, rest);
  }

  // ----- the parser and the grammar -----

  /** The parser returns a tree exactly when it is the well bound tree of the consumed tokens. */
  lemma ParserFindsTheBoundTree(p: int, ts: seq<Token>, c: Cst, rest: seq<Token>)
    ensures ParseExpr(p, ts) == Ok(c, rest) <==> ts == Flatten(c) + rest && Bound(p, c, First(rest))
  {
    hide Bound, Flatten, ParseExpr;
    if ParseExpr(p, ts) == Ok(c, rest) { SoundExpr(p, ts); }
    if ts == Flatten(c) + rest && Bound(p, c, First(rest)) { CompleteExpr(p, c, rest); }
  }

  /** No tokens have two well bound trees, whole or in part. */
  lemma BoundTreeIsUnique(p: int, c1: Cst, rest1: seq<Token>, c2: Cst, rest2: seq<Token>)
    requires Bound(p, c1, First(rest1)) && Bound(p, c2, First(rest2)) && Flatten(c1) + rest1 == Flatten(c2) + rest2
    ensures c1 == c2 && rest1 == rest2
  {
    hide Bound, Flatten, ParseExpr;
    CompleteExpr(p, c1, rest1);
    CompleteExpr(p, c2, rest2);
  }

  /** The same for a whole module, of which no token is left over. */
  lemma {:induction false} ModuleIsItsBoundTrees(ts: seq<Token>, cs: seq<Cst>)
    ensures ParseModule(ts) == Ok(cs, []) <==> ts == FlattenModule(cs) && BoundModule(cs)
    decreases |ts|
  {
    hide Bound, Flatten, ParseExpr;
    if ts != [] {
      if ParseModule(ts) == Ok(cs, []) {
        SoundExpr(0, ts);
        ModuleIsItsBoundTrees(ParseExpr(0, ts).rest, cs[1..]);
      }
      if ts == FlattenModule(cs) && BoundModule(cs) {
        FirstOf(cs[0], []);
        CompleteExpr(0, cs[0], FlattenModule(cs[1..]));
        ModuleIsItsBoundTrees(FlattenModule(cs[1..]), cs[1..]);
        assert [cs[0]] + cs[1..] == cs;
      }
    } else if cs != [] {
      FirstOf(cs[0], []);
    }
  }

  /** What a well bound binary expression looks like: its operator binds tighter than the context,
      the left operand at least as tight and the right one tighter; assignment is the other way
      round.  A form that ends in an open expression is never a left operand: it swallows the
      operator, so `!a && b` is `!(a && b)`, and neither is one with such a form anywhere at its right
      end, so `a && !b || c` is `a && !(b || c)`. */
  lemma OperandsBindTighter(p: int, l: Cst, k: Kind, r: Cst, next: Option<Token>)
    requires IsBinary(k) && Bound(p, Infix(l, Sym(k), [Sub(r)]), next)
    ensures p < KindPrecedence(k)
    ensures l.Infix? ==> Precedence(l.op) >= KindPrecedence(k) && l.op != Sym(OpAssign)
    ensures l.Prefix? && l.head.Sym? ==> l.head.kind !in {OpNot, OpInc, OpDec, KwIf, KwWhile, KwFunc, KwClass}
    ensures KindPrecedence(k) <= RightLevel(l)
    ensures r.Infix? ==> if k == OpAssign then Precedence(r.op) >= KindPrecedence(k) else Precedence(r.op) > KindPrecedence(k)
  {
    hide Flatten, Fits, FitsOne, Bound, BoundSpine, InfixForm, KindPrecedence, IsBinary, FlattenAll, RightLevel;
    BinaryForm(k);
    SpineParts(p, Infix(l, Sym(k), [Sub(r)]), next);
    OpenEnd(p, l, Sym(k));
    RightSpineStops(p, l, Some(Sym(k)));
    var ps := [Sub(r)];
    FitsAlone(SubExpr(RightPrecedence(k)), ps, next);
    LastPart(RightPrecedence(k), Sub(r), next);
    if r.Infix? { SpineTop(RightPrecedence(k), r, next); }
  }

  /** An expression parsed at precedence `q` at the end of a tree stops before what follows. */
  lemma {:induction false} LastStops(q: int, items: seq<Item>, ps: seq<Part>, next: Option<Token>)
    requires items != [] && items[|items| - 1] == SubExpr(q) && Fits(items, ps, next)
    ensures Stops(q, next)
    decreases items
  {
    hide Bound, Flatten, Stops;
    if |items| == 1 {
      assert FlattenAll(ps[1..]) == [];
      LastPart(q, ps[0], next);
    } else {
      assert items[1..][|items[1..]| - 1] == items[|items| - 1];
      LastStops(q, items[1..], ps[1..], next);
    }
  }

  lemma LastPart(q: int, p: Part, next: Option<Token>)
    requires FitsOne(SubExpr(q), p, next)
    ensures p.Sub? && Bound(q, p.e, next) && Stops(q, next)
  {
  }

  lemma SpineParts(p: int, c: Cst, next: Option<Token>)
    requires Bound(p, c, next) && c.Infix?
    ensures p < Precedence(c.op) && BoundSpine(p, c.left, Some(c.op)) && InfixForm(c.op).Some?
        && Fits(InfixForm(c.op).value, c.ps, next)
  {
    hide Fits, Flatten, InfixForm, Precedence;
  }

  lemma BinaryForm(k: Kind)
    requires IsBinary(k)
    ensures InfixForm(Sym(k)) == Some([SubExpr(RightPrecedence(k))]) && 1 <= KindPrecedence(k) <= 11
    ensures RightPrecedence(k) == if k == OpAssign then 0 else KindPrecedence(k)
    ensures k == OpAssign ==> KindPrecedence(k) == 1
  {
  }

  lemma FitsAlone(i: Item, ps: seq<Part>, next: Option<Token>)
    requires Fits([i], ps, next)
    ensures |ps| == 1 && FitsOne(i, ps[0], next)
  {
    hide FitsOne;
    FitsLength([i], ps, next);
    assert ps[1..] == [];
  }

  lemma SpineTop(q: int, c: Cst, next: Option<Token>)
    requires Bound(q, c, next) && c.Infix?
    ensures q < Precedence(c.op)
  {
  }

  lemma OpenEnd(p: int, l: Cst, op: Token)
    requires BoundSpine(p, l, Some(op)) && 0 < Precedence(op) <= 14
    ensures l.Infix? ==> Precedence(l.op) >= Precedence(op) && l.op != Sym(OpAssign)
    ensures l.Prefix? && l.head.Sym? ==> l.head.kind !in {OpNot, OpInc, OpDec, KwIf, KwWhile, KwFunc, KwClass}
  {
    hide Bound, Flatten, Fits;
    if l.Infix? {
      if IsBinary(l.op.kind) { LastStops(RightPrecedence(l.op.kind), InfixForm(l.op).value, l.ps, Some(op)); }
    } else if l.head.Sym? {
      var items := PrefixForm(l.head).value;
      if l.head.kind in {OpNot, OpInc, OpDec, KwWhile, KwFunc, KwClass} {
        LastStops(0, items, l.ps, Some(op));
      } else if l.head.kind == KwIf {
        IfEnd(l.ps, Some(op));
      }
    }
  }

  const TIGHT := 100

  function Least(a: int, b: int): int {
    if a < b then a else b
  }

  /** The least precedence of all expressions that end where `c` ends. */
  function RightLevel(c: Cst): int
    decreases c, 0
  {
    match c
    case Prefix(head, ps) => if PrefixForm(head).None? then TIGHT else EndLevel(PrefixForm(head).value, ps)
    case Infix(_, op, ps) => if InfixForm(op).None? then TIGHT else EndLevel(InfixForm(op).value, ps)
  }

  function EndLevel(items: seq<Item>, ps: seq<Part>): int
    decreases ps, 1
  {
    if items == [] || ps == [] then TIGHT
    else
      var rest := EndLevel(items[1..], ps[1..]);
      if FlattenAll(ps[1..]) == [] then Least(PartLevel(items[0], ps[0]), rest) else rest
  }

  /** Types, names and lists end in a token of their own. */
  function PartLevel(i: Item, p: Part): int
    decreases p, 2
  {
    match i
    case SubExpr(q) => if p.Sub? then Least(q, RightLevel(p.e)) else TIGHT
    case Either(_, yes, no) =>
      if p.Taken? && p.ps != [] then EndLevel(yes, p.ps[1..]) else if p.Skipped? then EndLevel(no, p.ps) else TIGHT
    case _ => TIGHT
  }

  /** What follows an expression binds no tighter than any expression on its right spine, however deep:
      operands, bodies and branches, and the bodies of namespaces and templates without braces. */
  lemma {:induction false} RightSpineStops(p: int, c: Cst, next: Option<Token>)
    requires BoundSpine(p, c, next)
    ensures Stops(RightLevel(c), next)
    decreases c, 0
  {
    hide Fits, PrefixForm, InfixForm, KindPrecedence, EndLevel;
    match c
    case Prefix(head, ps) => EndStops(PrefixForm(head).value, ps, next);
    case Infix(_, op, ps) => EndStops(InfixForm(op).value, ps, next);
  }

  /** `a && !b` ends in an open form. */
  lemma NotIsOpen(l: Cst, k: Kind, c: Cst)
    requires IsBinary(k)
    ensures RightLevel(Infix(l, Sym(k), [Sub(Prefix(Sym(OpNot), [Sub(c)]))])) <= 0
  {
    var n := Prefix(Sym(OpNot), [Sub(c)]);
    assert [Sub(c)][1..] == [] && [Sub(n)][1..] == [];
    assert EndLevel([EXPR], [Sub(c)]) <= 0;
    assert EndLevel([SubExpr(RightPrecedence(k))], [Sub(n)]) <= RightLevel(n);
  }

  lemma TightStops(next: Option<Token>)
    ensures Stops(TIGHT, next)
  {
  }

  lemma {:induction false} EndStops(items: seq<Item>, ps: seq<Part>, next: Option<Token>)
    requires Fits(items, ps, next)
    ensures Stops(EndLevel(items, ps), next)
    decreases ps, 1
  {
    hide FitsOne, PartLevel, KindPrecedence, FlattenAll;
    TightStops(next);
    if items != [] {
      EndStops(items[1..], ps[1..], next);
      if FlattenAll(ps[1..]) == [] { PartStops(items[0], ps[0], next); }
    }
  }

  lemma {:induction false} PartStops(i: Item, p: Part, next: Option<Token>)
    requires FitsOne(i, p, next)
    ensures Stops(PartLevel(i, p), next)
    decreases p, 2
  {
    hide Fits, FitsWhile, FitsUntil, FitsSep, BoundSpine, RightLevel, EndLevel, KindPrecedence;
    TightStops(next);
    match i
    case SubExpr(q) => RightSpineStops(q, p.e, next);
    case Either(k, yes, no) => if p.Taken? { EndStops(yes, p.ps[1..], next); } else { EndStops(no, p.ps, next); }
    case _ =>
  }

  /** Fitting, seen at one place. */
  lemma {:induction false} FitsAt(items: seq<Item>, ps: seq<Part>, next: Option<Token>, n: nat)
    requires Fits(items, ps, next) && n < |items|
    ensures |ps| == |items| && FitsOne(items[n], ps[n], Ahead(FlattenAll(ps[n + 1..]), next))
    decreases items
  {
    hide FitsOne, FlattenAll;
    if items != [] {
      FitsLength(items, ps, next);
      if n > 0 {
        assert ps[1..][n - 1 + 1..] == ps[n + 1..];
        FitsAt(items[1..], ps[1..], next, n - 1);
      }
    }
  }

  lemma {:induction false} FitsLength(items: seq<Item>, ps: seq<Part>, next: Option<Token>)
    requires Fits(items, ps, next)
    ensures |ps| == |items|
    decreases items
  {
    hide FitsOne, FlattenAll;
    if items != [] { FitsLength(items[1..], ps[1..], next); }
  }

  /** An `if` ends in its last branch, with or without an `else`. */
  lemma IfEnd(ps: seq<Part>, next: Option<Token>)
    requires Fits(PrefixForm(Sym(KwIf)).value, ps, next)
    ensures Stops(0, next)
  {
    hide Flatten, Stops, Fits, BoundSpine;
    var items := PrefixForm(Sym(KwIf)).value;
    FitsAt(items, ps, next, 3);
    FitsAt(items, ps, next, 4);
    assert ps[5..] == [] && ps[4..] == [ps[4]] && items[3] == EXPR && items[4] == Either(KwElse, [EXPR], []);
    if ps[4].Taken? {
      LastStops(0, [EXPR], ps[4].ps[1..], next);
    } else {
      FitsLength([], ps[4].ps, next);
    }
  }

  /** Statements have no separators: the next one cannot begin with `(` or `!`, which would
      continue the one before. */
  lemma {:induction false} StatementsBeginPlainly(cs: seq<Cst>, i: nat)
    requires BoundModule(cs) && 0 < i < |cs|
    ensures First(Flatten(cs[i])) !in {Some(Sym(OpenParen)), Some(Sym(OpNot))}
    decreases cs
  {
    hide BoundSpine, Flatten;
    if i == 1 {
      FirstOf(cs[1], FlattenModule(cs[1..][1..]));
    } else {
      StatementsBeginPlainly(cs[1..], i - 1);
    }
  }
}
