/** Guarding a tree makes it well bound exactly when its statements begin plainly. */
module Guarding {
  import opened Common
  import opened Tokens
  import opened Grammar
  import opened Parse
  import opened ParseCorrect
  import opened Parens
  import opened Lookahead

  // ----- first tokens -----

  lemma {:induction false} GuardHead(q: int, c: Cst, next: Option<Token>)
    requires Shaped(c)
    ensures Flatten(Guard(q, c, next)) != [] && PrefixForm(Flatten(Guard(q, c, next))[0]).Some?
    decreases c, 3
  {
    hide Bound, GuardAll, FlattenAll, ShapedAll;
    InsideHead(q, c, next);
  }

  lemma {:induction false} InsideHead(p: int, c: Cst, next: Option<Token>)
    requires Shaped(c)
    ensures Flatten(Inside(p, c, next)) != [] && PrefixForm(Flatten(Inside(p, c, next))[0]).Some?
    decreases c, 2
  {
    hide BoundSpine, GuardAll, FlattenAll, ShapedAll;
    if c.Infix? { InsideHead(p, c.left, Some(c.op)); }
  }

  lemma {:induction false} GuardStarts(items: seq<Item>, ps: seq<Part>, next: Option<Token>)
    requires ShapedAll(items, ps) && Decided(items)
    ensures var ts := FlattenAll(GuardAll(items, ps, next)); if ts == [] then AllMayBeEmpty(items) else StartsAll(items, ts[0])
    decreases ps, 1
  {
    hide ShapedOne, DecidedOne, EndsBefore, Starts, MayBeEmpty, FlattenPart, GuardOne;
    if items != [] {
      var rest := GuardAll(items[1..], ps[1..], next);
      var nxt := Ahead(FlattenAll(rest), next);
      GuardStarts(items[1..], ps[1..], next);
      GuardStartsOne(items[0], ps[0], nxt);
      FlattenCons(GuardOne(items[0], ps[0], nxt), rest);
    }
  }

  lemma {:induction false} GuardStartsOne(i: Item, p: Part, next: Option<Token>)
    requires ShapedOne(i, p) && DecidedOne(i)
    ensures var ts := FlattenPart(GuardOne(i, p, next)); if ts == [] then MayBeEmpty(i) else Starts(i, ts[0])
    decreases p, 2
  {
    hide ShapedAll, Decided, EndsAll, StartsAll, Guard, GuardAll, FlattenAll, Flatten, Shaped, PrefixForm;
    match i
    case SubExpr(q) => GuardHead(q, p.e, next);
    case TypeRef => FlattenCons(p.ps[0], GuardAll(TYPE_TAIL, p.ps[1..], next));
    case Either(k, yes, no) =>
      if p.Taken? { FlattenCons(p.ps[0], GuardAll(yes, p.ps[1..], next)); } else { GuardStarts(no, p.ps, next); }
    case While(k, body) => RoundStarts(k, body, p.ps, next);
    case Until(k) => StatementStarts(k, p.ps, next);
    case Sep(close, body) => MemberStarts(close, body, p.ps, next);
    case _ =>
  }

  lemma RoundStarts(k: Kind, body: seq<Item>, ps: seq<Part>, next: Option<Token>)
    requires ShapedWhile(k, body, ps)
    ensures var ts := FlattenAll(GuardWhile(body, ps, next)); ts == [] || ts[0] == Sym(k)
  {
    hide ShapedAll, GuardAll;
    if ps != [] {
      var rest := GuardWhile(body, ps[1..], next);
      var nxt := Ahead(FlattenAll(rest), next);
      FlattenCons(GuardRound(body, ps[0], nxt), rest);
      FlattenCons(ps[0].ps[0], GuardAll(body, ps[0].ps[1..], nxt));
    } else {
      assert FlattenAll([]) == [];
    }
  }

  lemma {:induction false} StatementStarts(k: Kind, ps: seq<Part>, next: Option<Token>)
    requires ShapedUntil(k, ps)
    ensures var ts := FlattenAll(GuardUntil(ps, next)); ts != [] && (ts[0] == Sym(k) || PrefixForm(ts[0]).Some?)
    decreases ps, 0
  {
    hide Guard, Flatten, Shaped, PrefixForm;
    var rest := GuardUntil(ps[1..], next);
    var nxt := Ahead(FlattenAll(rest), next);
    FlattenCons(GuardOne(EXPR, ps[0], nxt), rest);
    if ps[0] != Leaf(Sym(k)) { GuardHead(0, ps[0].e, nxt); }
  }

  lemma {:induction false} MemberStarts(close: Kind, body: seq<Item>, ps: seq<Part>, next: Option<Token>)
    requires ShapedSep(close, body, ps) && Decided(body) && !AllMayBeEmpty(body)
    ensures var ts := FlattenAll(GuardSep(body, ps, next)); ts != [] && StartsAll(body, ts[0])
    decreases ps, 0
  {
    hide ShapedAll, Decided, GuardAll, StartsAll, AllMayBeEmpty, FlattenAll;
    var rest := [ps[1]] + GuardSep(body, ps[2..], next);
    var nxt := Ahead(FlattenAll(rest), next);
    FlattenCons(GuardMember(body, ps[0], nxt), rest);
    GuardStarts(body, ps[0].ps, nxt);
  }

  // ----- a guarded tree is well bound -----

  lemma ParenBound(p: int, c: Cst, next: Option<Token>)
    requires Bound(0, c, CLOSE)
    ensures BoundSpine(p, Paren(c), next)
  {
    hide Bound;
    var w := Leaf(Sym(CloseParen));
    assert FlattenAll([w]) == [Sym(CloseParen)] by { FlattenOne(w); }
    assert [Sub(c), w][1..] == [w] && [w][1..] == [];
    assert [EXPR, Lit(CloseParen)][1..] == [Lit(CloseParen)] && [Lit(CloseParen)][1..] == [];
    assert Fits([Lit(CloseParen)], [w], next);
    assert Fits([EXPR, Lit(CloseParen)], [Sub(c), w], next);
  }

  /** An expression that is guarded is well bound wherever it may end. */
  lemma {:induction false} GuardBound(q: int, c: Cst, next: Option<Token>)
    requires Shaped(c) && Listed(c) && Stops(q, next)
    ensures Bound(q, Guard(q, c, next), next)
    decreases c, 3
  {
    hide BoundSpine, Inside, Shaped, Listed;
    if !Bound(q, Inside(q, c, next), next) {
      CloseIsCalm();
      InsideBound(c, CLOSE);
      ParenBound(q, Inside(0, c, CLOSE), next);
    }
  }

  /** The end of the input, or a token that continues nothing. */
  predicate CalmNext(next: Option<Token>) {
    next.Some? ==> Calm(next.value)
  }

  lemma CloseIsCalm()
    ensures CalmNext(CLOSE)
  {
  }

  lemma CalmStops(next: Option<Token>)
    requires CalmNext(next)
    ensures Stops(0, next)
  {
  }

  lemma GoodEnds(items: seq<Item>, next: Option<Token>)
    requires Good(items) && CalmNext(next)
    ensures Decided(items) && EndsNext(items, next)
  {
    hide Decided, EndsAll, Calm;
  }

  predicate EndsNext(items: seq<Item>, next: Option<Token>) {
    next.Some? ==> EndsAll(items, next.value)
  }

  /** In parentheses, and before any other calm token, every operator and every open end is safe. */
  lemma {:induction false} InsideBound(c: Cst, next: Option<Token>)
    requires Shaped(c) && Listed(c) && CalmNext(next)
    ensures Bound(0, Inside(0, c, next), next)
    decreases c, 2
  {
    hide GuardAll, Fits, ShapedAll, ListedAll, PrefixForm, InfixForm, KindPrecedence, GuardLeft, Decided, EndsNext, Good, CalmNext;
    CalmStops(next);
    match c
    case Prefix(head, ps) =>
      PrefixDecided(head);
      GoodEnds(PrefixForm(head).value, next);
      ItemsFit(PrefixForm(head).value, ps, next);
    case Infix(left, op, ps) =>
      InfixDecided(op);
      GoodEnds(InfixForm(op).value, next);
      ItemsFit(InfixForm(op).value, ps, next);
      LeftBound(left, op);
  }

  lemma {:induction false} LeftBound(left: Cst, op: Token)
    requires Shaped(left) && Listed(left)
    ensures BoundSpine(0, GuardLeft(0, left, op), Some(op))
    decreases left, 3
  {
    hide BoundSpine, Inside, Shaped, Listed;
    if !BoundSpine(0, Inside(0, left, Some(op)), Some(op)) {
      CloseIsCalm();
      InsideBound(left, CLOSE);
      ParenBound(0, Inside(0, left, CLOSE), Some(op));
    }
  }

  lemma {:induction false} ItemsFit(items: seq<Item>, ps: seq<Part>, next: Option<Token>)
    requires ShapedAll(items, ps) && ListedAll(items, ps) && Decided(items) && EndsNext(items, next)
    ensures Fits(items, GuardAll(items, ps, next), next)
    decreases ps, 1
  {
    hide ShapedOne, ListedOne, DecidedOne, Ends, MayBeEmpty, Starts, FitsOne, GuardOne, FlattenPart, FlattenAll;
    if items != [] {
      var rest := GuardAll(items[1..], ps[1..], next);
      var nxt := Ahead(FlattenAll(rest), next);
      GuardStarts(items[1..], ps[1..], next);
      ItemsFit(items[1..], ps[1..], next);
      ItemFits(items[0], ps[0], nxt);
      assert ([GuardOne(items[0], ps[0], nxt)] + rest)[1..] == rest;
    }
  }

  lemma {:induction false} ItemFits(i: Item, p: Part, next: Option<Token>)
    requires ShapedOne(i, p) && ListedOne(i, p) && DecidedOne(i) && (next.Some? ==> Ends(i, next.value))
    ensures FitsOne(i, GuardOne(i, p, next), next)
    decreases p, 2
  {
    hide ShapedAll, ListedAll, Decided, EndsAll, StartsAll, AllMayBeEmpty, Guard, GuardAll, Flatten, FlattenAll, Fits, Bound,
         Listed, Shaped, FitsWhile, FitsUntil, FitsSep, GuardWhile, GuardUntil, GuardSep, ShapedWhile, ShapedUntil, ShapedSep,
         ListedWhile, ListedUntil, ListedSep, KindPrecedence, PrefixForm;
    match i
    case SubExpr(q) => GuardBound(q, p.e, next);
    case TypeRef =>
      TypeTailDecided();
      ItemsFit(TYPE_TAIL, p.ps[1..], next);
      assert ([p.ps[0]] + GuardAll(TYPE_TAIL, p.ps[1..], next))[1..] == GuardAll(TYPE_TAIL, p.ps[1..], next);
    case Either(k, yes, no) =>
      if p.Taken? {
        ItemsFit(yes, p.ps[1..], next);
        assert ([p.ps[0]] + GuardAll(yes, p.ps[1..], next))[1..] == GuardAll(yes, p.ps[1..], next);
      } else {
        ItemsFit(no, p.ps, next);
        GuardStarts(no, p.ps, next);
      }
    case While(k, body) => RoundsFit(k, body, p.ps, next);
    case Until(k) => StatementsFit(k, p.ps, next);
    case Sep(close, body) => MembersFit(close, body, p.ps, next);
    case _ =>
  }

  lemma {:induction false} RoundsFit(k: Kind, body: seq<Item>, ps: seq<Part>, next: Option<Token>)
    requires ShapedWhile(k, body, ps) && ListedWhile(body, ps) && Decided(body) && EndsAll(body, Sym(k))
    requires next != Some(Sym(k)) && EndsNext(body, next)
    ensures FitsWhile(k, body, GuardWhile(body, ps, next), next)
    decreases ps, 0
  {
    hide ShapedAll, ListedAll, Decided, EndsAll, GuardAll, Fits, FlattenAll;
    if ps != [] {
      var rest := GuardWhile(body, ps[1..], next);
      var nxt := Ahead(FlattenAll(rest), next);
      RoundsFit(k, body, ps[1..], next);
      RoundStarts(k, body, ps[1..], next);
      RoundFits(k, body, ps[0], nxt);
      assert ([GuardRound(body, ps[0], nxt)] + rest)[1..] == rest;
    }
  }

  lemma {:induction false} RoundFits(k: Kind, body: seq<Item>, p: Part, next: Option<Token>)
    requires ShapedRound(k, body, p) && ListedRound(body, p) && Decided(body) && EndsNext(body, next)
    ensures var r := GuardRound(body, p, next); r.Rep? && r.ps != [] && r.ps[0] == Leaf(Sym(k)) && Fits(body, r.ps[1..], next)
    decreases p, 2
  {
    hide ShapedAll, ListedAll, Decided, EndsAll, GuardAll, Fits;
    ItemsFit(body, p.ps[1..], next);
    assert ([p.ps[0]] + GuardAll(body, p.ps[1..], next))[1..] == GuardAll(body, p.ps[1..], next);
  }

  lemma {:induction false} StatementsFit(k: Kind, ps: seq<Part>, next: Option<Token>)
    requires ShapedUntil(k, ps) && ListedUntil(ps) && DecidedOne(Until(k))
    ensures FitsUntil(k, GuardUntil(ps, next), next)
    decreases ps, 0
  {
    hide FitsOne, FitsUntil, GuardOne, FlattenAll, DecidedOne, Begins;
    if ps[0] == Leaf(Sym(k)) {
      BlockEnds(k, ps, next);
    } else {
      NextStatement(k, ps, next);
      var nxt := Ahead(FlattenAll(GuardUntil(ps[1..], next)), next);
      StatementsFit(k, ps[1..], next);
      StatementFits(k, ps[0], nxt);
      UntilCons(k, GuardOne(EXPR, ps[0], nxt), GuardUntil(ps[1..], next), next);
    }
  }

  lemma BlockEnds(k: Kind, ps: seq<Part>, next: Option<Token>)
    requires ps == [Leaf(Sym(k))]
    ensures FitsUntil(k, GuardUntil(ps, next), next)
  {
  }

  lemma UntilCons(k: Kind, p: Part, ps: seq<Part>, next: Option<Token>)
    requires FitsOne(EXPR, p, Ahead(FlattenAll(ps), next)) && FitsUntil(k, ps, next) && p != Leaf(Sym(k))
        && First(FlattenPart(p)) != Some(Sym(k))
    ensures FitsUntil(k, [p] + ps, next)
  {
    hide FitsOne, FlattenAll, FlattenPart;
    assert ([p] + ps)[1..] == ps;
  }

  lemma {:induction false} StatementFits(k: Kind, p: Part, next: Option<Token>)
    requires ShapedOne(EXPR, p) && ListedOne(EXPR, p) && Stops(0, next) && DecidedOne(Until(k))
    ensures var r := GuardOne(EXPR, p, next);
            FitsOne(EXPR, r, next) && r != Leaf(Sym(k)) && First(FlattenPart(r)) != Some(Sym(k))
    decreases p, 2
  {
    hide Guard, Shaped, Listed, Bound, Flatten, PrefixForm, KindPrecedence;
    GuardBound(0, p.e, next);
    GuardHead(0, p.e, next);
  }

  lemma BeginsPlainly(t: Token)
    requires PrefixForm(t).Some?
    ensures Precedence(t) <= 0 <==> t != Sym(OpenParen) && t != Sym(OpNot)
  {
  }

  /** The next statement, or the end of the block, ends the one before. */
  lemma NextStatement(k: Kind, ps: seq<Part>, next: Option<Token>)
    requires ShapedUntil(k, ps) && ps[0] != Leaf(Sym(k)) && DecidedOne(Until(k))
    ensures |ps| > 1
    ensures var nxt := Ahead(FlattenAll(GuardUntil(ps[1..], next)), next);
            Stops(0, nxt) <==> !Begins(GuardUntil(ps[1..], None)[0])
  {
    hide Guard, FlattenAll, Shaped, PrefixForm, KindPrecedence, FlattenPart;
    var qs := ps[1..];
    UntilNext(k, qs, next);
    FirstStatement(k, qs, next);
  }

  lemma FirstStatement(k: Kind, qs: seq<Part>, next: Option<Token>)
    requires ShapedUntil(k, qs) && DecidedOne(Until(k))
    ensures Stops(0, Ahead(FlattenAll(GuardUntil(qs, next)), next)) <==> !Begins(GuardUntil(qs, next)[0])
  {
    hide Guard, Flatten, Shaped, PrefixForm, KindPrecedence;
    var rest := GuardUntil(qs[1..], next);
    var nxt := Ahead(FlattenAll(rest), next);
    FlattenCons(GuardOne(EXPR, qs[0], nxt), rest);
    if qs[0] != Leaf(Sym(k)) {
      GuardHead(0, qs[0].e, nxt);
      BeginsPlainly(Flatten(Guard(0, qs[0].e, nxt))[0]);
    }
  }

  /** What follows a block does not matter inside it. */
  lemma {:induction false} UntilNext(k: Kind, ps: seq<Part>, next: Option<Token>)
    requires ShapedUntil(k, ps)
    ensures GuardUntil(ps, next) == GuardUntil(ps, None)
    decreases ps
  {
    hide Guard, FlattenAll, Shaped, PrefixForm;
    if ps[0] != Leaf(Sym(k)) {
      UntilNext(k, ps[1..], next);
      assert FlattenAll(GuardUntil(ps[1..], next)) != [] by { StatementStarts(k, ps[1..], next); }
    }
  }

  lemma {:induction false} MembersFit(close: Kind, body: seq<Item>, ps: seq<Part>, next: Option<Token>)
    requires ShapedSep(close, body, ps) && ListedSep(body, ps) && DecidedOne(Sep(close, body))
    ensures FitsSep(close, body, GuardSep(body, ps, next), next)
    decreases ps, 0
  {
    hide ShapedAll, ListedAll, Decided, EndsAll, GuardAll, Fits, AllMayBeEmpty, FlattenAll;
    var more := GuardSep(body, ps[2..], next);
    var rest := [ps[1]] + more;
    var nxt := Ahead(FlattenAll(rest), next);
    assert nxt == Some(ps[1].t) by { FlattenCons(ps[1], more); }
    MemberFits(body, ps[0], nxt);
    var all := [GuardMember(body, ps[0], nxt)] + rest;
    assert all[1..] == rest && all[2..] == more && all[1] == ps[1];
    if |ps| == 2 {
      assert ps[2..] == [] && |all| == 2;
    } else {
      MembersFit(close, body, ps[2..], next);
    }
  }

  lemma {:induction false} MemberFits(body: seq<Item>, p: Part, next: Option<Token>)
    requires ShapedMember(body, p) && ListedMember(body, p) && Decided(body) && EndsNext(body, next)
    ensures FitsMember(body, GuardMember(body, p, next), next)
    decreases p, 2
  {
    hide ShapedAll, ListedAll, Decided, EndsAll, GuardAll, Fits;
    ItemsFit(body, p.ps, next);
  }

  // ----- and nothing else is -----

  lemma ParenBoundOnly(p: int, c: Cst, next: Option<Token>)
    requires BoundSpine(p, Paren(c), next)
    ensures Bound(0, c, CLOSE)
  {
    hide Bound;
    var w := Leaf(Sym(CloseParen));
    assert FlattenAll([w]) == [Sym(CloseParen)] by { FlattenOne(w); }
    assert [Sub(c), w][1..] == [w];
    assert FitsOne(EXPR, Sub(c), CLOSE);
  }

  /** A guarded tree with a later statement that begins like an operator is never well bound. */
  lemma {:induction false} GuardListed(q: int, c: Cst, next: Option<Token>)
    requires Shaped(c) && Bound(q, Guard(q, c, next), next)
    ensures Listed(c)
    decreases c, 3
  {
    hide BoundSpine, Inside, Shaped, Listed;
    if Bound(q, Inside(q, c, next), next) {
      InsideListed(q, c, next);
    } else {
      ParenBoundOnly(q, Inside(0, c, CLOSE), next);
      InsideListed(0, c, CLOSE);
    }
  }

  lemma {:induction false} InsideListed(p: int, c: Cst, next: Option<Token>)
    requires Shaped(c) && BoundSpine(p, Inside(p, c, next), next)
    ensures Listed(c)
    decreases c, 2
  {
    hide GuardAll, Fits, ShapedAll, ListedAll, PrefixForm, InfixForm, KindPrecedence, GuardLeft, Decided, EndsAll;
    match c
    case Prefix(head, ps) =>
      PrefixDecided(head);
      ItemsListed(PrefixForm(head).value, ps, next);
    case Infix(left, op, ps) =>
      InfixDecided(op);
      ItemsListed(InfixForm(op).value, ps, next);
      LeftListed(p, left, op);
  }

  lemma {:induction false} LeftListed(p: int, left: Cst, op: Token)
    requires Shaped(left) && BoundSpine(p, GuardLeft(p, left, op), Some(op))
    ensures Listed(left)
    decreases left, 3
  {
    hide BoundSpine, Inside, Shaped, Listed;
    if BoundSpine(p, Inside(p, left, Some(op)), Some(op)) {
      InsideListed(p, left, Some(op));
    } else {
      ParenBoundOnly(p, Inside(0, left, CLOSE), Some(op));
      InsideListed(0, left, CLOSE);
    }
  }

  lemma {:induction false} ItemsListed(items: seq<Item>, ps: seq<Part>, next: Option<Token>)
    requires ShapedAll(items, ps) && Decided(items) && Fits(items, GuardAll(items, ps, next), next)
    ensures ListedAll(items, ps)
    decreases ps, 1
  {
    hide ShapedOne, ListedOne, DecidedOne, EndsBefore, FitsOne, GuardOne, FlattenAll;
    if items != [] {
      var rest := GuardAll(items[1..], ps[1..], next);
      var nxt := Ahead(FlattenAll(rest), next);
      assert ([GuardOne(items[0], ps[0], nxt)] + rest)[1..] == rest;
      ItemsListed(items[1..], ps[1..], next);
      ItemListed(items[0], ps[0], nxt);
    }
  }

  lemma {:induction false} ItemListed(i: Item, p: Part, next: Option<Token>)
    requires ShapedOne(i, p) && DecidedOne(i) && FitsOne(i, GuardOne(i, p, next), next)
    ensures ListedOne(i, p)
    decreases p, 2
  {
    hide ShapedAll, ListedAll, Decided, EndsAll, StartsAll, AllMayBeEmpty, Guard, GuardAll, Flatten, FlattenAll, Fits, Bound,
         Listed, Shaped, FitsWhile, FitsUntil, FitsSep, GuardWhile, GuardUntil, GuardSep, ShapedWhile, ShapedUntil, ShapedSep,
         ListedWhile, ListedUntil, ListedSep, KindPrecedence, PrefixForm;
    match i
    case SubExpr(q) => GuardListed(q, p.e, next);
    case TypeRef =>
      TypeTailDecided();
      assert ([p.ps[0]] + GuardAll(TYPE_TAIL, p.ps[1..], next))[1..] == GuardAll(TYPE_TAIL, p.ps[1..], next);
      ItemsListed(TYPE_TAIL, p.ps[1..], next);
    case Either(k, yes, no) =>
      if p.Taken? {
        assert ([p.ps[0]] + GuardAll(yes, p.ps[1..], next))[1..] == GuardAll(yes, p.ps[1..], next);
        ItemsListed(yes, p.ps[1..], next);
      } else {
        ItemsListed(no, p.ps, next);
      }
    case While(k, body) => RoundsListed(k, body, p.ps, next);
    case Until(k) => StatementsListed(k, p.ps, next);
    case Sep(close, body) => MembersListed(close, body, p.ps, next);
    case _ =>
  }

  lemma {:induction false} RoundsListed(k: Kind, body: seq<Item>, ps: seq<Part>, next: Option<Token>)
    requires ShapedWhile(k, body, ps) && Decided(body) && FitsWhile(k, body, GuardWhile(body, ps, next), next)
    ensures ListedWhile(body, ps)
    decreases ps, 0
  {
    hide ShapedAll, ListedAll, Decided, GuardAll, Fits, FlattenAll;
    if ps != [] {
      var rest := GuardWhile(body, ps[1..], next);
      var nxt := Ahead(FlattenAll(rest), next);
      assert ([GuardRound(body, ps[0], nxt)] + rest)[1..] == rest;
      RoundsListed(k, body, ps[1..], next);
      RoundListed(k, body, ps[0], nxt);
    }
  }

  lemma {:induction false} RoundListed(k: Kind, body: seq<Item>, p: Part, next: Option<Token>)
    requires ShapedRound(k, body, p) && Decided(body) && Fits(body, GuardRound(body, p, next).ps[1..], next)
    ensures ListedRound(body, p)
    decreases p, 2
  {
    hide ShapedAll, ListedAll, Decided, GuardAll, Fits;
    assert ([p.ps[0]] + GuardAll(body, p.ps[1..], next))[1..] == GuardAll(body, p.ps[1..], next);
    ItemsListed(body, p.ps[1..], next);
  }

  lemma {:induction false} StatementsListed(k: Kind, ps: seq<Part>, next: Option<Token>)
    requires ShapedUntil(k, ps) && DecidedOne(Until(k)) && FitsUntil(k, GuardUntil(ps, next), next)
    ensures ListedUntil(ps)
    decreases ps, 0
  {
    hide Bound, Guard, Flatten, FlattenAll, DecidedOne, Begins, Shaped, Listed;
    var rest := GuardUntil(ps[1..], next);
    var nxt := Ahead(FlattenAll(rest), next);
    var first := GuardOne(EXPR, ps[0], nxt);
    assert ([first] + rest)[1..] == rest;
    if ps[0] != Leaf(Sym(k)) {
      NextStatement(k, ps, next);
      StatementListed(ps[0], nxt);
      StatementsListed(k, ps[1..], next);
    }
  }

  lemma {:induction false} StatementListed(p: Part, next: Option<Token>)
    requires ShapedOne(EXPR, p) && FitsOne(EXPR, GuardOne(EXPR, p, next), next)
    ensures ListedOne(EXPR, p) && Stops(0, next)
    decreases p, 2
  {
    hide BoundSpine, Guard, Shaped, Listed;
    GuardListed(0, p.e, next);
  }

  lemma {:induction false} MembersListed(close: Kind, body: seq<Item>, ps: seq<Part>, next: Option<Token>)
    requires ShapedSep(close, body, ps) && Decided(body) && FitsSep(close, body, GuardSep(body, ps, next), next)
    ensures ListedSep(body, ps)
    decreases ps, 0
  {
    hide ShapedAll, ListedAll, Decided, GuardAll, Fits, FlattenAll;
    var more := GuardSep(body, ps[2..], next);
    var rest := [ps[1]] + more;
    var nxt := Ahead(FlattenAll(rest), next);
    var all := [GuardMember(body, ps[0], nxt)] + rest;
    assert all[1..] == rest && all[2..] == more;
    MemberListed(body, ps[0], nxt);
    if |ps| > 2 { MembersListed(close, body, ps[2..], next); }
  }

  lemma {:induction false} MemberListed(body: seq<Item>, p: Part, next: Option<Token>)
    requires ShapedMember(body, p) && Decided(body) && FitsMember(body, GuardMember(body, p, next), next)
    ensures ListedMember(body, p)
    decreases p, 2
  {
    hide ShapedAll, ListedAll, Decided, GuardAll, Fits;
    ItemsListed(body, p.ps, next);
  }

  /** Exactly the trees whose statements begin plainly, in places that end before what follows, can be
      guarded into a well bound tree. */
  lemma GuardedExactlyWhenListed(q: int, c: Cst, next: Option<Token>)
    requires Shaped(c)
    ensures Bound(q, Guard(q, c, next), next) <==> Listed(c) && Stops(q, next)
  {
    hide BoundSpine, Shaped, Listed, Guard;
    if Bound(q, Guard(q, c, next), next) { GuardListed(q, c, next); }
    if Listed(c) && Stops(q, next) { GuardBound(q, c, next); }
  }
}
