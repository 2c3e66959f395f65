/** The parentheses put in are needed: every well bound tree for the same expression has them where a
    guarded tree does at its root, and what cannot be guarded has no well bound tree at all. */
module Needed {
  import opened Common
  import opened Tokens
  import opened Grammar
  import opened Parse
  import opened ParseCorrect
  import opened Parens
  import opened Lookahead
  import opened Guarding
  import opened Stripping

  lemma ParenBody(q: int, d: Cst, next: Option<Token>)
    requires BoundSpine(q, d, next) && IsParen(d)
    ensures Bound(0, d.ps[0].e, CLOSE)
  {
    hide Bound;
    var w := d.ps[1..];
    FitsLength(PrefixForm(d.head).value, d.ps, next);
    FitsAt(PrefixForm(d.head).value, d.ps, next, 1);
    assert d.ps[1] == Leaf(Sym(CloseParen)) && w == [Leaf(Sym(CloseParen))];
    FlattenOne(Leaf(Sym(CloseParen)));
    FitsAt(PrefixForm(d.head).value, d.ps, next, 0);
  }

  lemma ShapedBody(d: Cst)
    requires Shaped(d) && IsParen(d)
    ensures Shaped(d.ps[0].e)
  {
    hide ShapedAll;
    ParenShaped(d.ps);
  }

  /** However an expression is parenthesized, its statements begin plainly. */
  lemma {:induction false} BoundListed(q: int, d: Cst, next: Option<Token>)
    requires Shaped(d) && BoundSpine(q, d, next)
    ensures Listed(Bare(d))
    decreases d, 1
  {
    hide Shaped, BoundSpine, Listed, Bare;
    if IsParen(d) {
      BodyListed(q, d, next);
    } else {
      StaysBare(q, d, next);
    }
  }

  lemma {:induction false} BodyListed(q: int, d: Cst, next: Option<Token>)
    requires Shaped(d) && BoundSpine(q, d, next) && IsParen(d)
    ensures Listed(Bare(d))
    decreases d, 0
  {
    hide Shaped, BoundSpine, Listed;
    ParenBody(q, d, next);
    ShapedBody(d);
    SubListed(d.ps[0]);
  }

  lemma {:induction false} SubListed(p: Part)
    requires p.Sub? && Shaped(p.e) && BoundSpine(0, p.e, CLOSE)
    ensures Listed(Bare(p.e))
    decreases p
  {
    BoundListed(0, p.e, CLOSE);
  }

  /** An expression that is well bound without parentheses around it stays so when everything inside is
      guarded afresh. */
  lemma {:induction false} StaysBare(p: int, d: Cst, next: Option<Token>)
    requires Shaped(d) && BoundSpine(p, d, next) && !IsParen(d)
    ensures Listed(Bare(d)) && BoundSpine(p, Inside(p, Bare(d), next), next)
    decreases d, 0
  {
    hide Fits, ShapedAll, ListedAll, PrefixForm, InfixForm, KindPrecedence, GuardLeft, GuardAll, BareAll, Decided, EndsAll;
    match d
    case Prefix(head, ps) =>
      PrefixDecided(head);
      PartsStay(PrefixForm(head).value, ps, next);
    case Infix(left, op, ps) =>
      InfixDecided(op);
      PartsStay(InfixForm(op).value, ps, next);
      BoundListed(p, left, Some(op));
      LeftStays(p, left, op);
  }

  lemma {:induction false} LeftStays(p: int, left: Cst, op: Token)
    requires Shaped(left) && BoundSpine(p, left, Some(op))
    ensures BoundSpine(p, GuardLeft(p, Bare(left), op), Some(op))
    ensures !IsParen(left) ==> GuardLeft(p, Bare(left), op) == Inside(p, Bare(left), Some(op))
    decreases left, 2
  {
    hide Shaped, BoundSpine, Listed, Bare, Inside;
    if IsParen(left) {
      BoundListed(p, left, Some(op));
      BareShaped(left);
      if !BoundSpine(p, Inside(p, Bare(left), Some(op)), Some(op)) {
        CloseIsCalm();
        InsideBound(Bare(left), CLOSE);
        ParenBound(p, Inside(0, Bare(left), CLOSE), Some(op));
      }
    } else {
      StaysBare(p, left, Some(op));
    }
  }

  lemma {:induction false} EmptyBare(ps: seq<Part>)
    ensures FlattenAll(BareAll(ps)) == [] <==> FlattenAll(ps) == []
    decreases ps
  {
    hide BarePart, FlattenPart;
    if ps != [] {
      PartEmptyBare(ps[0]);
      EmptyBare(ps[1..]);
      FlattenCons(BarePart(ps[0]), BareAll(ps[1..]));
    }
  }

  lemma {:induction false} PartEmptyBare(p: Part)
    ensures FlattenPart(BarePart(p)) == [] <==> FlattenPart(p) == []
    decreases p
  {
    hide Flatten, Bare;
    match p
    case Leaf(_) =>
    case Sub(e) =>
      FirstOf(e, []);
      FirstOf(Bare(e), []);
    case Taken(ps) => EmptyBare(ps);
    case Skipped(ps) => EmptyBare(ps);
    case Rep(ps) => EmptyBare(ps);
  }

  lemma SameEmpty(items: seq<Item>, ps: seq<Part>, next: Option<Token>)
    ensures FlattenAll(GuardAll(items, BareAll(ps), next)) == [] <==> FlattenAll(ps) == []
  {
    hide BareAll, GuardAll, FlattenAll;
    var bare := BareAll(ps);
    ItemsBare(items, bare, next);
    EmptyBare(ps);
    EmptyBare(bare);
    EmptyBare(GuardAll(items, bare, next));
  }

  lemma {:induction false} PartsStay(items: seq<Item>, ps: seq<Part>, next: Option<Token>)
    requires ShapedAll(items, ps) && Decided(items) && Fits(items, ps, next)
    ensures ListedAll(items, BareAll(ps)) && Fits(items, GuardAll(items, BareAll(ps), next), next)
    decreases ps, 1
  {
    hide ShapedOne, ListedOne, DecidedOne, FitsOne, GuardOne, BarePart, FlattenAll;
    if items != [] {
      var bare := BareAll(ps[1..]);
      var rest := GuardAll(items[1..], bare, next);
      var nxt := Ahead(FlattenAll(rest), next);
      PartsStay(items[1..], ps[1..], next);
      PartStays(items[0], ps[0], Ahead(FlattenAll(ps[1..]), next));
      NextStays(items, ps, next);
      assert ([GuardOne(items[0], BarePart(ps[0]), nxt)] + rest)[1..] == rest;
    }
  }

  /** The part before others, when these are guarded. */
  lemma NextStays(items: seq<Item>, ps: seq<Part>, next: Option<Token>)
    requires ShapedAll(items, ps) && Decided(items) && items != []
    requires ListedOne(items[0], BarePart(ps[0]))
    requires var nd := Ahead(FlattenAll(ps[1..]), next); FitsOne(items[0], GuardOne(items[0], BarePart(ps[0]), nd), nd)
    ensures var nxt := Ahead(FlattenAll(GuardAll(items[1..], BareAll(ps[1..]), next)), next);
            FitsOne(items[0], GuardOne(items[0], BarePart(ps[0]), nxt), nxt)
  {
    hide ShapedOne, ListedOne, DecidedOne, FitsOne, GuardOne, BarePart, FlattenAll, Ends, StartsAll;
    var bare := BareAll(ps[1..]);
    var rest := GuardAll(items[1..], bare, next);
    SameEmpty(items[1..], ps[1..], next);
    if FlattenAll(rest) != [] {
      BareAllShaped(items[1..], ps[1..]);
      GuardStarts(items[1..], bare, next);
      BareOneShaped(items[0], ps[0]);
      ItemFits(items[0], BarePart(ps[0]), Ahead(FlattenAll(rest), next));
    }
  }

  lemma {:induction false} PartStays(i: Item, p: Part, next: Option<Token>)
    requires ShapedOne(i, p) && DecidedOne(i) && FitsOne(i, p, next)
    ensures ListedOne(i, BarePart(p)) && FitsOne(i, GuardOne(i, BarePart(p), next), next)
    decreases p, 2
  {
    hide Shaped, ShapedAll, ShapedWhile, ShapedUntil, ShapedSep, Listed, ListedAll, ListedWhile, ListedUntil, ListedSep,
         Decided, EndsAll, StartsAll, AllMayBeEmpty, Guard, GuardAll, GuardWhile, GuardUntil, GuardSep, Bare, BareAll,
         Fits, FitsWhile, FitsUntil, FitsSep, Bound, Flatten, FlattenAll, PrefixForm, KindPrecedence;
    match i
    case SubExpr(q) => ExprStays(q, p, next);
    case TypeRef =>
      TypeTailDecided();
      HeadStays(p.ps);
      PartsStay(TYPE_TAIL, p.ps[1..], next);
      TailSplit(p.ps[0], GuardAll(TYPE_TAIL, BareAll(p.ps[1..]), next));
    case Either(k, yes, no) =>
      if p.Taken? {
        HeadStays(p.ps);
        PartsStay(yes, p.ps[1..], next);
        TailSplit(p.ps[0], GuardAll(yes, BareAll(p.ps[1..]), next));
      } else {
        PartsStay(no, p.ps, next);
        BareAllShaped(no, p.ps);
        GuardStarts(no, BareAll(p.ps), next);
        SameEmpty(no, p.ps, next);
      }
    case While(k, body) => RoundsStay(k, body, p.ps, next);
    case Until(k) =>
      StatementsStay(k, p.ps, next);
      BareUntil(k, p.ps);
      StatementsFit(k, BareAll(p.ps), next);
    case Sep(close, body) =>
      MembersStay(close, body, p.ps, next);
      BareSep(close, body, p.ps);
      MembersFit(close, body, BareAll(p.ps), next);
    case _ =>
  }

  lemma TailSplit(p: Part, ps: seq<Part>)
    ensures ([p] + ps)[1..] == ps && ([p] + ps)[0] == p
  {
  }

  lemma {:induction false} ExprStays(q: int, p: Part, next: Option<Token>)
    requires p.Sub? && Shaped(p.e) && Bound(q, p.e, next)
    ensures Listed(Bare(p.e)) && Bound(q, Guard(q, Bare(p.e), next), next)
    decreases p, 1
  {
    hide BoundSpine, Shaped, Bare, Listed, Guard;
    BoundListed(q, p.e, next);
    BareShaped(p.e);
    GuardBound(q, Bare(p.e), next);
  }

  lemma {:induction false} RoundsStay(k: Kind, body: seq<Item>, ps: seq<Part>, next: Option<Token>)
    requires ShapedWhile(k, body, ps) && Decided(body) && FitsWhile(k, body, ps, next)
    ensures ListedWhile(body, BareAll(ps)) && FitsWhile(k, body, GuardWhile(body, BareAll(ps), next), next)
    ensures First(FlattenAll(GuardWhile(body, BareAll(ps), next))) == First(FlattenAll(ps))
    decreases ps, 0
  {
    hide ShapedRound, ListedRound, Decided, GuardRound, Fits, BarePart, FlattenPart, FlattenAll, FitsWhile;
    if ps == [] {
      NoRounds(k, body, next);
    } else {
      var bare := BareAll(ps[1..]);
      var rest := GuardWhile(body, bare, next);
      var nxt := Ahead(FlattenAll(rest), next);
      RoundsSplit(k, body, ps, next);
      RoundsStay(k, body, ps[1..], next);
      RoundStays(k, body, ps[0], nxt);
      RoundsCons(k, body, GuardRound(body, BarePart(ps[0]), nxt), rest, next);
    }
  }

  lemma NoRounds(k: Kind, body: seq<Item>, next: Option<Token>)
    requires FitsWhile(k, body, [], next)
    ensures FitsWhile(k, body, GuardWhile(body, [], next), next) && FlattenAll(GuardWhile(body, [], next)) == []
  {
  }

  lemma RoundsSplit(k: Kind, body: seq<Item>, ps: seq<Part>, next: Option<Token>)
    requires ps != [] && FitsWhile(k, body, ps, next)
    ensures FitsWhile(k, body, ps[1..], next) && ps[0].Rep? && ps[0].ps != [] && ps[0].ps[0] == Leaf(Sym(k))
    ensures Fits(body, ps[0].ps[1..], Ahead(FlattenAll(ps[1..]), next)) && First(FlattenAll(ps)) == Some(Sym(k))
  {
    hide Fits;
    FlattenCons(ps[0], ps[1..]);
    assert [ps[0]] + ps[1..] == ps;
    FlattenCons(ps[0].ps[0], ps[0].ps[1..]);
    assert [ps[0].ps[0]] + ps[0].ps[1..] == ps[0].ps;
  }

  lemma RoundsCons(k: Kind, body: seq<Item>, p: Part, ps: seq<Part>, next: Option<Token>)
    requires FitsWhile(k, body, ps, next) && p.Rep? && p.ps != [] && p.ps[0] == Leaf(Sym(k))
        && Fits(body, p.ps[1..], Ahead(FlattenAll(ps), next))
    ensures FitsWhile(k, body, [p] + ps, next) && First(FlattenAll([p] + ps)) == Some(Sym(k))
  {
    hide Fits;
    assert ([p] + ps)[1..] == ps;
    FlattenCons(p, ps);
    FlattenCons(p.ps[0], p.ps[1..]);
    assert [p.ps[0]] + p.ps[1..] == p.ps;
  }

  lemma {:induction false} RoundStays(k: Kind, body: seq<Item>, p: Part, next: Option<Token>)
    requires ShapedRound(k, body, p) && Decided(body) && Fits(body, p.ps[1..], next)
    ensures ListedRound(body, BarePart(p))
    ensures var r := GuardRound(body, BarePart(p), next); r.Rep? && r.ps != [] && r.ps[0] == Leaf(Sym(k)) && Fits(body, r.ps[1..], next)
    decreases p, 2
  {
    hide ShapedAll, ListedAll, Decided, GuardAll, Fits, BareAll;
    HeadStays(p.ps);
    PartsStay(body, p.ps[1..], next);
    TailSplit(p.ps[0], GuardAll(body, BareAll(p.ps[1..]), next));
  }

  lemma {:induction false} MembersStay(close: Kind, body: seq<Item>, ps: seq<Part>, next: Option<Token>)
    requires ShapedSep(close, body, ps) && Decided(body) && FitsSep(close, body, ps, next)
    ensures ListedSep(body, BareAll(ps))
    decreases ps, 0
  {
    hide ListedMember, Decided, FitsMember, ShapedMember, BarePart, FlattenAll;
    assert ps == [ps[0]] + ([ps[1]] + ps[2..]);
    BareCons(ps[0], [ps[1]] + ps[2..]);
    BareCons(ps[1], ps[2..]);
    MemberStays(body, ps[0], Ahead(FlattenAll(ps[1..]), next));
    assert BareAll(ps)[2..] == BareAll(ps[2..]);
    if |ps| > 2 { MembersStay(close, body, ps[2..], next); }
  }

  lemma {:induction false} MemberStays(body: seq<Item>, p: Part, next: Option<Token>)
    requires ShapedMember(body, p) && Decided(body) && FitsMember(body, p, next)
    ensures ListedMember(body, BarePart(p))
    decreases p, 2
  {
    hide ShapedAll, ListedAll, Decided, Fits, BareAll;
    PartsStay(body, p.ps, next);
  }

  // ----- first tokens -----

  /** Without a parenthesis in front, guarding leaves the first token. */
  lemma {:induction false} SameFirst(p: int, d: Cst, next: Option<Token>)
    requires Shaped(d) && BoundSpine(p, d, next) && First(Flatten(d)) != Some(Sym(OpenParen))
    ensures !IsParen(d) && First(Flatten(Inside(p, Bare(d), next))) == First(Flatten(d))
    decreases d, 1
  {
    hide GuardAll, BareAll, PrefixForm, InfixForm, ShapedAll, Fits, GuardLeft, KindPrecedence, FlattenAll;
    if d.Infix? {
      var left := d.left;
      FirstOf(left, [d.op] + FlattenAll(d.ps));
      assert Flatten(d) == Flatten(left) + ([d.op] + FlattenAll(d.ps));
      SameFirst(p, left, Some(d.op));
      LeftStays(p, left, d.op);
      var l := Inside(p, Bare(left), Some(d.op));
      var ps := Inside(p, Bare(d), next).ps;
      FirstOf(l, [d.op] + FlattenAll(ps));
      assert Flatten(Infix(l, d.op, ps)) == Flatten(l) + ([d.op] + FlattenAll(ps));
    }
  }

  /** The statements of a block. */
  lemma {:induction false} StatementsStay(k: Kind, ps: seq<Part>, next: Option<Token>)
    requires ShapedUntil(k, ps) && DecidedOne(Until(k)) && FitsUntil(k, ps, next)
    ensures ListedUntil(BareAll(ps))
    ensures First(FlattenAll(ps)) == Some(Sym(OpenParen)) || First(FlattenAll(GuardUntil(BareAll(ps), next))) == First(FlattenAll(ps))
    decreases ps, 0
  {
    hide Bound, Bare, Guard, Flatten, FlattenAll, Shaped, Listed, Begins, DecidedOne;
    var bare := BareAll(ps[1..]);
    if ps[0] == Leaf(Sym(k)) {
      LeafStays(Sym(k));
      assert ps == [Leaf(Sym(k))] && GuardUntil(ps, next) == ps;
    } else {
      StatementsStay(k, ps[1..], next);
      BareUntil(k, ps[1..]);
      StatementStays(k, ps, next);
    }
  }

  lemma {:induction false} StatementStays(k: Kind, ps: seq<Part>, next: Option<Token>)
    requires ps != [] && ShapedUntil(k, ps) && DecidedOne(Until(k)) && FitsUntil(k, ps, next) && ps[0] != Leaf(Sym(k))
    requires ShapedUntil(k, BareAll(ps[1..])) && ListedUntil(BareAll(ps[1..]))
    requires First(FlattenAll(ps[1..])) == Some(Sym(OpenParen))
          || First(FlattenAll(GuardUntil(BareAll(ps[1..]), next))) == First(FlattenAll(ps[1..]))
    ensures ListedUntil(BareAll(ps))
    ensures First(FlattenAll(ps)) == Some(Sym(OpenParen)) || First(FlattenAll(GuardUntil(BareAll(ps), next))) == First(FlattenAll(ps))
    decreases ps, 0, 0
  {
    hide Bound, Bare, Guard, Flatten, FlattenAll, Shaped, Listed, Begins, DecidedOne, KindPrecedence, GuardUntil, ListedUntil, FitsUntil, ShapedUntil;
    var bare := BareAll(ps[1..]);
    var nd := Ahead(FlattenAll(ps[1..]), next);
    UntilParts(k, ps, next);
    ExprStays(0, ps[0], nd);
    StatementStops(ps[0].e, nd);
    FirstStatement(k, bare, next);
    UntilNext(k, bare, next);
    StatementStarts(k, bare, next);
    BareCons(ps[0], ps[1..]);
    assert [ps[0]] + ps[1..] == ps;
    ListedCons(Sub(Bare(ps[0].e)), bare);
    FirstStays(k, ps, nd, next);
  }

  lemma UntilParts(k: Kind, ps: seq<Part>, next: Option<Token>)
    requires ShapedUntil(k, ps) && FitsUntil(k, ps, next) && ps[0] != Leaf(Sym(k))
    ensures |ps| > 1 && ps[0].Sub? && Shaped(ps[0].e) && FlattenAll(ps[1..]) != []
    ensures Bound(0, ps[0].e, Ahead(FlattenAll(ps[1..]), next))
  {
    hide Bound, Shaped, Flatten;
    assert FitsUntil(k, ps[1..], next);
    assert FlattenPart(ps[1..][0]) != [] by { if ps[1..][0].Sub? { FirstOf(ps[1..][0].e, []); } }
  }

  lemma StatementStops(e: Cst, next: Option<Token>)
    requires Bound(0, e, next)
    ensures Stops(0, next) && next != Some(Sym(OpenParen))
  {
    hide BoundSpine;
  }

  lemma ListedCons(p: Part, ps: seq<Part>)
    requires ps != [] && p.Sub? && Listed(p.e) && ListedUntil(ps) && !Begins(GuardUntil(ps, None)[0])
    ensures ListedUntil([p] + ps)
  {
    hide Listed, GuardUntil, Begins;
    assert ([p] + ps)[1..] == ps;
  }

  lemma {:induction false} FirstStays(k: Kind, ps: seq<Part>, nd: Option<Token>, next: Option<Token>)
    requires ps != [] && ps[0].Sub? && Shaped(ps[0].e) && Bound(0, ps[0].e, nd)
    requires nd == Ahead(FlattenAll(GuardUntil(BareAll(ps[1..]), next)), next)
    ensures First(FlattenAll(ps)) == Some(Sym(OpenParen)) || First(FlattenAll(GuardUntil(BareAll(ps), next))) == First(FlattenAll(ps))
    decreases ps, 0, 0, 0
  {
    hide BoundSpine, Bare, Flatten, FlattenAll, Shaped, Inside;
    var e := ps[0].e;
    var rest := GuardUntil(BareAll(ps[1..]), next);
    assert [ps[0]] + ps[1..] == ps;
    FlattenCons(ps[0], ps[1..]);
    FirstOf(e, FlattenAll(ps[1..]));
    if First(Flatten(e)) != Some(Sym(OpenParen)) {
      ExprStaysBare(ps[0], nd);
      BareCons(ps[0], ps[1..]);
      FlattenCons(Sub(Inside(0, Bare(e), nd)), rest);
      FirstOf(Inside(0, Bare(e), nd), FlattenAll(rest));
    }
  }

  lemma {:induction false} ExprStaysBare(p: Part, next: Option<Token>)
    requires p.Sub? && Shaped(p.e) && Bound(0, p.e, next) && First(Flatten(p.e)) != Some(Sym(OpenParen))
    ensures Guard(0, Bare(p.e), next) == Inside(0, Bare(p.e), next)
    ensures First(Flatten(Inside(0, Bare(p.e), next))) == First(Flatten(p.e))
    decreases p, 0
  {
    hide BoundSpine, Bare, Shaped, Inside, Flatten;
    SameFirst(0, p.e, next);
    StaysBare(0, p.e, next);
  }

  // ----- the parentheses are needed -----

  /** If some well bound tree for the expression has no parentheses around it, neither has the guarded
      one: parentheses are put only where every source text has them. */
  lemma EverySourceHasThem(q: int, d: Cst, next: Option<Token>)
    requires Shaped(d) && Bound(q, d, next) && !IsParen(d)
    ensures !IsParen(Guard(q, Bare(d), next))
  {
    hide BoundSpine, Bare, Shaped, Inside;
    StaysBare(q, d, next);
    BareShaped(d);
    InsideNoParen(q, Bare(d), next);
  }

  lemma InsideNoParen(q: int, c: Cst, next: Option<Token>)
    requires !IsParen(c) && Shaped(c)
    ensures !IsParen(Inside(q, c, next))
  {
    hide Shaped;
    if c.Prefix? {
      assert c.head != Sym(OpenParen) by { HeadKept(c); }
    }
  }

  lemma HeadKept(c: Cst)
    requires !IsParen(c) && Shaped(c) && c.Prefix?
    ensures c.head != Sym(OpenParen)
  {
    NotParen(c.head, c.ps);
  }

  ghost predicate HasSource(q: int, c: Cst, next: Option<Token>) {
    exists d: Cst :: IsSource(q, d, c, next)
  }

  /** `d` is a well bound tree for `c`, with whatever parentheses. */
  predicate IsSource(q: int, d: Cst, c: Cst, next: Option<Token>) {
    Shaped(d) && Bare(d) == c && Bound(q, d, next)
  }

  /** An expression has a source text exactly when its later statements begin plainly when written with
      the fewest parentheses. */
  lemma SourceExactlyWhenListed(q: int, c: Cst, next: Option<Token>)
    requires Shaped(c) && Bare(c) == c
    ensures HasSource(q, c, next) <==> Listed(c) && Stops(q, next)
  {
    hide BoundSpine, Bare, Shaped, Listed, Guard;
    if HasSource(q, c, next) {
      var d: Cst :| IsSource(q, d, c, next);
      BoundListed(q, d, next);
    }
    if Listed(c) && Stops(q, next) {
      GuardBound(q, c, next);
      GuardBare(q, c, next);
      GuardShaped(q, c, next);
      assert IsSource(q, Guard(q, c, next), c, next);
    }
  }
}
