/** Taking all parentheses out of a tree: it stands for the same node, and guarding it takes none of it
    away. */
module Stripping {
  import opened Common
  import opened Tokens
  import opened Grammar
  import opened Parens
  import opened Ast
  import opened Build

  predicate IsParen(c: Cst) {
    c.Prefix? && c.head == Sym(OpenParen) && c.ps != [] && c.ps[0].Sub?
  }

  function Bare(c: Cst): Cst {
    match c
    case Prefix(head, ps) => if head == Sym(OpenParen) && ps != [] && ps[0].Sub? then Bare(ps[0].e) else Prefix(head, BareAll(ps))
    case Infix(left, op, ps) => Infix(Bare(left), op, BareAll(ps))
  }

  function BarePart(p: Part): Part {
    match p
    case Leaf(t) => p
    case Sub(e) => Sub(Bare(e))
    case Taken(ps) => Taken(BareAll(ps))
    case Skipped(ps) => Skipped(BareAll(ps))
    case Rep(ps) => Rep(BareAll(ps))
  }

  function BareAll(ps: seq<Part>): (r: seq<Part>)
    ensures |r| == |ps|
  {
    if ps == [] then [] else [BarePart(ps[0])] + BareAll(ps[1..])
  }

  lemma BareCons(p: Part, ps: seq<Part>)
    ensures BareAll([p] + ps) == [BarePart(p)] + BareAll(ps)
  {
    hide BarePart;
    assert ([p] + ps)[1..] == ps;
  }

  lemma HeadStays(ps: seq<Part>)
    requires ps != [] && ps[0].Leaf?
    ensures |BareAll(ps)| == |ps| && BareAll(ps)[0] == ps[0] && BareAll(ps)[1..] == BareAll(ps[1..])
  {
  }

  lemma LeafStays(t: Token)
    ensures BareAll([Leaf(t)]) == [Leaf(t)]
  {
    assert [Leaf(t)][1..] == [];
  }

  lemma {:induction false} BareTwice(c: Cst)
    ensures Bare(Bare(c)) == Bare(c)
    decreases c
  {
    hide BareAll;
    match c
    case Prefix(head, ps) =>
      if IsParen(c) {
        BareTwicePart(ps[0]);
      } else {
        BareTwiceAll(ps);
        SubStays(ps);
      }
    case Infix(left, op, ps) =>
      BareTwice(left);
      BareTwiceAll(ps);
  }

  lemma SubStays(ps: seq<Part>)
    ensures ps != [] ==> (BareAll(ps)[0].Sub? <==> ps[0].Sub?)
  {
  }

  lemma {:induction false} BareTwicePart(p: Part)
    ensures BarePart(BarePart(p)) == BarePart(p)
    decreases p
  {
    hide BareAll, Bare;
    match p
    case Leaf(_) =>
    case Sub(e) => BareTwice(e);
    case Taken(ps) => BareTwiceAll(ps);
    case Skipped(ps) => BareTwiceAll(ps);
    case Rep(ps) => BareTwiceAll(ps);
  }

  lemma {:induction false} BareTwiceAll(ps: seq<Part>)
    ensures BareAll(BareAll(ps)) == BareAll(ps)
    decreases ps
  {
    hide BarePart;
    if ps != [] {
      BareTwicePart(ps[0]);
      BareTwiceAll(ps[1..]);
      BareCons(BarePart(ps[0]), BareAll(ps[1..]));
    }
  }

  // ----- the shape stays -----

  lemma {:induction false} BareShaped(c: Cst)
    requires Shaped(c)
    ensures Shaped(Bare(c)) && !IsParen(Bare(c))
    decreases c, 0
  {
    hide ShapedAll, BareAll, PrefixForm, InfixForm;
    match c
    case Prefix(head, ps) =>
      if IsParen(c) {
        ParenShaped(ps);
        BareSub(ps[0]);
      } else {
        BareAllShaped(PrefixForm(head).value, ps);
        NotParen(head, ps);
      }
    case Infix(left, op, ps) =>
      BareShaped(left);
      BareAllShaped(InfixForm(op).value, ps);
  }

  lemma ParenShaped(ps: seq<Part>)
    requires ShapedAll(PrefixForm(Sym(OpenParen)).value, ps)
    ensures ps != [] && ps[0].Sub? && Shaped(ps[0].e)
  {
    hide Shaped;
  }

  lemma NotParen(head: Token, ps: seq<Part>)
    requires PrefixForm(head).Some? && ShapedAll(PrefixForm(head).value, ps) && !IsParen(Prefix(head, ps))
    ensures head != Sym(OpenParen)
  {
    if head == Sym(OpenParen) { ParenShaped(ps); }
  }

  lemma {:induction false} BareSub(p: Part)
    requires p.Sub? && Shaped(p.e)
    ensures Shaped(Bare(p.e)) && !IsParen(Bare(p.e))
    decreases p
  {
    BareShaped(p.e);
  }

  lemma {:induction false} BareAllShaped(items: seq<Item>, ps: seq<Part>)
    requires ShapedAll(items, ps)
    ensures ShapedAll(items, BareAll(ps))
    decreases ps, 1
  {
    hide ShapedOne, BarePart;
    if items != [] {
      BareOneShaped(items[0], ps[0]);
      BareAllShaped(items[1..], ps[1..]);
    }
  }

  lemma {:induction false} BareOneShaped(i: Item, p: Part)
    requires ShapedOne(i, p)
    ensures ShapedOne(i, BarePart(p))
    decreases p, 2
  {
    hide ShapedAll, ShapedWhile, ShapedUntil, ShapedSep, Shaped, Bare;
    match i
    case SubExpr(_) => BareShaped(p.e);
    case TypeRef =>
      HeadStays(p.ps);
      BareAllShaped(TYPE_TAIL, p.ps[1..]);
    case Either(k, yes, no) =>
      if p.Taken? {
        HeadStays(p.ps);
        BareAllShaped(yes, p.ps[1..]);
      } else {
        BareAllShaped(no, p.ps);
      }
    case While(k, body) => BareWhile(k, body, p.ps);
    case Until(k) => BareUntil(k, p.ps);
    case Sep(close, body) => BareSep(close, body, p.ps);
    case _ =>
  }

  lemma {:induction false} BareWhile(k: Kind, body: seq<Item>, ps: seq<Part>)
    requires ShapedWhile(k, body, ps)
    ensures ShapedWhile(k, body, BareAll(ps))
    decreases ps, 0
  {
    hide ShapedRound, BarePart;
    if ps != [] {
      BareRound(k, body, ps[0]);
      BareWhile(k, body, ps[1..]);
    }
  }

  lemma {:induction false} BareRound(k: Kind, body: seq<Item>, p: Part)
    requires ShapedRound(k, body, p)
    ensures ShapedRound(k, body, BarePart(p))
    decreases p, 2
  {
    hide ShapedAll;
    HeadStays(p.ps);
    BareAllShaped(body, p.ps[1..]);
  }

  lemma {:induction false} BareUntil(k: Kind, ps: seq<Part>)
    requires ShapedUntil(k, ps)
    ensures ShapedUntil(k, BareAll(ps))
    decreases ps, 0
  {
    hide Shaped, Bare;
    if ps[0] != Leaf(Sym(k)) {
      BareOneShaped(EXPR, ps[0]);
      BareUntil(k, ps[1..]);
    }
  }

  lemma {:induction false} BareSep(close: Kind, body: seq<Item>, ps: seq<Part>)
    requires ShapedSep(close, body, ps)
    ensures ShapedSep(close, body, BareAll(ps))
    decreases ps, 0
  {
    hide ShapedMember;
    var m := ps[0];
    BareMember(body, m);
    assert ps == [m] + ([ps[1]] + ps[2..]);
    BareCons(m, [ps[1]] + ps[2..]);
    BareCons(ps[1], ps[2..]);
    var all := BareAll(ps);
    assert all[0] == BarePart(m) && all[1] == ps[1] && all[2..] == BareAll(ps[2..]);
    if |ps| > 2 { BareSep(close, body, ps[2..]); }
  }

  lemma {:induction false} BareMember(body: seq<Item>, p: Part)
    requires ShapedMember(body, p)
    ensures ShapedMember(body, BarePart(p))
    decreases p, 2
  {
    hide ShapedAll;
    BareAllShaped(body, p.ps);
  }

  // ----- the node stays -----

  lemma {:induction false} BareNode(c: Cst, s: Storage)
    ensures NodeOf(Bare(c), s) == NodeOf(c, s)
    decreases c
  {
    hide BareAll, PrefixNode, InfixNode;
    match c
    case Prefix(head, ps) =>
      if IsParen(c) {
        BareSubNode(ps[0], s);
        FirstNode(ps, s);
      } else {
        BarePieces(ps, BodyStorage(head, s));
      }
    case Infix(left, op, ps) =>
      BareNode(left, s);
      BarePieces(ps, s);
  }

  lemma {:induction false} BareSubNode(p: Part, s: Storage)
    requires p.Sub?
    ensures NodeOf(Bare(p.e), s) == NodeOf(p.e, s)
    decreases p
  {
    BareNode(p.e, s);
  }

  lemma FirstNode(ps: seq<Part>, s: Storage)
    requires ps != [] && ps[0].Sub?
    ensures NodeOf(Prefix(Sym(OpenParen), ps), s) == NodeOf(ps[0].e, s)
  {
    hide Nodes;
    NodesCons(PieceOf(ps[0], s), Pieces(ps[1..], s));
  }

  lemma {:induction false} BarePieces(ps: seq<Part>, s: Storage)
    ensures Pieces(BareAll(ps), s) == Pieces(ps, s)
    decreases ps
  {
    hide BarePart, PieceOf;
    if ps != [] {
      BarePiece(ps[0], s);
      BarePieces(ps[1..], s);
    }
  }

  lemma {:induction false} BarePiece(p: Part, s: Storage)
    ensures PieceOf(BarePart(p), s) == PieceOf(p, s)
    decreases p
  {
    hide Bare, NodeOf;
    match p
    case Leaf(_) =>
    case Sub(e) => BareNode(e, s);
    case Taken(ps) => BarePieces(ps, s);
    case Skipped(ps) => BarePieces(ps, s);
    case Rep(ps) => BarePieces(ps, s);
  }

  // ----- guarding takes nothing away -----

  lemma ParenBare(c: Cst)
    ensures Bare(Paren(c)) == Bare(c)
  {
  }

  lemma {:induction false} GuardBare(q: int, c: Cst, next: Option<Token>)
    ensures Bare(Guard(q, c, next)) == Bare(c)
    decreases c, 3
  {
    hide Bound, Bare, Inside;
    InsideBare(q, c, next);
    InsideBare(0, c, CLOSE);
    ParenBare(Inside(0, c, CLOSE));
  }

  lemma {:induction false} InsideBare(p: int, c: Cst, next: Option<Token>)
    ensures Bare(Inside(p, c, next)) == Bare(c)
    decreases c, 2
  {
    hide GuardAll, GuardLeft, PrefixForm, InfixForm, BareAll;
    match c
    case Prefix(head, ps) =>
      if IsParen(c) {
        InParenBare(ps, next);
      } else if PrefixForm(head).Some? {
        ItemsBare(PrefixForm(head).value, ps, next);
        StillNoParen(head, ps, next);
      }
    case Infix(left, op, ps) =>
      LeftBare(p, left, op);
      if InfixForm(op).Some? { ItemsBare(InfixForm(op).value, ps, next); }
  }

  lemma StillNoParen(head: Token, ps: seq<Part>, next: Option<Token>)
    requires !IsParen(Prefix(head, ps)) && PrefixForm(head).Some?
    ensures !IsParen(Prefix(head, GuardAll(PrefixForm(head).value, ps, next)))
  {
    hide Guard;
  }

  lemma {:induction false} InParenBare(ps: seq<Part>, next: Option<Token>)
    requires ps != [] && ps[0].Sub?
    ensures Bare(Inside(0, Prefix(Sym(OpenParen), ps), next)) == Bare(ps[0].e)
    ensures forall p :: Inside(p, Prefix(Sym(OpenParen), ps), next) == Inside(0, Prefix(Sym(OpenParen), ps), next)
    decreases ps
  {
    hide Guard, FlattenAll;
    var items := PrefixForm(Sym(OpenParen)).value;
    var nxt := Ahead(FlattenAll(GuardAll(items[1..], ps[1..], next)), next);
    PartBare(ps[0], nxt);
    assert GuardAll(items, ps, next)[0] == Sub(Guard(0, ps[0].e, nxt));
  }

  lemma {:induction false} PartBare(p: Part, next: Option<Token>)
    requires p.Sub?
    ensures Bare(Guard(0, p.e, next)) == Bare(p.e)
    decreases p
  {
    GuardBare(0, p.e, next);
  }

  lemma {:induction false} LeftBare(p: int, left: Cst, op: Token)
    ensures Bare(GuardLeft(p, left, op)) == Bare(left)
    decreases left, 3
  {
    hide BoundSpine, Bare, Inside;
    InsideBare(p, left, Some(op));
    InsideBare(0, left, CLOSE);
    ParenBare(Inside(0, left, CLOSE));
  }

  lemma {:induction false} ItemsBare(items: seq<Item>, ps: seq<Part>, next: Option<Token>)
    ensures BareAll(GuardAll(items, ps, next)) == BareAll(ps)
    decreases ps, 1
  {
    hide GuardOne, BarePart, FlattenAll;
    if items != [] && ps != [] {
      var rest := GuardAll(items[1..], ps[1..], next);
      var nxt := Ahead(FlattenAll(rest), next);
      ItemsBare(items[1..], ps[1..], next);
      ItemBare(items[0], ps[0], nxt);
      BareCons(GuardOne(items[0], ps[0], nxt), rest);
    }
  }

  lemma {:induction false} ItemBare(i: Item, p: Part, next: Option<Token>)
    ensures BarePart(GuardOne(i, p, next)) == BarePart(p)
    decreases p, 2
  {
    hide Guard, GuardAll, GuardWhile, GuardUntil, GuardSep, Bare;
    match i
    case SubExpr(q) => if p.Sub? { GuardBare(q, p.e, next); }
    case TypeRef => if p.Rep? && p.ps != [] { TailBare(TYPE_TAIL, p.ps, next); }
    case Either(_, yes, no) =>
      if p.Taken? && p.ps != [] {
        TailBare(yes, p.ps, next);
      } else if p.Skipped? {
        ItemsBare(no, p.ps, next);
      }
    case While(_, body) => if p.Rep? { RoundsBare(body, p.ps, next); }
    case Until(_) => if p.Rep? { StatementsBare(p.ps, next); }
    case Sep(_, body) => if p.Rep? { MembersBare(body, p.ps, next); }
    case _ =>
  }

  lemma {:induction false} TailBare(items: seq<Item>, ps: seq<Part>, next: Option<Token>)
    requires ps != []
    ensures BareAll([ps[0]] + GuardAll(items, ps[1..], next)) == BareAll(ps)
    decreases ps, 0
  {
    hide GuardAll, BarePart;
    ItemsBare(items, ps[1..], next);
    BareCons(ps[0], GuardAll(items, ps[1..], next));
  }

  lemma {:induction false} RoundsBare(body: seq<Item>, ps: seq<Part>, next: Option<Token>)
    ensures BareAll(GuardWhile(body, ps, next)) == BareAll(ps)
    decreases ps, 0
  {
    hide GuardRound, BarePart, FlattenAll;
    if ps != [] {
      var rest := GuardWhile(body, ps[1..], next);
      var nxt := Ahead(FlattenAll(rest), next);
      RoundsBare(body, ps[1..], next);
      RoundBare(body, ps[0], nxt);
      BareCons(GuardRound(body, ps[0], nxt), rest);
    }
  }

  lemma {:induction false} RoundBare(body: seq<Item>, p: Part, next: Option<Token>)
    ensures BarePart(GuardRound(body, p, next)) == BarePart(p)
    decreases p, 2
  {
    hide GuardAll, BareAll;
    if p.Rep? && p.ps != [] { TailBare(body, p.ps, next); }
  }

  lemma {:induction false} StatementsBare(ps: seq<Part>, next: Option<Token>)
    ensures BareAll(GuardUntil(ps, next)) == BareAll(ps)
    decreases ps, 0
  {
    hide GuardOne, BarePart, FlattenAll;
    if ps != [] {
      var rest := GuardUntil(ps[1..], next);
      var nxt := Ahead(FlattenAll(rest), next);
      StatementsBare(ps[1..], next);
      ItemBare(EXPR, ps[0], nxt);
      BareCons(GuardOne(EXPR, ps[0], nxt), rest);
    }
  }

  lemma {:induction false} MembersBare(body: seq<Item>, ps: seq<Part>, next: Option<Token>)
    ensures BareAll(GuardSep(body, ps, next)) == BareAll(ps)
    decreases ps, 0
  {
    hide GuardMember, BarePart, FlattenAll;
    if |ps| >= 2 {
      var more := GuardSep(body, ps[2..], next);
      var rest := [ps[1]] + more;
      var nxt := Ahead(FlattenAll(rest), next);
      MembersBare(body, ps[2..], next);
      MemberBare(body, ps[0], nxt);
      BareCons(GuardMember(body, ps[0], nxt), rest);
      BareCons(ps[1], more);
      BareCons(ps[0], [ps[1]] + ps[2..]);
      BareCons(ps[1], ps[2..]);
      assert ps == [ps[0]] + ([ps[1]] + ps[2..]);
    }
  }

  lemma {:induction false} MemberBare(body: seq<Item>, p: Part, next: Option<Token>)
    ensures BarePart(GuardMember(body, p, next)) == BarePart(p)
    decreases p, 2
  {
    hide GuardAll, BareAll;
    if p.Rep? { ItemsBare(body, p.ps, next); }
  }

  /** Guarding keeps the shape. */
  lemma {:induction false} GuardShaped(q: int, c: Cst, next: Option<Token>)
    requires Shaped(c)
    ensures Shaped(Guard(q, c, next))
    decreases c, 3
  {
    hide Bound, Shaped, Inside;
    InsideShaped(q, c, next);
    InsideShaped(0, c, CLOSE);
    ShapedParen(Inside(0, c, CLOSE));
  }

  lemma ShapedParen(c: Cst)
    requires Shaped(c)
    ensures Shaped(Paren(c))
  {
    var items := [EXPR, Lit(CloseParen)];
    var ps := [Sub(c), Leaf(Sym(CloseParen))];
    assert items[1..] == [Lit(CloseParen)] && ps[1..] == [Leaf(Sym(CloseParen))] && items[1..][1..] == [] && ps[1..][1..] == [];
    assert ShapedOne(EXPR, ps[0]) && ShapedOne(items[1..][0], ps[1..][0]);
    assert ShapedAll(items[1..], ps[1..]);
  }

  lemma {:induction false} InsideShaped(p: int, c: Cst, next: Option<Token>)
    requires Shaped(c)
    ensures Shaped(Inside(p, c, next))
    decreases c, 2
  {
    hide GuardAll, GuardLeft, PrefixForm, InfixForm, ShapedAll;
    match c
    case Prefix(head, ps) => ItemsShaped(PrefixForm(head).value, ps, next);
    case Infix(left, op, ps) =>
      LeftShaped(p, left, op);
      ItemsShaped(InfixForm(op).value, ps, next);
  }

  lemma {:induction false} LeftShaped(p: int, left: Cst, op: Token)
    requires Shaped(left)
    ensures Shaped(GuardLeft(p, left, op))
    decreases left, 3
  {
    hide BoundSpine, Shaped, Inside;
    InsideShaped(p, left, Some(op));
    InsideShaped(0, left, CLOSE);
    ShapedParen(Inside(0, left, CLOSE));
  }

  lemma {:induction false} ItemsShaped(items: seq<Item>, ps: seq<Part>, next: Option<Token>)
    requires ShapedAll(items, ps)
    ensures ShapedAll(items, GuardAll(items, ps, next))
    decreases ps, 1
  {
    hide GuardOne, ShapedOne, FlattenAll;
    if items != [] {
      var rest := GuardAll(items[1..], ps[1..], next);
      var nxt := Ahead(FlattenAll(rest), next);
      ItemsShaped(items[1..], ps[1..], next);
      ItemShaped(items[0], ps[0], nxt);
      assert ([GuardOne(items[0], ps[0], nxt)] + rest)[1..] == rest;
    }
  }

  lemma {:induction false} ItemShaped(i: Item, p: Part, next: Option<Token>)
    requires ShapedOne(i, p)
    ensures ShapedOne(i, GuardOne(i, p, next))
    decreases p, 2
  {
    hide Guard, GuardAll, GuardWhile, GuardUntil, GuardSep, Shaped, ShapedAll, ShapedWhile, ShapedUntil, ShapedSep;
    match i
    case SubExpr(q) => GuardShaped(q, p.e, next);
    case TypeRef =>
      ItemsShaped(TYPE_TAIL, p.ps[1..], next);
      assert ([p.ps[0]] + GuardAll(TYPE_TAIL, p.ps[1..], next))[1..] == GuardAll(TYPE_TAIL, p.ps[1..], next);
    case Either(k, yes, no) =>
      if p.Taken? {
        ItemsShaped(yes, p.ps[1..], next);
        assert ([p.ps[0]] + GuardAll(yes, p.ps[1..], next))[1..] == GuardAll(yes, p.ps[1..], next);
      } else {
        ItemsShaped(no, p.ps, next);
      }
    case While(k, body) => RoundsShaped(k, body, p.ps, next);
    case Until(k) => StatementsShaped(k, p.ps, next);
    case Sep(close, body) => MembersShaped(close, body, p.ps, next);
    case _ =>
  }

  lemma {:induction false} RoundsShaped(k: Kind, body: seq<Item>, ps: seq<Part>, next: Option<Token>)
    requires ShapedWhile(k, body, ps)
    ensures ShapedWhile(k, body, GuardWhile(body, ps, next))
    decreases ps, 0
  {
    hide GuardRound, ShapedRound, FlattenAll;
    if ps != [] {
      RoundsShaped(k, body, ps[1..], next);
      RoundShaped(k, body, ps[0], Ahead(FlattenAll(GuardWhile(body, ps[1..], next)), next));
    }
  }

  lemma {:induction false} RoundShaped(k: Kind, body: seq<Item>, p: Part, next: Option<Token>)
    requires ShapedRound(k, body, p)
    ensures ShapedRound(k, body, GuardRound(body, p, next))
    decreases p, 2
  {
    hide GuardAll, ShapedAll;
    ItemsShaped(body, p.ps[1..], next);
    assert ([p.ps[0]] + GuardAll(body, p.ps[1..], next))[1..] == GuardAll(body, p.ps[1..], next);
  }

  lemma {:induction false} StatementsShaped(k: Kind, ps: seq<Part>, next: Option<Token>)
    requires ShapedUntil(k, ps)
    ensures ShapedUntil(k, GuardUntil(ps, next))
    decreases ps, 0
  {
    hide Guard, Shaped, FlattenAll;
    var rest := GuardUntil(ps[1..], next);
    var nxt := Ahead(FlattenAll(rest), next);
    assert ([GuardOne(EXPR, ps[0], nxt)] + rest)[1..] == rest;
    if ps[0] != Leaf(Sym(k)) {
      ItemShaped(EXPR, ps[0], nxt);
      StatementsShaped(k, ps[1..], next);
    }
  }

  lemma {:induction false} MembersShaped(close: Kind, body: seq<Item>, ps: seq<Part>, next: Option<Token>)
    requires ShapedSep(close, body, ps)
    ensures ShapedSep(close, body, GuardSep(body, ps, next))
    decreases ps, 0
  {
    hide GuardMember, ShapedMember, FlattenAll;
    var more := GuardSep(body, ps[2..], next);
    var rest := [ps[1]] + more;
    var nxt := Ahead(FlattenAll(rest), next);
    MemberShaped(body, ps[0], nxt);
    var all := [GuardMember(body, ps[0], nxt)] + rest;
    assert all[1] == ps[1] && all[2..] == more;
    if |ps| > 2 { MembersShaped(close, body, ps[2..], next); }
  }

  lemma {:induction false} MemberShaped(body: seq<Item>, p: Part, next: Option<Token>)
    requires ShapedMember(body, p)
    ensures ShapedMember(body, GuardMember(body, p, next))
    decreases p, 2
  {
    hide GuardAll, ShapedAll;
    ItemsShaped(body, p.ps, next);
  }

  /** Guarding keeps the node. */
  lemma GuardNode(q: int, c: Cst, next: Option<Token>, s: Storage)
    ensures NodeOf(Guard(q, c, next), s) == NodeOf(c, s)
  {
    hide NodeOf, Bare, Guard;
    GuardBare(q, c, next);
    BareNode(Guard(q, c, next), s);
    BareNode(c, s);
  }
}
