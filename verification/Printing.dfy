/** Printing a node with parentheses only where they are needed, and parsing it back. */
module Printing {
  import opened Common
  import opened Tokens
  import opened Grammar
  import opened Parse
  import opened ParseCorrect
  import opened Ast
  import opened Build
  import opened Parens
  import opened Lookahead
  import opened Guarding
  import opened Stripping
  import opened Needed
  import opened Forms
  import opened FormNodes

  /** The written form, without any parentheses. */
  function Show(n: Node): Cst {
    Bare(Form(n))
  }

  /** The printed form as an operand at precedence `q` with `next` after it. */
  function ShowAt(q: int, n: Node, next: Option<Token>): Cst {
    Guard(q, Show(n), next)
  }

  /** No statement of a block but the first begins with an opening parenthesis or `!` when printed. */
  predicate Plain(n: Node) {
    Listed(Show(n))
  }

  lemma ShowFacts(n: Node)
    requires Printable(n)
    ensures Shaped(Show(n)) && Bare(Show(n)) == Show(n)
  {
    hide Shaped, Bare, Form;
    FormShaped(n);
    BareShaped(Form(n));
    BareTwice(Form(n));
  }

  /** The printed form stands for the node. */
  lemma ShowIs(q: int, n: Node, next: Option<Token>, s: Storage)
    requires Printable(n) && KindsExact(n, s)
    ensures NodeOf(ShowAt(q, n, next), s) == n
  {
    hide NodeOf, Form, Bare, Guard;
    FormIs(n, s);
    BareNode(Form(n), s);
    GuardNode(q, Show(n), next, s);
  }

  /** The printed form is well bound exactly when its statements begin plainly and `next` does not bind
      tighter than the place it is in. */
  lemma ShowBound(q: int, n: Node, next: Option<Token>)
    requires Printable(n)
    ensures Bound(q, ShowAt(q, n, next), next) <==> Plain(n) && Stops(q, next)
  {
    hide Bound, Shaped, Listed, Form, Bare, Guard;
    ShowFacts(n);
    GuardedExactlyWhenListed(q, Show(n), next);
  }

  /** Printing a node anywhere and parsing it there gives it back and leaves what follows, whatever that
      is.  This holds exactly when statements begin plainly and what follows does not bind tighter. */
  lemma PrintThenParse(q: int, n: Node, rest: seq<Token>, s: Storage)
    requires Printable(n) && KindsExact(n, s)
    ensures var c := ShowAt(q, n, First(rest));
            && NodeOf(c, s) == n
            && (ParseExpr(q, Flatten(c) + rest) == Ok(c, rest) <==> Plain(n) && Stops(q, First(rest)))
  {
    hide Flatten, ParseExpr, Bound, Form, NodeOf, Plain, ShowAt;
    var c := ShowAt(q, n, First(rest));
    ShowIs(q, n, First(rest), s);
    ShowBound(q, n, First(rest));
    ParserFindsTheBoundTree(q, Flatten(c) + rest, c, rest);
  }

  /** At the top, before the end of the input or anything else that continues nothing, no parentheses are
      printed around the whole, not even around open-ended forms. */
  lemma PrintThenParseTop(n: Node, rest: seq<Token>, s: Storage)
    requires Printable(n) && KindsExact(n, s) && Plain(n) && CalmNext(First(rest))
    ensures var c := ShowAt(0, n, First(rest)); !IsParen(c) && ParseExpr(0, Flatten(c) + rest) == Ok(c, rest) && NodeOf(c, s) == n
  {
    hide Flatten, ParseExpr, Bound, Form, NodeOf, Guard, CalmNext, Inside, Bare, Shaped, Listed;
    var next := First(rest);
    ShowFacts(n);
    FormShaped(n);
    BareShaped(Form(n));
    CalmStops(next);
    InsideBound(Show(n), next);
    InsideNoParen(0, Show(n), next);
    GuardTop(Show(n), next);
    PrintThenParse(0, n, rest, s);
  }

  lemma GuardTop(c: Cst, next: Option<Token>)
    requires Bound(0, Inside(0, c, next), next)
    ensures Guard(0, c, next) == Inside(0, c, next)
  {
    hide Bound, Inside;
  }

  /** No other way of putting in parentheses helps: a node that cannot be printed has no source text. */
  lemma UnprintableHasNoSource(q: int, n: Node, next: Option<Token>)
    requires Printable(n)
    ensures HasSource(q, Show(n), next) <==> Plain(n) && Stops(q, next)
  {
    hide Bound, Shaped, Listed, Form, Bare, HasSource;
    ShowFacts(n);
    SourceExactlyWhenListed(q, Show(n), next);
  }

  /** Parentheses are printed around a node only where every source text has them. */
  lemma OnlyNeededParentheses(q: int, n: Node, d: Cst, next: Option<Token>)
    requires Printable(n) && IsSource(q, d, Show(n), next) && !IsParen(d)
    ensures !IsParen(ShowAt(q, n, next))
  {
    hide Bound, Shaped, Form, Bare, Guard;
    EverySourceHasThem(q, d, next);
  }

  /** A bare left operand whose operator binds less tightly, that is an assignment, or that has an open
      form at its right end is never what its tokens are parsed to, whatever follows. */
  lemma ParenthesesAreNeeded(p: int, l: Cst, op: Kind, r: Cst, next: Option<Token>)
    requires IsBinary(op)
    requires (l.Infix? && (Precedence(l.op) < KindPrecedence(op) || l.op == Sym(OpAssign))) || RightLevel(l) < KindPrecedence(op)
    ensures !Bound(p, Infix(l, Sym(op), [Sub(r)]), next)
  {
    hide Bound, RightLevel;
    if Bound(p, Infix(l, Sym(op), [Sub(r)]), next) {
      OperandsBindTighter(p, l, op, r, next);
    }
  }

  lemma RightParenthesesAreNeeded(p: int, l: Cst, op: Kind, r: Cst, next: Option<Token>)
    requires IsBinary(op) && r.Infix? && Precedence(r.op) <= RightPrecedence(op)
    ensures !Bound(p, Infix(l, Sym(op), [Sub(r)]), next)
  {
    hide Bound, RightLevel;
    if Bound(p, Infix(l, Sym(op), [Sub(r)]), next) {
      OperandsBindTighter(p, l, op, r, next);
    }
  }

  /** A block whose second statement is a negation cannot be written: `{ a !b }` is something else, and so is
      `{ a (!b) }`. */
  lemma SecondNegationHasNoSource(q: int, m: Node, n: Node, storage: Storage, next: Option<Token>)
    requires Printable(m) && Printable(n)
    ensures var block := CompoundExpr(storage, [m, UnaryExpr(OpNot, n)]); Printable(block) && !HasSource(q, Show(block), next)
  {
    hide Printable, HasSource, Form;
    var second := UnaryExpr(OpNot, n);
    var block := CompoundExpr(storage, [m, second]);
    BlockPrintable(m, n, storage);
    UnprintableHasNoSource(q, block, next);
    BlockShown(m, second, storage);
    var c := Prefix(Sym(OpNot), [Sub(Bare(Form(n)))]);
    NegationShown(n);
    TwoStatements(Bare(Form(m)), c);
  }

  lemma BlockPrintable(m: Node, n: Node, storage: Storage)
    requires Printable(m) && Printable(n)
    ensures Printable(CompoundExpr(storage, [m, UnaryExpr(OpNot, n)]))
  {
  }

  lemma BlockShown(m: Node, n: Node, storage: Storage)
    ensures Show(CompoundExpr(storage, [m, n])) == Prefix(Sym(OpenCurly), [Rep([Sub(Bare(Form(m))), Sub(Bare(Form(n))), Leaf(Sym(CloseCurly))])])
  {
    TwoForms(m, n);
    TwoBare(Form(m), Form(n));
  }

  lemma TwoForms(m: Node, n: Node)
    ensures Statements(FormAll([m, n])) == [Sub(Form(m)), Sub(Form(n)), Leaf(Sym(CloseCurly))]
  {
    hide Form;
    assert [m, n][1..] == [n] && [n][1..] == [];
    assert FormAll([n]) == [Form(n)];
    var ms := [Form(m), Form(n)];
    assert FormAll([m, n]) == ms && ms[1..] == [Form(n)] && ms[1..][1..] == [];
    assert Statements([Form(n)]) == [Sub(Form(n)), Leaf(Sym(CloseCurly))];
  }

  lemma TwoBare(m: Cst, n: Cst)
    ensures Bare(Prefix(Sym(OpenCurly), [Rep([Sub(m), Sub(n), Leaf(Sym(CloseCurly))])]))
         == Prefix(Sym(OpenCurly), [Rep([Sub(Bare(m)), Sub(Bare(n)), Leaf(Sym(CloseCurly))])])
  {
    hide Bare, BareAll;
    var w := Leaf(Sym(CloseCurly));
    var ps := [Sub(m), Sub(n), w];
    LeafStays(Sym(CloseCurly));
    BareCons(Sub(n), [w]);
    BareCons(Sub(m), [Sub(n), w]);
    assert [Sub(n)] + [w] == [Sub(n), w] && [Sub(m)] + [Sub(n), w] == ps;
    BlockBare(ps);
    assert BareAll(ps) == [Sub(Bare(m)), Sub(Bare(n)), w];
  }

  lemma BlockBare(ps: seq<Part>)
    ensures Bare(Prefix(Sym(OpenCurly), [Rep(ps)])) == Prefix(Sym(OpenCurly), [Rep(BareAll(ps))])
  {
    BareCons(Rep(ps), []);
    assert [Rep(ps)] + [] == [Rep(ps)];
  }

  lemma NegationShown(n: Node)
    ensures Bare(Form(UnaryExpr(OpNot, n))) == Prefix(Sym(OpNot), [Sub(Bare(Form(n)))])
  {
    BareCons(Sub(Form(n)), []);
    assert [Sub(Form(n))] + [] == [Sub(Form(n))];
  }

  lemma TwoStatements(m: Cst, c: Cst)
    requires c.Prefix? && c.head == Sym(OpNot)
    ensures !Listed(Prefix(Sym(OpenCurly), [Rep([Sub(m), Sub(c), Leaf(Sym(CloseCurly))])]))
  {
    hide Bound, Guard, Begins, Listed;
    var ps := [Sub(m), Sub(c), Leaf(Sym(CloseCurly))];
    BlockListed(ps);
    if ListedUntil(ps) { SecondPlain(ps); }
    assert ps[1..] == [Sub(c), Leaf(Sym(CloseCurly))];
    var rest := GuardUntil(ps[1..][1..], None);
    var nxt := Ahead(FlattenAll(rest), None);
    assert GuardUntil(ps[1..], None)[0] == Sub(Guard(0, c, nxt));
    NegationBegins(c, nxt);
  }

  lemma SecondPlain(ps: seq<Part>)
    requires |ps| > 1 && ListedUntil(ps)
    ensures !Begins(GuardUntil(ps[1..], None)[0])
  {
    hide Begins, GuardUntil, Listed;
  }

  lemma BlockListed(ps: seq<Part>)
    ensures Listed(Prefix(Sym(OpenCurly), [Rep(ps)])) ==> ListedUntil(ps)
  {
    hide ListedUntil;
    var items, parts := [Until(CloseCurly)], [Rep(ps)];
    assert PrefixForm(Sym(OpenCurly)).value == items;
    assert ListedAll(items, parts) ==> ListedOne(items[0], parts[0]);
  }

  lemma NegationBegins(c: Cst, next: Option<Token>)
    requires c.Prefix? && c.head == Sym(OpNot)
    ensures Begins(Sub(Guard(0, c, next)))
  {
    hide Bound, GuardAll, Inside, FlattenAll;
    var g := Guard(0, c, next);
    NegationInside(c, next);
    assert g.Prefix? && (g.head == Sym(OpNot) || g.head == Sym(OpenParen));
    assert Flatten(g) == [g.head] + FlattenAll(g.ps);
  }

  lemma NegationInside(c: Cst, next: Option<Token>)
    requires c.Prefix? && c.head == Sym(OpNot)
    ensures Inside(0, c, next).Prefix? && Inside(0, c, next).head == Sym(OpNot)
  {
    hide GuardAll;
  }

  // ----- whole modules -----

  function ShowModule(ns: seq<Node>): (cs: seq<Cst>)
    ensures |cs| == |ns|
  {
    if ns == [] then []
    else
      var rest := ShowModule(ns[1..]);
      [ShowAt(0, ns[0], First(FlattenModule(rest)))] + rest
  }

  /** The statements of a module are those of a block: all but the first begin plainly. */
  predicate PlainModule(ns: seq<Node>) {
    ns == [] || (Plain(ns[0]) && PlainModule(ns[1..]) && (|ns| > 1 ==> BeginsBare(ShowModule(ns[1..])[0])))
  }

  predicate BeginsBare(c: Cst) {
    First(Flatten(c)) !in {Some(Sym(OpenParen)), Some(Sym(OpNot))}
  }

  lemma ModuleStops(ns: seq<Node>)
    requires forall i | 0 <= i < |ns| :: Printable(ns[i])
    ensures ns != [] ==> (Stops(0, First(FlattenModule(ShowModule(ns)))) <==> BeginsBare(ShowModule(ns)[0]))
    ensures ns == [] ==> Stops(0, First(FlattenModule(ShowModule(ns))))
  {
    hide Flatten, KindPrecedence, PrefixForm, Shaped, Show, Guard, Printable;
    if ns != [] {
      var rest := FlattenModule(ShowModule(ns[1..]));
      var c := ShowModule(ns)[0];
      ShowFacts(ns[0]);
      GuardHead(0, Show(ns[0]), First(rest));
      BeginsPlainly(Flatten(c)[0]);
      FirstOf(c, rest);
    }
  }

  /** A printed module is parsed to its own trees, which stand for its nodes, exactly when it is plain. */
  lemma {:induction false} PrintModuleThenParse(ns: seq<Node>, s: Storage)
    requires AllKinds(ns, s) && forall i | 0 <= i < |ns| :: Printable(ns[i])
    ensures ParseModule(FlattenModule(ShowModule(ns))) == Ok(ShowModule(ns), []) <==> PlainModule(ns)
    ensures forall i | 0 <= i < |ns| :: NodeOf(ShowModule(ns)[i], s) == ns[i]
    decreases ns
  {
    hide ParseModule, FlattenModule, BoundModule, KindsExact, Printable;
    ModuleBound(ns);
    ModuleNodes(ns, s);
    ModuleIsItsBoundTrees(FlattenModule(ShowModule(ns)), ShowModule(ns));
  }

  lemma {:induction false} ModuleBound(ns: seq<Node>)
    requires forall i | 0 <= i < |ns| :: Printable(ns[i])
    ensures BoundModule(ShowModule(ns)) <==> PlainModule(ns)
    decreases ns
  {
    hide Bound, Flatten, FlattenModule, Plain, ShowAt, Printable, BeginsBare, KindPrecedence;
    if ns != [] {
      var rest := ShowModule(ns[1..]);
      var next := First(FlattenModule(rest));
      ModuleBound(ns[1..]);
      ShowBound(0, ns[0], next);
      ModuleStops(ns[1..]);
      assert ShowModule(ns)[1..] == rest;
    }
  }

  lemma {:induction false} ModuleNodes(ns: seq<Node>, s: Storage)
    requires AllKinds(ns, s) && forall i | 0 <= i < |ns| :: Printable(ns[i])
    ensures forall i | 0 <= i < |ns| :: NodeOf(ShowModule(ns)[i], s) == ns[i]
    decreases ns
  {
    hide NodeOf, FlattenModule, ShowAt, KindsExact, Printable;
    if ns != [] {
      ShowIs(0, ns[0], First(FlattenModule(ShowModule(ns[1..]))), s);
      ModuleNodes(ns[1..], s);
    }
  }
}
