/** One token of look-ahead decides every form: which tokens begin a step, which may come after it, and
    that the two never meet inside a form. */
module Lookahead {
  import opened Common
  import opened Tokens
  import opened Grammar
  import opened Parse
  import opened ParseCorrect

  // ----- which tokens begin a step, and which may come after it -----

  predicate MayBeEmpty(i: Item) {
    match i
    case Either(_, _, no) => AllMayBeEmpty(no)
    case While(_, _) => true
    case _ => false
  }

  predicate AllMayBeEmpty(items: seq<Item>) {
    items == [] || (MayBeEmpty(items[0]) && AllMayBeEmpty(items[1..]))
  }

  predicate Starts(i: Item, t: Token) {
    match i
    case Lit(k) => t == Sym(k)
    case Ident => t.Id?
    case SubExpr(_) => PrefixForm(t).Some?
    case TypeRef => t.Id?
    case Either(k, _, no) => t == Sym(k) || StartsAll(no, t)
    case While(k, _) => t == Sym(k)
    case Until(k) => t == Sym(k) || PrefixForm(t).Some?
    case Sep(_, body) => StartsAll(body, t)
  }

  predicate StartsAll(items: seq<Item>, t: Token) {
    items != [] && (Starts(items[0], t) || (MayBeEmpty(items[0]) && StartsAll(items[1..], t)))
  }

  /** The step ends before `t`. */
  predicate Ends(i: Item, t: Token) {
    match i
    case SubExpr(q) => Precedence(t) <= q
    case TypeRef => t != Sym(OpNamespace) && t != Sym(OpLt)
    case Either(k, yes, no) => EndsAll(yes, t) && EndsAll(no, t) && (AllMayBeEmpty(no) ==> t != Sym(k))
    case While(k, body) => t != Sym(k) && EndsAll(body, t)
    case _ => true
  }

  predicate EndsAll(items: seq<Item>, t: Token) {
    items == [] || (EndsAll(items[1..], t) && (AllMayBeEmpty(items[1..]) ==> Ends(items[0], t)))
  }

  /** The next token always tells where a step ends, and which way to go. */
  ghost predicate DecidedOne(i: Item) {
    match i
    case Either(k, yes, no) => Decided(yes) && Decided(no) && (i != BLOCK ==> !StartsAll(no, Sym(k)))
    case While(k, body) => Decided(body) && EndsAll(body, Sym(k))
    case Until(k) => PrefixForm(Sym(k)).None? && Precedence(Sym(k)) <= 0
    case Sep(close, body) => !AllMayBeEmpty(body) && Decided(body) && EndsAll(body, Sym(close)) && EndsAll(body, Sym(Comma))
    case _ => true
  }

  ghost predicate Decided(items: seq<Item>) {
    items == [] || (DecidedOne(items[0]) && Decided(items[1..]) && EndsBefore(items[0], items[1..]))
  }

  ghost predicate EndsBefore(i: Item, items: seq<Item>) {
    forall t | StartsAll(items, t) :: Ends(i, t)
  }

  // ----- every form is decided -----

  lemma DecidedNone()
    ensures Decided([]) && AllMayBeEmpty([]) && forall t :: EndsAll([], t) && !StartsAll([], t)
  {
  }

  /** One more step in front. */
  lemma DecidedCons(i: Item, items: seq<Item>)
    requires Decided(items) && DecidedOne(i) && EndsBefore(i, items)
    ensures Decided([i] + items)
  {
    assert ([i] + items)[1..] == items;
  }

  lemma ConsFacts(i: Item, items: seq<Item>, t: Token)
    ensures StartsAll([i] + items, t) <==> Starts(i, t) || (MayBeEmpty(i) && StartsAll(items, t))
    ensures EndsAll([i] + items, t) <==> EndsAll(items, t) && (AllMayBeEmpty(items) ==> Ends(i, t))
    ensures AllMayBeEmpty([i] + items) <==> MayBeEmpty(i) && AllMayBeEmpty(items)
  {
    hide Starts, Ends, MayBeEmpty;
    assert ([i] + items)[1..] == items;
  }

  /** What neither binds an operand nor continues a name, a type or an `if`. */
  predicate Calm(t: Token) {
    Precedence(t) <= 0 && t !in {Sym(OpNamespace), Sym(OpLt), Sym(OpDef), Sym(KwElse)}
  }

  ghost predicate EndsCalmly(i: Item) {
    forall t | Calm(t) :: Ends(i, t)
  }

  ghost predicate Good(items: seq<Item>) {
    Decided(items) && forall t | Calm(t) :: EndsAll(items, t)
  }

  lemma GoodNone()
    ensures Good([]) && AllMayBeEmpty([])
  {
  }

  lemma GoodCons(i: Item, items: seq<Item>)
    requires Good(items) && DecidedOne(i) && EndsBefore(i, items) && (AllMayBeEmpty(items) ==> EndsCalmly(i))
    ensures Good([i] + items) && (AllMayBeEmpty([i] + items) <==> MayBeEmpty(i) && AllMayBeEmpty(items))
  {
    hide DecidedOne, Ends, EndsBefore, Calm, EndsAll, AllMayBeEmpty;
    forall t | Calm(t) ensures EndsAll([i] + items, t) { ConsFacts(i, items, t); }
    ConsFacts(i, items, Sym(CloseParen));
    DecidedCons(i, items);
  }

  /** Words, names and lists with an end of their own may be followed by anything. */
  predicate Closed(i: Item) {
    i.Lit? || i.Ident? || i.Until? || i.Sep?
  }

  lemma GoodClosed(i: Item, items: seq<Item>)
    requires Good(items) && Closed(i) && DecidedOne(i)
    ensures Good([i] + items) && !AllMayBeEmpty([i] + items)
    ensures forall t | StartsAll([i] + items, t) :: Starts(i, t)
  {
    hide Good, DecidedOne, AllMayBeEmpty, EndsAll, StartsAll, Starts;
    forall t ensures Ends(i, t) { EndsClosed(i, t); }
    GoodCons(i, items);
    forall t | StartsAll([i] + items, t) ensures Starts(i, t) { ConsFacts(i, items, t); }
  }

  lemma EndsClosed(i: Item, t: Token)
    requires Closed(i)
    ensures Ends(i, t) && !MayBeEmpty(i)
  {
  }

  /** An expression, or a type, before a word. */
  lemma GoodBefore(i: Item, k: Kind, items: seq<Item>)
    requires Good(items) && Ends(i, Sym(k)) && (i == EXPR || i == TypeRef)
    ensures Good([i, Lit(k)] + items) && !AllMayBeEmpty([i, Lit(k)] + items)
  {
    hide Good, AllMayBeEmpty, EndsAll, StartsAll;
    GoodClosed(Lit(k), items);
    GoodCons(i, [Lit(k)] + items);
    assert [i] + ([Lit(k)] + items) == [i, Lit(k)] + items;
  }

  lemma GoodLast(i: Item)
    requires DecidedOne(i) && EndsCalmly(i)
    ensures Good([i])
  {
    hide DecidedOne, Ends;
    GoodNone();
    GoodCons(i, []);
    assert [i] + [] == [i];
  }

  lemma QualifiedDecided()
    ensures DecidedOne(QUALIFIED) && MayBeEmpty(QUALIFIED)
    ensures forall t :: Ends(QUALIFIED, t) <==> t != Sym(OpNamespace)
  {
    DecidedNone();
    DecidedCons(Ident, []);
    assert [Ident] + [] == [Ident];
    forall t ensures EndsAll([Ident], t) { ConsFacts(Ident, [], t); }
  }

  lemma TypeTailDecided()
    ensures Decided(TYPE_TAIL) && forall t | Ends(TypeRef, t) :: EndsAll(TYPE_TAIL, t)
  {
    DecidedNone();
    QualifiedDecided();
    var sep := Sep(OpGt, [TypeRef]);
    var e := Either(OpLt, [sep], []);
    assert [TypeRef] + [] == [TypeRef] && [sep] + [] == [sep] && [e] + [] == [e] && [QUALIFIED] + [e] == TYPE_TAIL;
    forall t
      ensures (EndsAll([TypeRef], t) <==> Ends(TypeRef, t)) && EndsAll([sep], t) && (EndsAll([e], t) <==> t != Sym(OpLt))
      ensures (StartsAll([e], t) <==> t == Sym(OpLt)) && (EndsAll(TYPE_TAIL, t) <==> Ends(TypeRef, t))
    {
      ConsFacts(TypeRef, [], t);
      ConsFacts(sep, [], t);
      ConsFacts(e, [], t);
      ConsFacts(QUALIFIED, [e], t);
    }
    DecidedCons(TypeRef, []);
    DecidedCons(sep, []);
    DecidedCons(e, []);
    DecidedCons(QUALIFIED, [e]);
  }

  /** A list of one step. */
  lemma Single(i: Item)
    ensures forall t :: StartsAll([i], t) <==> Starts(i, t)
    ensures forall t :: EndsAll([i], t) <==> Ends(i, t)
    ensures AllMayBeEmpty([i]) <==> MayBeEmpty(i)
    ensures Decided([i]) <==> DecidedOne(i)
  {
    assert [i] + [] == [i] && [i][1..] == [];
    forall t ensures (StartsAll([i], t) <==> Starts(i, t)) && (EndsAll([i], t) <==> Ends(i, t)) { ConsFacts(i, [], t); }
  }

  /** A step that is there when its first token is. */
  lemma Optional(k: Kind, i: Item)
    requires DecidedOne(i) && Either(k, [i], []) != BLOCK
    ensures var e := Either(k, [i], []);
            && DecidedOne(e) && MayBeEmpty(e) && (forall t :: Ends(e, t) <==> Ends(i, t) && t != Sym(k))
            && forall t :: Starts(e, t) <==> t == Sym(k)
  {
    Single(i);
    DecidedNone();
  }

  /** A list that may be empty. */
  lemma ListOrClose(close: Kind, i: Item)
    requires DecidedOne(i) && i.Sep? && !Starts(i, Sym(close))
    ensures var e := Either(close, [], [i]); DecidedOne(e) && !MayBeEmpty(e) && forall t :: Ends(e, t)
  {
    Single(i);
    DecidedNone();
  }

  lemma ParametersDecided()
    ensures DecidedOne(PARAMETERS) && !MayBeEmpty(PARAMETERS) && forall t :: Ends(PARAMETERS, t)
  {
    var body := [Ident, Lit(OpDef), TypeRef];
    var sep := Sep(CloseParen, body);
    GoodLast(TypeRef);
    GoodClosed(Lit(OpDef), [TypeRef]);
    GoodClosed(Ident, [Lit(OpDef)] + [TypeRef]);
    assert [Ident] + ([Lit(OpDef)] + [TypeRef]) == body;
    BodyEnds();
    ListOrClose(CloseParen, sep);
  }

  lemma BodyEnds()
    ensures EndsAll([Ident, Lit(OpDef), TypeRef], Sym(Comma))
  {
    Single(TypeRef);
    ConsFacts(Lit(OpDef), [TypeRef], Sym(Comma));
    ConsFacts(Ident, [Lit(OpDef)] + [TypeRef], Sym(Comma));
    assert [Ident] + ([Lit(OpDef)] + [TypeRef]) == [Ident, Lit(OpDef), TypeRef];
  }

  lemma TemplateParametersDecided()
    ensures DecidedOne(TEMPLATE_PARAMETERS) && MayBeEmpty(TEMPLATE_PARAMETERS)
    ensures forall t :: Ends(TEMPLATE_PARAMETERS, t) <==> t != Sym(OpLt)
  {
    Single(Ident);
    ListOrClose(OpGt, Sep(OpGt, [Ident]));
    Optional(OpLt, Either(OpGt, [], [Sep(OpGt, [Ident])]));
  }

  const TYPE_ARGUMENTS := Either(OpLt, [Either(OpGt, [], [Sep(OpGt, [TypeRef])])], [])

  lemma TypeArgumentsDecided()
    ensures DecidedOne(TYPE_ARGUMENTS) && MayBeEmpty(TYPE_ARGUMENTS)
    ensures forall t :: Ends(TYPE_ARGUMENTS, t) <==> t != Sym(OpLt)
    ensures forall t :: Starts(TYPE_ARGUMENTS, t) <==> t == Sym(OpLt)
  {
    Single(TypeRef);
    ListOrClose(OpGt, Sep(OpGt, [TypeRef]));
    Optional(OpLt, Either(OpGt, [], [Sep(OpGt, [TypeRef])]));
  }

  lemma ArgumentsDecided()
    ensures DecidedOne(ARGUMENTS) && !MayBeEmpty(ARGUMENTS) && forall t :: Ends(ARGUMENTS, t)
  {
    Single(EXPR);
    ListOrClose(CloseParen, Sep(CloseParen, [EXPR]));
  }

  lemma BlockDecided()
    ensures DecidedOne(BLOCK) && EndsCalmly(BLOCK) && !MayBeEmpty(BLOCK)
    ensures forall t | Starts(BLOCK, t) :: t == Sym(OpenCurly) || PrefixForm(t).Some?
  {
    Single(Until(CloseCurly));
    Single(EXPR);
  }

  /** Conditions in parentheses. */
  lemma GoodCondition(items: seq<Item>)
    requires Good(items)
    ensures Good([Lit(OpenParen), EXPR, Lit(CloseParen)] + items)
  {
    hide Good;
    GoodBefore(EXPR, CloseParen, items);
    GoodClosed(Lit(OpenParen), [EXPR, Lit(CloseParen)] + items);
    assert [Lit(OpenParen)] + ([EXPR, Lit(CloseParen)] + items) == [Lit(OpenParen), EXPR, Lit(CloseParen)] + items;
  }

  lemma CastDecided()
    ensures Good(PrefixForm(Sym(KwCast)).value)
  {
    hide Good;
    GoodNone();
    GoodCondition([]);
    var p := [Lit(OpenParen), EXPR, Lit(CloseParen)];
    assert p + [] == p;
    GoodBefore(TypeRef, OpGt, p);
    GoodClosed(Lit(OpLt), [TypeRef, Lit(OpGt)] + p);
    assert [Lit(OpLt)] + ([TypeRef, Lit(OpGt)] + p) == PrefixForm(Sym(KwCast)).value;
  }

  lemma NewDecided()
    ensures Good(PrefixForm(Sym(KwNew)).value)
  {
    hide Good;
    GoodLast(Lit(CloseParen));
    GoodBefore(TypeRef, OpenParen, [Lit(CloseParen)]);
    assert [TypeRef, Lit(OpenParen)] + [Lit(CloseParen)] == PrefixForm(Sym(KwNew)).value;
  }

  lemma ConditionalDecided()
    ensures Good(PrefixForm(Sym(OpCond)).value)
  {
    hide Good;
    GoodNone();
    GoodBefore(EXPR, CloseParen, []);
    var p := [EXPR, Lit(CloseParen)] + [];
    GoodBefore(EXPR, EndOfStatement, p);
    GoodBefore(EXPR, EndOfStatement, [EXPR, Lit(EndOfStatement)] + p);
    assert [EXPR, Lit(EndOfStatement)] + ([EXPR, Lit(EndOfStatement)] + p) == PrefixForm(Sym(OpCond)).value;
  }

  lemma IfDecided()
    ensures Good(PrefixForm(Sym(KwIf)).value)
  {
    hide Good;
    var e := Either(KwElse, [EXPR], []);
    ElseDecided();
    GoodLast(e);
    GoodCons(EXPR, [e]);
    GoodCondition([EXPR] + [e]);
    assert [Lit(OpenParen), EXPR, Lit(CloseParen)] + ([EXPR] + [e]) == PrefixForm(Sym(KwIf)).value;
  }

  lemma ElseDecided()
    ensures var e := Either(KwElse, [EXPR], []);
            DecidedOne(e) && EndsCalmly(e) && EndsBefore(EXPR, [e]) && MayBeEmpty(e)
  {
    Optional(KwElse, EXPR);
    Single(Either(KwElse, [EXPR], []));
  }

  lemma FuncDecided()
    ensures Good(PrefixForm(Sym(KwFunc)).value)
  {
    hide Good, StartsAll, Starts, AllMayBeEmpty, DecidedOne;
    BodyDecided(EXPR);
    ParametersDecided();
    GoodCons(PARAMETERS, [EXPR]);
    GoodBefore(TypeRef, OpenParen, [PARAMETERS] + [EXPR]);
    var p := [TypeRef, Lit(OpenParen)] + ([PARAMETERS] + [EXPR]);
    NameDecided(p);
    assert [Ident, Lit(OpDef)] + p == PrefixForm(Sym(KwFunc)).value;
  }

  lemma NameDecided(items: seq<Item>)
    requires Good(items)
    ensures Good([Ident, Lit(OpDef)] + items)
  {
    hide Good, StartsAll, Starts, AllMayBeEmpty;
    GoodClosed(Lit(OpDef), items);
    GoodClosed(Ident, [Lit(OpDef)] + items);
    assert [Ident] + ([Lit(OpDef)] + items) == [Ident, Lit(OpDef)] + items;
  }

  lemma GoodBody(i: Item)
    requires i == EXPR || i == BLOCK
    ensures Good([i])
  {
    BlockDecided();
    GoodLast(i);
  }

  /** What comes after a list of names and type parameters. */
  lemma BodyDecided(i: Item)
    requires i == EXPR || i == BLOCK
    ensures Good([i]) && Good([QUALIFIED] + [i]) && Good([TEMPLATE_PARAMETERS] + [i])
  {
    hide Good, DecidedOne, Ends, MayBeEmpty, Starts;
    BlockDecided();
    ElseDecided();
    GoodBody(i);
    QualifiedDecided();
    TemplateParametersDecided();
    Single(i);
    BodyStarts(i);
    GoodCons(QUALIFIED, [i]);
    GoodCons(TEMPLATE_PARAMETERS, [i]);
  }

  lemma BodyStarts(i: Item)
    requires i == EXPR || i == BLOCK
    ensures !MayBeEmpty(i) && forall t | Starts(i, t) :: PrefixForm(t).Some?
  {
    BlockDecided();
  }

  lemma NamedDecided(m: Item, i: Item)
    requires (m == QUALIFIED || m == TEMPLATE_PARAMETERS) && (i == EXPR || i == BLOCK)
    ensures Good([Ident, m, i])
  {
    hide Good, StartsAll, Starts, AllMayBeEmpty;
    BodyDecided(i);
    GoodClosed(Ident, [m] + [i]);
    assert [Ident] + ([m] + [i]) == [Ident, m, i];
  }

  lemma ExpandDecided()
    ensures Good(PrefixForm(Sym(KwExpand)).value)
  {
    hide Good, StartsAll, Starts, AllMayBeEmpty;
    ArgumentsFollow();
    GoodClosed(Ident, [QUALIFIED] + [TYPE_ARGUMENTS]);
    assert [Ident] + ([QUALIFIED] + [TYPE_ARGUMENTS]) == PrefixForm(Sym(KwExpand)).value;
  }

  lemma ArgumentsFollow()
    ensures Good([QUALIFIED] + [TYPE_ARGUMENTS])
  {
    hide Good, DecidedOne, Ends, MayBeEmpty, Starts;
    TypeArgumentsDecided();
    QualifiedDecided();
    GoodLast(TYPE_ARGUMENTS);
    Single(TYPE_ARGUMENTS);
    GoodCons(QUALIFIED, [TYPE_ARGUMENTS]);
  }

  lemma IdDecided(name: string)
    ensures Good(PrefixForm(Id(name)).value)
  {
    hide Good, DecidedOne, Ends, MayBeEmpty, Starts;
    var i := Either(OpDef, [TypeRef], []);
    DeclaredDecided();
    QualifiedDecided();
    GoodLast(i);
    Single(i);
    GoodCons(QUALIFIED, [i]);
    assert [QUALIFIED] + [i] == PrefixForm(Id(name)).value;
  }

  lemma DeclaredDecided()
    ensures var i := Either(OpDef, [TypeRef], []);
            DecidedOne(i) && MayBeEmpty(i) && EndsCalmly(i) && forall t :: Starts(i, t) <==> t == Sym(OpDef)
  {
    Optional(OpDef, TypeRef);
  }

  lemma PrefixDecided(t: Token)
    requires PrefixForm(t).Some?
    ensures Good(PrefixForm(t).value)
  {
    hide Good;
    GoodNone();
    if t.Id? {
      IdDecided(t.name);
    } else if t.Sym? {
      SymDecided(t.kind);
    }
  }

  lemma SymDecided(k: Kind)
    requires PrefixForm(Sym(k)).Some?
    ensures Good(PrefixForm(Sym(k)).value)
  {
    hide Good;
    GoodNone();
    GoodCondition([]);
    assert [Lit(OpenParen), EXPR, Lit(CloseParen)] + [] == [Lit(OpenParen), EXPR, Lit(CloseParen)];
    GoodLast(EXPR);
    GoodCondition([EXPR]);
    assert [Lit(OpenParen), EXPR, Lit(CloseParen)] + [EXPR] == [Lit(OpenParen), EXPR, Lit(CloseParen), EXPR];
    GoodBefore(EXPR, CloseParen, []);
    assert [EXPR, Lit(CloseParen)] + [] == [EXPR, Lit(CloseParen)];
    GoodLast(Until(CloseCurly));
    match k
    case KwCast => CastDecided();
    case KwNew => NewDecided();
    case OpCond => ConditionalDecided();
    case KwIf => IfDecided();
    case KwFunc => FuncDecided();
    case KwClass => NamedDecided(TEMPLATE_PARAMETERS, EXPR);
    case KwNamespace => NamedDecided(QUALIFIED, BLOCK);
    case KwTemplate => NamedDecided(TEMPLATE_PARAMETERS, BLOCK);
    case KwExpand => ExpandDecided();
    case _ =>
  }

  lemma InfixDecided(op: Token)
    requires InfixForm(op).Some?
    ensures Good(InfixForm(op).value) && 0 < Precedence(op)
  {
    ArgumentsDecided();
    if op.kind == OpDot {
      DotDecided();
    } else if op.kind == OpenParen {
      GoodLast(ARGUMENTS);
    } else {
      BinaryForm(op.kind);
      GoodLast(SubExpr(RightPrecedence(op.kind)));
    }
  }

  lemma DotDecided()
    ensures Good([Ident, Either(OpenParen, [ARGUMENTS], [])])
  {
    hide Good;
    var e := Either(OpenParen, [ARGUMENTS], []);
    ArgumentsDecided();
    Optional(OpenParen, ARGUMENTS);
    GoodLast(e);
    GoodClosed(Ident, [e]);
    assert [Ident] + [e] == [Ident, e];
  }
}
