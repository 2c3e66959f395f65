/** What copies are copies of: read back as text they are the bodies of the templates their sites found, under
    scopes that hold exactly the parameters. */
module Copies {
  import opened Common
  import opened Scopes
  import opened Programs
  import opened Expansion
  import opened Circles
  import opened ClearNames
  import opened Landings

  // ----- nodes read back as text -----

  function Text(stmts: seq<Stmt>): (cs: seq<Code>)
    ensures |cs| == |stmts|
  {
    if stmts == [] then [] else [TextOne(stmts[0])] + Text(stmts[1..])
  }

  /** A site stands for the text it was, expanded or not. */
  function TextOne(s: Stmt): Code {
    match s
    case Def(name, id) => Define(name, id)
    case Ref(name) => Use(name)
    case Inner(_, kids) => Scoped(Text(kids))
    case Site(name, args, _) => Expand(name, args)
  }

  /** A new copy of a text reads as the text. */
  lemma {:induction false} PlacedReadsBack(cs: seq<Code>, parent: ScopeId, ts: seq<Table>)
    ensures Text(Place(cs, parent, ts).0) == cs
    decreases cs, 0
  {
    hide PlaceOne, TextOne;
    if cs != [] {
      var (s, ts1) := PlaceOne(cs[0], parent, ts);
      var (rest, ts2) := Place(cs[1..], parent, ts1);
      PlacedOneReadsBack(cs[0], parent, ts);
      PlacedReadsBack(cs[1..], parent, ts1);
      assert ([s] + rest)[1..] == rest;
    }
  }

  lemma {:induction false} PlacedOneReadsBack(c: Code, parent: ScopeId, ts: seq<Table>)
    ensures TextOne(PlaceOne(c, parent, ts).0) == c
    decreases c, 1
  {
    match c
    case Scoped(body) => PlacedReadsBack(body, |ts|, ts + [Table(Local, Some(parent), map[])]);
    case _ =>
  }

  lemma {:induction false} TextAppend(a: seq<Stmt>, b: seq<Stmt>)
    ensures Text(a + b) == Text(a) + Text(b)
    decreases |a|
  {
    hide TextOne;
    if a == [] {
      assert [] + b == b;
    } else {
      assert (a + b)[0] == a[0] && (a + b)[1..] == a[1..] + b;
      TextAppend(a[1..], b);
    }
  }

  lemma TextAlone(s: Stmt)
    ensures Text([s]) == [TextOne(s)]
  {
    assert [s][1..] == [];
  }

  // ----- scopes of parameters -----

  /** The scope holds the parameters and nothing else. */
  ghost predicate HoldsParameters(ts: seq<Table>, scope: ScopeId, params: seq<string>) {
    && scope < |ts| && ts[scope].kind == TemplateParameter
    && (forall n :: n in ts[scope].symbols <==> n in params)
    && (forall n | n in ts[scope].symbols :: ts[scope].symbols[n] == TypeParameter)
  }

  /** In `stmts`, which stand in the scopes `inner` inside `scope`, every use of a parameter that none of these
      hides means the parameter. */
  predicate ParametersMeant(ts: seq<Table>, stmts: seq<Stmt>, inner: seq<ScopeId>, scope: ScopeId, params: seq<string>, p: seq<ScopeId>) {
    forall i | 0 <= i < |stmts| :: ParameterMeant(ts, stmts[i], inner, scope, params, p)
  }

  predicate ParameterMeant(ts: seq<Table>, s: Stmt, inner: seq<ScopeId>, scope: ScopeId, params: seq<string>, p: seq<ScopeId>) {
    match s
    case Ref(name) => name in params && Unhidden(ts, inner, name) ==> Nearest(ts, inner + ([scope] + p), name) == Some(TypeParameter)
    case Inner(x, kids) => ParametersMeant(ts, kids, [x] + inner, scope, params, p)
    case Site(_, _, copy) => copy.Some? ==> ParametersMeant(ts, copy.value.kids, [copy.value.scope] + inner, scope, params, p)
    case _ => true
  }

  predicate Unhidden(ts: seq<Table>, inner: seq<ScopeId>, name: string) {
    forall i | 0 <= i < |inner| :: inner[i] < |ts| && name !in ts[inner[i]].symbols
  }

  lemma {:induction false} NearestPast(ts: seq<Table>, inner: seq<ScopeId>, q: seq<ScopeId>, name: string)
    requires Unhidden(ts, inner, name)
    ensures Nearest(ts, inner + q, name) == Nearest(ts, q, name)
    decreases |inner|
  {
    if inner == [] {
      assert inner + q == q;
    } else {
      assert (inner + q)[1..] == inner[1..] + q;
      NearestPast(ts, inner[1..], q, name);
    }
  }

  lemma {:induction false} AllMeant(ts: seq<Table>, stmts: seq<Stmt>, inner: seq<ScopeId>, scope: ScopeId, params: seq<string>, p: seq<ScopeId>)
    requires HoldsParameters(ts, scope, params)
    ensures ParametersMeant(ts, stmts, inner, scope, params, p)
    decreases stmts, 0
  {
    hide HoldsParameters;
    forall i | 0 <= i < |stmts| ensures ParameterMeant(ts, stmts[i], inner, scope, params, p) {
      OneMeant(ts, stmts[i], inner, scope, params, p);
    }
  }

  lemma {:induction false} OneMeant(ts: seq<Table>, s: Stmt, inner: seq<ScopeId>, scope: ScopeId, params: seq<string>, p: seq<ScopeId>)
    requires HoldsParameters(ts, scope, params)
    ensures ParameterMeant(ts, s, inner, scope, params, p)
    decreases s, 1
  {
    match s
    case Ref(name) => if Unhidden(ts, inner, name) { NearestPast(ts, inner, [scope] + p, name); }
    case Inner(x, kids) => AllMeant(ts, kids, [x] + inner, scope, params, p);
    case Site(_, _, copy) => if copy.Some? { AllMeant(ts, copy.value.kids, [copy.value.scope] + inner, scope, params, p); }
    case _ =>
  }

  // ----- copies of templates -----

  /** Everything that `before` defines, `ts` defines too. */
  ghost predicate Kept(before: seq<Table>, ts: seq<Table>) {
    Wider(before, ts) && forall s: ScopeId, n | Look(before, s, n).Some? :: Look(ts, s, n) == Look(before, s, n)
  }

  /** The site at chain `p` found template `t` when it was reached, and holds a copy of its body. */
  ghost predicate CopyOf(g: Program, before: seq<Table>, ts: seq<Table>, s: Stmt, p: seq<ScopeId>, t: nat) {
    && s.Site? && s.copy.Some? && t in g
    && Kept(before, ts) && Resolve(g, before, p, s.name) == ToTemplate(t)
    && s.args == |g[t].params| && Text(s.copy.value.kids) == g[t].body
    && HoldsParameters(ts, s.copy.value.scope, g[t].params)
    && ParametersMeant(ts, s.copy.value.kids, [], s.copy.value.scope, g[t].params, p)
  }

  /** Every site holds a copy of a template that it found. */
  ghost predicate Copied(g: Program, ts: seq<Table>, stmts: seq<Stmt>, p: seq<ScopeId>) {
    forall i | 0 <= i < |stmts| :: CopiedOne(g, ts, stmts[i], p)
  }

  ghost predicate CopiedOne(g: Program, ts: seq<Table>, s: Stmt, p: seq<ScopeId>) {
    match s
    case Inner(scope, kids) => Copied(g, ts, kids, [scope] + p)
    case Site(_, _, copy) =>
      && copy.Some? && Copied(g, ts, copy.value.kids, [copy.value.scope] + p)
      && exists before, t :: CopyOf(g, before, ts, s, p, t)
    case _ => true
  }

  lemma KeptSelf(ts: seq<Table>)
    ensures Kept(ts, ts)
  {
  }

  lemma KeptTrans(ts: seq<Table>, us: seq<Table>, vs: seq<Table>)
    requires Kept(ts, us) && Kept(us, vs)
    ensures Kept(ts, vs)
  {
  }

  lemma GainedKept(ts: seq<Table>, us: seq<Table>, ls: seq<Landing>)
    requires Wider(ts, us) && SameParameters(ts, us) && Gained(ts, us, ls)
    ensures Kept(ts, us)
  {
  }

  /** A copy stays one as the tables grow. */
  lemma {:induction false} StaysCopied(g: Program, ts: seq<Table>, us: seq<Table>, stmts: seq<Stmt>, p: seq<ScopeId>)
    requires Kept(ts, us) && SameParameters(ts, us) && Copied(g, ts, stmts, p)
    ensures Copied(g, us, stmts, p)
    decreases stmts, 0
  {
    hide Kept, SameParameters;
    forall i | 0 <= i < |stmts| ensures CopiedOne(g, us, stmts[i], p) {
      StaysCopiedOne(g, ts, us, stmts[i], p);
    }
  }

  lemma {:induction false} StaysCopiedOne(g: Program, ts: seq<Table>, us: seq<Table>, s: Stmt, p: seq<ScopeId>)
    requires Kept(ts, us) && SameParameters(ts, us) && CopiedOne(g, ts, s, p)
    ensures CopiedOne(g, us, s, p)
    decreases s, 1
  {
    hide Kept, SameParameters, CopyOf, Copied;
    match s
    case Inner(scope, kids) => StaysCopied(g, ts, us, kids, [scope] + p);
    case Site(_, _, copy) =>
      StaysCopied(g, ts, us, copy.value.kids, [copy.value.scope] + p);
      var before, t :| CopyOf(g, before, ts, s, p, t);
      StaysCopyOf(g, before, ts, us, s, p, t);
    case _ =>
  }

  lemma StaysCopyOf(g: Program, before: seq<Table>, ts: seq<Table>, us: seq<Table>, s: Stmt, p: seq<ScopeId>, t: nat)
    requires Kept(ts, us) && SameParameters(ts, us) && CopyOf(g, before, ts, s, p, t)
    ensures CopyOf(g, before, us, s, p, t)
  {
    hide Kept, Resolve, Text, ParametersMeant;
    KeptTrans(before, ts, us);
    AllMeant(us, s.copy.value.kids, [], s.copy.value.scope, g[t].params, p);
  }

  // ----- what a smooth course leaves -----

  ghost predicate Result(g: Program, ts: seq<Table>, c: Course, cs: seq<Code>, p: seq<ScopeId>) {
    c.Smooth? && Kept(ts, c.ts) && SameParameters(ts, c.ts) && Copied(g, c.ts, c.stmts, p) && Text(c.stmts) == cs
  }

  lemma {:induction false} WalkCopies(g: Program, stmts: seq<Stmt>, p: seq<ScopeId>, ts: seq<Table>, active: set<nat>, d: ScopeId)
    requires Known(ts, p) && Placed(ts, stmts, p) && Unexpanded(stmts) && Falls(stmts, p[0]) && d == Home(ts, p) && Holds(ts, d)
    requires Walk(g, stmts, p, ts, active).Smooth?
    ensures Result(g, ts, Walk(g, stmts, p, ts, active), Text(stmts), p)
    decreases Free(g, active), 0, stmts, 0
  {
    hide WalkOne, PlacedOne, UnexpandedOne, FallsOne, Home, Grew, CopiedOne, TextOne, Kept, SameParameters;
    if stmts == [] {
      NoCopies(g, ts, p);
    } else {
      var first := WalkOne(g, stmts[0], p, ts, active);
      WalkOneGrows(g, stmts[0], p, ts, active, d);
      OneWider(ts, first, stmts[0], p, d);
      StaysPlaced(ts, first.ts, stmts[1..], p);
      StaysHome(ts, first.ts, p, d);
      WalkOneCopies(g, stmts[0], p, ts, active, d);
      WalkCopies(g, stmts[1..], p, first.ts, active, d);
      var rest := Walk(g, stmts[1..], p, first.ts, active);
      ResultCons(g, ts, first, rest, stmts[0], stmts[1..], p);
      assert [stmts[0]] + stmts[1..] == stmts;
    }
  }

  lemma NoCopies(g: Program, ts: seq<Table>, p: seq<ScopeId>)
    ensures Result(g, ts, Smooth([], ts), Text([]), p)
  {
  }

  lemma ResultCons(g: Program, ts: seq<Table>, a: Course, b: Course, s: Stmt, stmts: seq<Stmt>, p: seq<ScopeId>)
    requires Result(g, ts, a, Text([s]), p) && b.Smooth? && Result(g, a.ts, b, Text(stmts), p)
    ensures Result(g, ts, Smooth(a.stmts + b.stmts, b.ts), Text([s] + stmts), p)
  {
    hide CopiedOne, TextOne, Text, Kept;
    KeptTrans(ts, a.ts, b.ts);
    StaysCopied(g, a.ts, b.ts, a.stmts, p);
    TextAppend(a.stmts, b.stmts);
    TextAppend([s], stmts);
  }

  lemma {:induction false} WalkOneCopies(g: Program, s: Stmt, p: seq<ScopeId>, ts: seq<Table>, active: set<nat>, d: ScopeId)
    requires Known(ts, p) && PlacedOne(ts, s, p) && UnexpandedOne(s) && FallsOne(s, p[0]) && d == Home(ts, p) && Holds(ts, d)
    requires WalkOne(g, s, p, ts, active).Smooth?
    ensures Result(g, ts, WalkOne(g, s, p, ts, active), Text([s]), p)
    decreases Free(g, active), 0, s, 1
  {
    hide Walk, Enter, Placed, Unexpanded, Falls, Home, Copied, Resolve, Text, Kept, SameParameters, Result;
    match s
    case Inner(scope, kids) =>
      HomeInside(ts, scope, p);
      WalkCopies(g, kids, [scope] + p, ts, active, scope);
      InnerResult(g, ts, Walk(g, kids, [scope] + p, ts, active), scope, kids, p);
    case Site(name, args, _) =>
      var t := Resolve(g, ts, p, name).t;
      var us := ts + [ParameterTable(g[t].params, p[0])];
      assert t in Free(g, active) && Free(g, active + {t}) == Free(g, active) - {t};
      ParametersPlaced(g, t, p, ts);
      HomeInside(us, |ts|, p);
      StaysHome(ts, us, p, d);
      EnterCopies(g, g[t].body, [|ts|] + p, us, active + {t}, d);
      SiteResult(g, t, name, args, p, ts, Enter(g, g[t].body, [|ts|] + p, us, active + {t}));
    case _ => OtherResult(g, ts, s, p);
  }

  lemma OtherResult(g: Program, ts: seq<Table>, s: Stmt, p: seq<ScopeId>)
    requires s.Def? || s.Ref?
    ensures Result(g, ts, Smooth([s], ts), Text([s]), p)
  {
    KeptSelf(ts);
  }

  lemma InnerResult(g: Program, ts: seq<Table>, c: Course, scope: ScopeId, kids: seq<Stmt>, p: seq<ScopeId>)
    requires c.Smooth? && Result(g, ts, c, Text(kids), [scope] + p)
    ensures Result(g, ts, Smooth([Inner(scope, c.stmts)], c.ts), Text([Inner(scope, kids)]), p)
  {
    hide Copied, Text, Kept, SameParameters;
    TextAlone(Inner(scope, c.stmts));
    TextAlone(Inner(scope, kids));
    CopiedAlone(g, c.ts, Inner(scope, c.stmts), p);
  }

  lemma CopiedAlone(g: Program, ts: seq<Table>, s: Stmt, p: seq<ScopeId>)
    requires CopiedOne(g, ts, s, p)
    ensures Copied(g, ts, [s], p)
  {
  }

  lemma {:induction false} EnterCopies(g: Program, body: seq<Code>, p: seq<ScopeId>, ts: seq<Table>, active: set<nat>, d: ScopeId)
    requires Known(ts, p) && d == Home(ts, p) && Holds(ts, d) && Enter(g, body, p, ts, active).Smooth?
    ensures Result(g, ts, Enter(g, body, p, ts, active), body, p)
    decreases Free(g, active), 1
  {
    hide Walk, Placed, Unexpanded, Falls, Home, Place, Populate, Lands, Gained, Fits, Copied, Text, Kept, SameParameters;
    var (kids, ts1) := Place(body, p[0], ts);
    var (ts2, taken) := Populate(kids, p, ts1);
    PlaceIsPlaced(body, p, ts);
    PlaceEmpty(body, p[0], ts);
    PlaceFalls(body, p[0], ts);
    PrefixWider(ts, ts1);
    StaysHome(ts, ts1, p, d);
    NothingGained(ts, ts1);
    PopulateGains(kids, p, ts1, d);
    StaysPlaced(ts1, ts2, kids, p);
    StaysHome(ts1, ts2, p, d);
    WalkCopies(g, kids, p, ts2, active, d);
    PlacedReadsBack(body, p[0], ts);
    EnterKept(g, ts, ts1, ts2, Walk(g, kids, p, ts2, active), Lands(kids, d), body, p);
  }

  lemma EnterKept(g: Program, ts: seq<Table>, ts1: seq<Table>, ts2: seq<Table>, c: Course, ls: seq<Landing>, body: seq<Code>, p: seq<ScopeId>)
    requires ts <= ts1 && SameParameters(ts, ts1) && Wider(ts1, ts2) && SameParameters(ts1, ts2) && Gained(ts1, ts2, ls)
    requires Result(g, ts2, c, body, p)
    ensures Result(g, ts, c, body, p)
  {
    hide Copied, Text, Gained;
    PrefixWider(ts, ts1);
    PrefixKept(ts, ts1);
    GainedKept(ts1, ts2, ls);
    KeptTrans(ts, ts1, ts2);
    KeptTrans(ts, ts2, c.ts);
  }

  lemma PrefixKept(ts: seq<Table>, us: seq<Table>)
    requires ts <= us
    ensures Kept(ts, us)
  {
  }

  lemma SiteResult(g: Program, t: nat, name: string, args: nat, p: seq<ScopeId>, ts: seq<Table>, c: Course)
    requires t in g && Known(ts, p) && args == |g[t].params| && Resolve(g, ts, p, name) == ToTemplate(t)
    requires c.Smooth? && Result(g, ts + [ParameterTable(g[t].params, p[0])], c, g[t].body, [|ts|] + p)
    ensures Result(g, ts, Smooth([Site(name, args, Some(Copy(|ts|, c.stmts)))], c.ts), Text([Site(name, args, None)]), p)
  {
    hide Copied, Resolve, Text, ParametersMeant;
    var us, site := ts + [ParameterTable(g[t].params, p[0])], Site(name, args, Some(Copy(|ts|, c.stmts)));
    PrefixKept(ts, us);
    KeptTrans(ts, us, c.ts);
    TextAlone(site);
    TextAlone(Site(name, args, None));
    assert us[|ts|] == ParameterTable(g[t].params, p[0]) && c.ts[|ts|] == us[|ts|];
    AllMeant(c.ts, c.stmts, [], |ts|, g[t].params, p);
    assert CopyOf(g, ts, c.ts, site, p, t);
    CopiedAlone(g, c.ts, site, p);
  }

  /** After a module without errors its nodes read as its text, and every site in it, those in copies too, holds
      a copy of the template it found, whose parameters stand in a scope of their own around it. */
  lemma ModuleCopied(g: Program, cs: seq<Code>, ts: seq<Table>)
    requires Sound(ts) && ModuleCourse(g, cs, ts).Smooth?
    ensures var c := ModuleCourse(g, cs, ts); Text(c.stmts) == cs && Copied(g, c.ts, c.stmts, [|ts|, WORLD])
  {
    hide Enter, Copied, Text;
    EnterCopies(g, cs, [|ts|, WORLD], ts + [Table(Global, Some(WORLD), map[])], {}, |ts|);
  }

  /** Where names are those of templates, the template that was found has the name of the site. */
  lemma CopyHasItsName(g: Program, before: seq<Table>, ts: seq<Table>, s: Stmt, p: seq<ScopeId>, t: nat)
    requires NamedTables(g, ts) && CopyOf(g, before, ts, s, p, t)
    ensures g[t].name == s.name
  {
    hide Text, ParametersMeant, HoldsParameters, Resolve;
    EarlierNamed(g, before, ts);
    ResolvesByName(g, before, p, s.name);
  }

  lemma EarlierNamed(g: Program, before: seq<Table>, ts: seq<Table>)
    requires NamedTables(g, ts) && Kept(before, ts)
    ensures NamedTables(g, before)
  {
    forall s, n | 0 <= s < |before| && n in before[s].symbols ensures n in ts[s].symbols && ts[s].symbols[n] == before[s].symbols[n] {
      assert Look(before, s, n).Some?;
    }
  }
}
