/** The order in which definitions land: those outside copies first, then those of each copy; and what
    has been defined when expansion has gone smoothly. */
module Landings {
  import opened Common
  import opened Scopes
  import opened Programs
  import opened Expansion
  import opened ClearNames

  // ----- the order of the passes -----

  /** The definitions outside copies. */
  function Own(stmts: seq<Stmt>, d: ScopeId): seq<Landing> {
    if stmts == [] then [] else OwnOne(stmts[0], d) + Own(stmts[1..], d)
  }

  function OwnOne(s: Stmt, d: ScopeId): seq<Landing> {
    match s
    case Def(name, id) => [Landing(d, name, id)]
    case Inner(scope, kids) => Own(kids, scope)
    case _ => []
  }

  /** The definitions in copies, in the order in which the passes reach them. */
  function InCopies(stmts: seq<Stmt>, d: ScopeId): seq<Landing> {
    if stmts == [] then [] else InCopiesOne(stmts[0], d) + InCopies(stmts[1..], d)
  }

  function InCopiesOne(s: Stmt, d: ScopeId): seq<Landing> {
    match s
    case Inner(scope, kids) => InCopies(kids, scope)
    case Site(_, _, copy) => if copy.None? then [] else Own(copy.value.kids, d) + InCopies(copy.value.kids, d)
    case _ => []
  }

  /** Together they are all the definitions. */
  lemma {:induction false} Shuffle(stmts: seq<Stmt>, d: ScopeId)
    ensures multiset(Own(stmts, d) + InCopies(stmts, d)) == multiset(Lands(stmts, d))
    decreases stmts, 0
  {
    hide OwnOne, InCopiesOne, LandsOne;
    if stmts != [] {
      ShuffleOne(stmts[0], d);
      Shuffle(stmts[1..], d);
    }
  }

  lemma {:induction false} ShuffleOne(s: Stmt, d: ScopeId)
    ensures multiset(OwnOne(s, d) + InCopiesOne(s, d)) == multiset(LandsOne(s, d))
    decreases s, 1
  {
    match s
    case Inner(scope, kids) => Shuffle(kids, scope);
    case Site(_, _, copy) =>
      if copy.Some? {
        Shuffle(copy.value.kids, d);
        assert [] + InCopiesOne(s, d) == InCopiesOne(s, d);
      }
    case _ =>
  }

  lemma {:induction false} UnexpandedOwn(stmts: seq<Stmt>, d: ScopeId)
    requires Unexpanded(stmts)
    ensures Own(stmts, d) == Lands(stmts, d)
    decreases stmts, 0
  {
    hide OwnOne, LandsOne, UnexpandedOne;
    if stmts != [] {
      UnexpandedOwnOne(stmts[0], d);
      UnexpandedOwn(stmts[1..], d);
    }
  }

  lemma {:induction false} UnexpandedOwnOne(s: Stmt, d: ScopeId)
    requires UnexpandedOne(s)
    ensures OwnOne(s, d) == LandsOne(s, d)
    decreases s, 1
  {
    match s
    case Inner(scope, kids) => UnexpandedOwn(kids, scope);
    case _ =>
  }

  lemma {:induction false} Twice(ls: seq<Landing>, l: Landing)
    ensures multiset(ls)[l] >= 2 <==> exists i, j :: 0 <= i < j < |ls| && ls[i] == l && ls[j] == l
    decreases |ls|
  {
    if ls != [] {
      var rest := ls[1..];
      assert ls == [ls[0]] + rest;
      Twice(rest, l);
      assert forall i | 0 <= i < |rest| :: ls[i + 1] == rest[i];
      if multiset(rest)[l] >= 2 {
        var i, j :| 0 <= i < j < |rest| && rest[i] == l && rest[j] == l;
        assert ls[i + 1] == l && ls[j + 1] == l;
      } else if ls[0] == l && multiset(rest)[l] >= 1 {
        assert l in multiset(rest) && l in rest;
        var j :| 0 <= j < |rest| && rest[j] == l;
        assert ls[0] == l && ls[j + 1] == l;
      }
      forall i, j | 0 <= i < j < |ls| && ls[i] == l && ls[j] == l ensures multiset(ls)[l] >= 2 {
        assert rest[j - 1] == l && l in multiset(rest);
        if i > 0 { assert rest[i - 1] == l; }
      }
    }
  }

  /** Whether everything fits, and what it defines then, does not depend on the order. */
  lemma FitsShuffled(ts: seq<Table>, a: seq<Landing>, b: seq<Landing>)
    requires multiset(a) == multiset(b) && Fits(ts, a)
    ensures Fits(ts, b)
    ensures forall s: ScopeId, n :: IdOf(a, s, n) == IdOf(b, s, n)
  {
    forall i | 0 <= i < |b| ensures Look(ts, b[i].scope, b[i].name).None? {
      assert b[i] in multiset(a);
    }
    forall i, j | 0 <= i < j < |b| ensures !SameKey(b[i], b[j]) {
      assert b[i] in multiset(a) && b[j] in multiset(a);
      if b[i] == b[j] {
        Twice(b, b[i]);
        Twice(a, b[i]);
        var x, y :| 0 <= x < y < |a| && a[x] == b[i] && a[y] == b[i];
        assert !SameKey(a[x], a[y]);
      } else {
        var x :| 0 <= x < |a| && a[x] == b[i];
        var y :| 0 <= y < |a| && a[y] == b[j];
        assert x < y ==> !SameKey(a[x], a[y]);
        assert y < x ==> !SameKey(a[y], a[x]);
      }
    }
    forall s: ScopeId, n ensures IdOf(a, s, n) == IdOf(b, s, n) {
      IdOfFinds(a, s, n);
      IdOfFinds(b, s, n);
      if IdOf(a, s, n).Some? {
        var i :| 0 <= i < |a| && a[i].scope == s && a[i].name == n;
        assert a[i] in multiset(b);
        OnlyId(ts, a, a[i]);
        OnlyId(ts, b, a[i]);
      }
      if IdOf(b, s, n).Some? {
        var i :| 0 <= i < |b| && b[i].scope == s && b[i].name == n;
        assert b[i] in multiset(a);
        OnlyId(ts, a, b[i]);
        OnlyId(ts, b, b[i]);
      }
    }
  }

  // ----- what a smooth course leaves -----

  /** Scopes are later than the ones around them. */
  predicate Falls(stmts: seq<Stmt>, top: ScopeId) {
    forall i | 0 <= i < |stmts| :: FallsOne(stmts[i], top)
  }

  predicate FallsOne(s: Stmt, top: ScopeId) {
    match s
    case Inner(scope, kids) => scope > top && Falls(kids, scope)
    case Site(_, _, copy) => copy.Some? ==> copy.value.scope > top && Falls(copy.value.kids, copy.value.scope)
    case _ => true
  }

  /** Everything has been expanded, each copy with as many parameters as its site has arguments. */
  predicate Argued(ts: seq<Table>, stmts: seq<Stmt>) {
    forall i | 0 <= i < |stmts| :: ArguedOne(ts, stmts[i])
  }

  predicate ArguedOne(ts: seq<Table>, s: Stmt) {
    match s
    case Inner(_, kids) => Argued(ts, kids)
    case Site(_, args, copy) =>
      && copy.Some? && copy.value.scope < |ts| && Argued(ts, copy.value.kids)
      && (args == 0 <==> ts[copy.value.scope].symbols == map[])
    case _ => true
  }

  /** The scopes of parameters keep their symbols. */
  predicate SameParameters(ts: seq<Table>, us: seq<Table>) {
    |ts| <= |us| && forall s | 0 <= s < |ts| && ts[s].kind == TemplateParameter :: us[s] == ts[s]
  }

  /** A scope that holds definitions. */
  predicate Holds(ts: seq<Table>, d: ScopeId) {
    d < |ts| && ts[d].kind != TemplateParameter
  }

  lemma {:induction false} PlaceFalls(cs: seq<Code>, parent: ScopeId, ts: seq<Table>)
    requires parent < |ts|
    ensures Falls(Place(cs, parent, ts).0, parent)
    decreases cs, 0
  {
    hide PlaceOne, FallsOne;
    if cs != [] {
      PlaceOneFalls(cs[0], parent, ts);
      PlaceFalls(cs[1..], parent, PlaceOne(cs[0], parent, ts).1);
    }
  }

  lemma {:induction false} PlaceOneFalls(c: Code, parent: ScopeId, ts: seq<Table>)
    requires parent < |ts|
    ensures FallsOne(PlaceOne(c, parent, ts).0, parent)
    decreases c, 1
  {
    match c
    case Scoped(body) => PlaceFalls(body, |ts|, ts + [Table(Local, Some(parent), map[])]);
    case _ =>
  }

  lemma {:induction false} StaysArgued(ts: seq<Table>, us: seq<Table>, stmts: seq<Stmt>, p: seq<ScopeId>)
    requires SameParameters(ts, us) && Argued(ts, stmts) && Placed(ts, stmts, p)
    ensures Argued(us, stmts)
    decreases stmts, 0
  {
    forall i | 0 <= i < |stmts| ensures ArguedOne(us, stmts[i]) {
      StaysArguedOne(ts, us, stmts[i], p);
    }
  }

  lemma {:induction false} StaysArguedOne(ts: seq<Table>, us: seq<Table>, s: Stmt, p: seq<ScopeId>)
    requires SameParameters(ts, us) && ArguedOne(ts, s) && PlacedOne(ts, s, p)
    ensures ArguedOne(us, s)
    decreases s, 1
  {
    match s
    case Inner(scope, kids) => StaysArgued(ts, us, kids, [scope] + p);
    case Site(_, _, copy) => StaysArgued(ts, us, copy.value.kids, [copy.value.scope] + p);
    case _ =>
  }

  /** New scopes hold nothing yet. */
  lemma NothingGained(ts: seq<Table>, us: seq<Table>)
    requires ts <= us && forall s | |ts| <= s < |us| :: us[s].kind == TemplateParameter || us[s].symbols == map[]
    ensures Gained(ts, us, []) && SameParameters(ts, us)
    ensures forall ls: seq<Landing> | (forall i | 0 <= i < |ls| :: Holds(us, ls[i].scope)) :: Fits(us, ls) <==> Fits(ts, ls)
  {
    forall ls: seq<Landing> | forall i | 0 <= i < |ls| :: Holds(us, ls[i].scope) ensures Fits(us, ls) <==> Fits(ts, ls) {
      assert forall i | 0 <= i < |ls| :: Look(us, ls[i].scope, ls[i].name) == Look(ts, ls[i].scope, ls[i].name);
    }
  }

  /** Defining what there is to define. */
  lemma PopulateGains(stmts: seq<Stmt>, p: seq<ScopeId>, ts: seq<Table>, d: ScopeId)
    requires Placed(ts, stmts, p) && Known(ts, p) && d == Home(ts, p) && Holds(ts, d)
    ensures var (us, taken) := Populate(stmts, p, ts);
      && (taken == 0 <==> Fits(ts, Lands(stmts, d)))
      && Gained(ts, us, Lands(stmts, d)) && Wider(ts, us) && |us| == |ts| && SameParameters(ts, us)
  {
    hide Lands, Placed, Home;
    var ls := Lands(stmts, d);
    PopulateSettles(stmts, p, ts);
    LandsKnown(ts, stmts, p, d);
    SettleExactly(ts, ls);
    SettleWider(ts, ls);
    var us := Settle(ts, ls).0;
    forall s | 0 <= s < |ts| && ts[s].kind == TemplateParameter ensures us[s] == ts[s] {
      forall n ensures Look(us, s, n) == Look(ts, s, n) { IdOfFinds(ls, s, n); }
      assert us[s].symbols.Keys == ts[s].symbols.Keys by {
        forall n ensures n in us[s].symbols <==> n in ts[s].symbols { assert Look(us, s, n) == Look(ts, s, n); }
      }
      assert forall n | n in us[s].symbols :: Look(us, s, n) == Look(ts, s, n);
    }
  }

  /** What a smooth course leaves: all copies are there, their definitions have been made, and nothing
      was in the way of one. */
  ghost predicate Grew(ts: seq<Table>, c: Course, stmts: seq<Stmt>, p: seq<ScopeId>, d: ScopeId)
    requires c.Smooth? && p != []
  {
    && Wider(ts, c.ts) && SameParameters(ts, c.ts) && Placed(c.ts, c.stmts, p) && Argued(c.ts, c.stmts) && Falls(c.stmts, p[0])
    && Own(c.stmts, d) == Own(stmts, d) && Fits(ts, InCopies(c.stmts, d)) && Gained(ts, c.ts, InCopies(c.stmts, d))
  }

  lemma {:induction false} WalkGrows(g: Program, stmts: seq<Stmt>, p: seq<ScopeId>, ts: seq<Table>, active: set<nat>, d: ScopeId)
    requires Known(ts, p) && Placed(ts, stmts, p) && Unexpanded(stmts) && Falls(stmts, p[0]) && d == Home(ts, p) && Holds(ts, d)
    requires Walk(g, stmts, p, ts, active).Smooth?
    ensures Grew(ts, Walk(g, stmts, p, ts, active), stmts, p, d)
    decreases Free(g, active), 0, stmts, 0
  {
    hide WalkOne, PlacedOne, UnexpandedOne, FallsOne, Home, Grew, ArguedOne, OwnOne, InCopiesOne;
    if stmts == [] {
      NoneGrew(ts, p, d);
    } else {
      var first := WalkOne(g, stmts[0], p, ts, active);
      WalkOneGrows(g, stmts[0], p, ts, active, d);
      OneWider(ts, first, stmts[0], p, d);
      StaysPlaced(ts, first.ts, stmts[1..], p);
      StaysHome(ts, first.ts, p, d);
      WalkGrows(g, stmts[1..], p, first.ts, active, d);
      GrewCons(ts, first, Walk(g, stmts[1..], p, first.ts, active), stmts[0], stmts[1..], p, d);
      assert [stmts[0]] + stmts[1..] == stmts;
    }
  }

  lemma NoneGrew(ts: seq<Table>, p: seq<ScopeId>, d: ScopeId)
    requires p != []
    ensures Grew(ts, Smooth([], ts), [], p, d)
  {
  }

  lemma OneWider(ts: seq<Table>, c: Course, s: Stmt, p: seq<ScopeId>, d: ScopeId)
    requires c.Smooth? && p != [] && Grew(ts, c, [s], p, d)
    ensures Wider(ts, c.ts)
  {
  }

  lemma StaysHome(ts: seq<Table>, us: seq<Table>, p: seq<ScopeId>, d: ScopeId)
    requires Wider(ts, us) && Known(ts, p) && d == Home(ts, p) && Holds(ts, d)
    ensures Known(us, p) && d == Home(us, p) && Holds(us, d)
  {
    HomeStays(ts, us, p);
  }

  lemma GrewCons(ts: seq<Table>, a: Course, b: Course, s: Stmt, stmts: seq<Stmt>, p: seq<ScopeId>, d: ScopeId)
    requires p != [] && a.Smooth? && b.Smooth? && Grew(ts, a, [s], p, d) && Grew(a.ts, b, stmts, p, d) && |a.stmts| == 1 && Holds(ts, d)
    ensures Grew(ts, Smooth(a.stmts + b.stmts, b.ts), [s] + stmts, p, d)
  {
    hide PlacedOne, FallsOne, ArguedOne, OwnOne, InCopiesOne, Gained, Fits;
    var x, rest := a.stmts[0], b.stmts;
    assert a.stmts == [x];
    StaysPlaced(a.ts, b.ts, a.stmts, p);
    StaysArgued(a.ts, b.ts, a.stmts, p);
    OneAlone(x, d);
    OneAlone(s, d);
    assert ([x] + rest)[1..] == rest && ([s] + stmts)[1..] == stmts;
    InCopiesKnown(b.ts, b.stmts, p, d);
    GainedAppend(ts, a.ts, b.ts, InCopies(a.stmts, d), InCopies(b.stmts, d));
    FitsAppend(ts, a.ts, InCopies(a.stmts, d), InCopies(b.stmts, d));
  }

  lemma OneAlone(s: Stmt, d: ScopeId)
    ensures Own([s], d) == OwnOne(s, d) && InCopies([s], d) == InCopiesOne(s, d)
  {
    assert [s][1..] == [];
    assert OwnOne(s, d) + [] == OwnOne(s, d) && InCopiesOne(s, d) + [] == InCopiesOne(s, d);
  }

  /** Definitions in copies land in scopes that hold definitions. */
  lemma {:induction false} InCopiesKnown(ts: seq<Table>, stmts: seq<Stmt>, p: seq<ScopeId>, d: ScopeId)
    requires Placed(ts, stmts, p) && Holds(ts, d)
    ensures forall i | 0 <= i < |InCopies(stmts, d)| :: Holds(ts, InCopies(stmts, d)[i].scope)
    ensures forall i | 0 <= i < |Own(stmts, d)| :: Holds(ts, Own(stmts, d)[i].scope)
    decreases stmts, 0
  {
    hide PlacedOne, InCopiesOne, OwnOne, Holds;
    if stmts != [] {
      InCopiesOneKnown(ts, stmts[0], p, d);
      InCopiesKnown(ts, stmts[1..], p, d);
    }
  }

  lemma {:induction false} InCopiesOneKnown(ts: seq<Table>, s: Stmt, p: seq<ScopeId>, d: ScopeId)
    requires PlacedOne(ts, s, p) && Holds(ts, d)
    ensures forall i | 0 <= i < |InCopiesOne(s, d)| :: Holds(ts, InCopiesOne(s, d)[i].scope)
    ensures forall i | 0 <= i < |OwnOne(s, d)| :: Holds(ts, OwnOne(s, d)[i].scope)
    decreases s, 1
  {
    match s
    case Inner(scope, kids) => InCopiesKnown(ts, kids, [scope] + p, scope);
    case Site(_, _, copy) => if copy.Some? { InCopiesKnown(ts, copy.value.kids, [copy.value.scope] + p, d); }
    case _ =>
  }

  lemma {:induction false} WalkOneGrows(g: Program, s: Stmt, p: seq<ScopeId>, ts: seq<Table>, active: set<nat>, d: ScopeId)
    requires Known(ts, p) && PlacedOne(ts, s, p) && UnexpandedOne(s) && FallsOne(s, p[0]) && d == Home(ts, p) && Holds(ts, d)
    requires WalkOne(g, s, p, ts, active).Smooth?
    ensures Grew(ts, WalkOne(g, s, p, ts, active), [s], p, d) && |WalkOne(g, s, p, ts, active).stmts| == 1
    decreases Free(g, active), 0, s, 1
  {
    hide Walk, Enter, Placed, Unexpanded, Falls, Home, Grew, Argued, Own, InCopies, Resolve;
    match s
    case Inner(scope, kids) =>
      HomeInside(ts, scope, p);
      WalkGrows(g, kids, [scope] + p, ts, active, scope);
      InnerGrew(ts, Walk(g, kids, [scope] + p, ts, active), scope, kids, p, d);
    case Site(name, args, _) =>
      var t := Resolve(g, ts, p, name).t;
      var us := ts + [ParameterTable(g[t].params, p[0])];
      assert t in Free(g, active) && Free(g, active + {t}) == Free(g, active) - {t};
      ParametersPlaced(g, t, p, ts);
      HomeInside(us, |ts|, p);
      StaysHome(ts, us, p, d);
      EnterGrows(g, g[t].body, [|ts|] + p, us, active + {t}, d);
      SiteGrew(ts, g[t], name, args, p, d, Enter(g, g[t].body, [|ts|] + p, us, active + {t}));
    case _ => OtherGrew(ts, s, p, d);
  }

  lemma OtherGrew(ts: seq<Table>, s: Stmt, p: seq<ScopeId>, d: ScopeId)
    requires p != [] && (s.Def? || s.Ref?)
    ensures Grew(ts, Smooth([s], ts), [s], p, d)
  {
    OneAlone(s, d);
  }

  lemma InnerGrew(ts: seq<Table>, c: Course, scope: ScopeId, kids: seq<Stmt>, p: seq<ScopeId>, d: ScopeId)
    requires p != [] && c.Smooth? && Grew(ts, c, kids, [scope] + p, scope) && PlacedOne(ts, Inner(scope, kids), p) && scope > p[0]
    ensures Grew(ts, Smooth([Inner(scope, c.stmts)], c.ts), [Inner(scope, kids)], p, d)
  {
    hide Placed, Falls, Argued, Own, InCopies, Gained, Fits;
    OneAlone(Inner(scope, c.stmts), d);
    OneAlone(Inner(scope, kids), d);
    AloneIs(c.ts, Inner(scope, c.stmts), p);
  }

  /** A list of one. */
  lemma AloneIs(ts: seq<Table>, s: Stmt, p: seq<ScopeId>)
    requires p != []
    ensures (Placed(ts, [s], p) <==> PlacedOne(ts, s, p)) && (Argued(ts, [s]) <==> ArguedOne(ts, s)) && (Falls([s], p[0]) <==> FallsOne(s, p[0]))
  {
    assert [s][0] == s;
  }

  lemma {:induction false} EnterGrows(g: Program, body: seq<Code>, p: seq<ScopeId>, ts: seq<Table>, active: set<nat>, d: ScopeId)
    requires Known(ts, p) && d == Home(ts, p) && Holds(ts, d) && Enter(g, body, p, ts, active).Smooth?
    ensures EnterGrew(ts, Enter(g, body, p, ts, active), p, d)
    decreases Free(g, active), 1
  {
    hide Walk, Placed, Unexpanded, Falls, Home, Grew, Argued, Own, InCopies, Place, Populate, Lands, Gained, Fits;
    var (kids, ts1) := Place(body, p[0], ts);
    var (ts2, taken) := Populate(kids, p, ts1);
    PlaceIsPlaced(body, p, ts);
    PlaceEmpty(body, p[0], ts);
    PlaceFalls(body, p[0], ts);
    PrefixWider(ts, ts1);
    StaysHome(ts, ts1, p, d);
    NothingGained(ts, ts1);
    PopulateGains(kids, p, ts1, d);
    StaysPlaced(ts1, ts2, kids, p);
    StaysHome(ts1, ts2, p, d);
    WalkGrows(g, kids, p, ts2, active, d);
    EnterGrewIs(ts, ts1, ts2, Walk(g, kids, p, ts2, active), kids, p, d);
  }

  /** The same for a copy, whose own definitions come first. */
  ghost predicate EnterGrew(ts: seq<Table>, c: Course, p: seq<ScopeId>, d: ScopeId)
    requires c.Smooth? && p != []
  {
    var ls := Own(c.stmts, d) + InCopies(c.stmts, d);
    && Wider(ts, c.ts) && SameParameters(ts, c.ts) && Placed(c.ts, c.stmts, p) && Argued(c.ts, c.stmts) && Falls(c.stmts, p[0])
    && Fits(ts, ls) && Gained(ts, c.ts, ls)
  }

  lemma EnterGrewIs(ts: seq<Table>, ts1: seq<Table>, ts2: seq<Table>, c: Course, kids: seq<Stmt>, p: seq<ScopeId>, d: ScopeId)
    requires p != [] && c.Smooth? && Grew(ts2, c, kids, p, d) && Unexpanded(kids) && Placed(ts1, kids, p) && Holds(ts1, d)
    requires ts <= ts1 && Gained(ts, ts1, []) && SameParameters(ts, ts1)
    requires forall ls: seq<Landing> | (forall i | 0 <= i < |ls| :: Holds(ts1, ls[i].scope)) :: Fits(ts1, ls) <==> Fits(ts, ls)
    requires Fits(ts1, Lands(kids, d)) && Gained(ts1, ts2, Lands(kids, d)) && Wider(ts1, ts2) && |ts2| == |ts1| && SameParameters(ts1, ts2)
    ensures EnterGrew(ts, c, p, d)
  {
    hide Placed, Unexpanded, Falls, Argued, Own, InCopies, Lands, Gained, Fits;
    UnexpandedOwn(kids, d);
    var own, more := Own(c.stmts, d), InCopies(c.stmts, d);
    assert [] + own == own;
    GainedAppend(ts, ts1, ts2, [], own);
    InCopiesKnown(ts1, kids, p, d);
    assert Fits(ts, own);
    InCopiesKnown(c.ts, c.stmts, p, d);
    GainedAppend(ts, ts2, c.ts, own, more);
    FitsAppend(ts, ts2, own, more);
  }

  lemma SiteGrew(ts: seq<Table>, t: Template, name: string, args: nat, p: seq<ScopeId>, d: ScopeId, c: Course)
    requires Known(ts, p) && args == |t.params| && c.Smooth? && EnterGrew(ts + [ParameterTable(t.params, p[0])], c, [|ts|] + p, d)
    ensures Grew(ts, Smooth([Site(name, args, Some(Copy(|ts|, c.stmts)))], c.ts), [Site(name, args, None)], p, d)
  {
    hide Placed, Falls, Argued, Own, InCopies, Gained, Fits;
    var us, site, ls := ts + [ParameterTable(t.params, p[0])], Site(name, args, Some(Copy(|ts|, c.stmts))), Own(c.stmts, d) + InCopies(c.stmts, d);
    OneAlone(site, d);
    OneAlone(Site(name, args, None), d);
    AloneIs(c.ts, site, p);
    ParametersEmpty(t.params, p[0]);
    assert us[|ts|] == ParameterTable(t.params, p[0]) && c.ts[|ts|] == us[|ts|];
    NothingGained(ts, us);
    assert [] + ls == ls;
    GainedAppend(ts, us, c.ts, [], ls);
    FitsBefore(ts, us, c.ts, ls);
  }

  /** A scope of parameters does not matter to definitions. */
  lemma FitsBefore(ts: seq<Table>, us: seq<Table>, vs: seq<Table>, ls: seq<Landing>)
    requires ts <= us && |us| == |ts| + 1 && us[|ts|].kind == TemplateParameter && Wider(us, vs) && Gained(us, vs, ls) && Fits(us, ls)
    ensures Fits(ts, ls)
  {
    forall i | 0 <= i < |ls| ensures Look(us, ls[i].scope, ls[i].name) == Look(ts, ls[i].scope, ls[i].name) {
      assert ls[i].scope != |ts|;
    }
  }

  lemma ParametersEmpty(params: seq<string>, parent: ScopeId)
    ensures |params| == 0 <==> ParameterTable(params, parent).symbols == map[]
  {
    if params != [] { assert params[0] in ParameterTable(params, parent).symbols; }
  }

  lemma ModuleGrows(g: Program, cs: seq<Code>, ts: seq<Table>)
    requires Sound(ts) && ModuleCourse(g, cs, ts).Smooth?
    ensures EnterGrew(ts + [Table(Global, Some(WORLD), map[])], ModuleCourse(g, cs, ts), [|ts|, WORLD], |ts|)
  {
    hide Enter, EnterGrew;
    EnterGrows(g, cs, [|ts|, WORLD], ts + [Table(Global, Some(WORLD), map[])], {}, |ts|);
  }

  /** Every site of a module that is expanded without an error holds a copy, those in copies too. */
  lemma ModuleExpanded(g: Program, cs: seq<Code>, ts: seq<Table>)
    requires Sound(ts) && ModuleCourse(g, cs, ts).Smooth?
    ensures Argued(ModuleCourse(g, cs, ts).ts, ModuleCourse(g, cs, ts).stmts)
  {
    hide Enter;
    ModuleGrows(g, cs, ts);
  }
}
