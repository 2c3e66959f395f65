/** Pasting as a plain unfolding of the text, which defines nothing on the way: a module with clear names is
    expanded without an error exactly when it unfolds and the pasted text has no name defined twice. */
module Spreading {
  import opened Common
  import opened Scopes
  import opened Programs
  import opened Expansion
  import opened Circles
  import opened ClearNames
  import opened Landings
  import opened Pasting

  ghost function TemplateNamed(g: Program, name: string): (t: Option<nat>)
    ensures t.Some? ==> t.value in g && g[t.value].name == name
    ensures t.None? ==> forall u | u in g :: g[u].name != name
  {
    if u :| u in g && g[u].name == name then Some(u) else None
  }

  type Unfolded = Option<(seq<Stmt>, seq<Table>)>

  /** Copies for all sites, by the names of templates; none if a site names no template, has the wrong number
      of arguments or circles. */
  ghost function Spread(g: Program, stmts: seq<Stmt>, p: seq<ScopeId>, ts: seq<Table>, active: set<nat>): Unfolded
    requires p != []
    decreases Free(g, active), 0, stmts, 0
  {
    if stmts == [] then Some(([], ts))
    else
      var first := SpreadOne(g, stmts[0], p, ts, active);
      if first.None? then None
      else
        var rest := Spread(g, stmts[1..], p, first.value.1, active);
        if rest.None? then None else Some((first.value.0 + rest.value.0, rest.value.1))
  }

  ghost function SpreadOne(g: Program, s: Stmt, p: seq<ScopeId>, ts: seq<Table>, active: set<nat>): Unfolded
    requires p != []
    decreases Free(g, active), 0, s, 1
  {
    match s
    case Inner(scope, kids) =>
      var r := Spread(g, kids, [scope] + p, ts, active);
      if r.None? then None else Some(([Inner(scope, r.value.0)], r.value.1))
    case Site(name, args, copy) =>
      var t := TemplateNamed(g, name);
      if copy.Some? then Some(([s], ts))
      else if t.None? || t.value in active || args != |g[t.value].params| then None
      else
        assert t.value in Free(g, active) && Free(g, active + {t.value}) == Free(g, active) - {t.value};
        var r := SpreadBody(g, g[t.value].body, [|ts|] + p, ts + [ParameterTable(g[t.value].params, p[0])], active + {t.value});
        if r.None? then None else Some(([Site(name, args, Some(Copy(|ts|, r.value.0)))], r.value.1))
    case _ => Some(([s], ts))
  }

  ghost function SpreadBody(g: Program, body: seq<Code>, p: seq<ScopeId>, ts: seq<Table>, active: set<nat>): Unfolded
    requires p != []
    decreases Free(g, active), 1
  {
    var (kids, ts1) := Place(body, p[0], ts);
    Spread(g, kids, p, ts1, active)
  }

  ghost function ModuleSpread(g: Program, cs: seq<Code>, ts: seq<Table>): Unfolded {
    SpreadBody(g, cs, [|ts|, WORLD], ts + [Table(Global, Some(WORLD), map[])], {})
  }

  // ----- tables of both runs -----

  /** The same scopes, in which other names may have been defined. */
  predicate Alike(ts: seq<Table>, us: seq<Table>) {
    |ts| == |us| && forall s | 0 <= s < |ts| ::
      ts[s].kind == us[s].kind && ts[s].parent == us[s].parent && (ts[s].kind == TemplateParameter ==> ts[s] == us[s])
  }

  lemma {:induction false} PlaceAlike(cs: seq<Code>, parent: ScopeId, ts: seq<Table>, us: seq<Table>)
    requires Alike(ts, us)
    ensures Place(cs, parent, ts).0 == Place(cs, parent, us).0 && Alike(Place(cs, parent, ts).1, Place(cs, parent, us).1)
    decreases cs, 0
  {
    hide PlaceOne, Alike;
    if cs != [] {
      PlaceOneAlike(cs[0], parent, ts, us);
      PlaceAlike(cs[1..], parent, PlaceOne(cs[0], parent, ts).1, PlaceOne(cs[0], parent, us).1);
    }
  }

  lemma {:induction false} PlaceOneAlike(c: Code, parent: ScopeId, ts: seq<Table>, us: seq<Table>)
    requires Alike(ts, us)
    ensures PlaceOne(c, parent, ts).0 == PlaceOne(c, parent, us).0 && Alike(PlaceOne(c, parent, ts).1, PlaceOne(c, parent, us).1)
    decreases c, 1
  {
    match c
    case Scoped(body) => PlaceAlike(body, |ts|, ts + [Table(Local, Some(parent), map[])], us + [Table(Local, Some(parent), map[])]);
    case _ =>
  }

  lemma AlikeMore(ts: seq<Table>, us: seq<Table>, t: Table)
    requires Alike(ts, us)
    ensures Alike(ts + [t], us + [t])
  {
  }

  lemma AlikePopulated(ts: seq<Table>, vs: seq<Table>, us: seq<Table>)
    requires Alike(ts, us) && Wider(ts, vs) && |vs| == |ts| && SameParameters(ts, vs)
    ensures Alike(vs, us)
  {
  }

  /** What an unfolding leaves. */
  lemma {:induction false} SpreadPlaced(g: Program, stmts: seq<Stmt>, p: seq<ScopeId>, ts: seq<Table>, active: set<nat>)
    requires Known(ts, p) && Placed(ts, stmts, p) && Spread(g, stmts, p, ts, active).Some?
    ensures var (r, us) := Spread(g, stmts, p, ts, active).value; Placed(us, r, p) && Wider(ts, us)
    decreases Free(g, active), 0, stmts, 0
  {
    hide SpreadOne, PlacedOne;
    if stmts != [] {
      SpreadOnePlaced(g, stmts[0], p, ts, active);
      var (first, us) := SpreadOne(g, stmts[0], p, ts, active).value;
      StaysPlaced(ts, us, stmts[1..], p);
      SpreadPlaced(g, stmts[1..], p, us, active);
      var (rest, vs) := Spread(g, stmts[1..], p, us, active).value;
      StaysPlaced(us, vs, first, p);
      PlacedAppend(vs, first, rest, p);
    } else {
      WiderSelf(ts);
    }
  }

  lemma {:induction false} SpreadOnePlaced(g: Program, s: Stmt, p: seq<ScopeId>, ts: seq<Table>, active: set<nat>)
    requires Known(ts, p) && PlacedOne(ts, s, p) && SpreadOne(g, s, p, ts, active).Some?
    ensures var (r, us) := SpreadOne(g, s, p, ts, active).value; Placed(us, r, p) && Wider(ts, us) && |r| == 1
    decreases Free(g, active), 0, s, 1
  {
    hide Spread, SpreadBody, Placed;
    match s
    case Inner(scope, kids) =>
      SpreadPlaced(g, kids, [scope] + p, ts, active);
      var (r, us) := Spread(g, kids, [scope] + p, ts, active).value;
      PlacedAlone(us, Inner(scope, r), p);
    case Site(name, args, copy) =>
      if copy.Some? {
        WiderSelf(ts);
        PlacedAlone(ts, s, p);
      } else {
        var t := TemplateNamed(g, name).value;
        var us := ts + [ParameterTable(g[t].params, p[0])];
        assert t in Free(g, active) && Free(g, active + {t}) == Free(g, active) - {t};
        ParametersPlaced(g, t, p, ts);
        SpreadBodyPlaced(g, g[t].body, [|ts|] + p, us, active + {t});
        var (r, vs) := SpreadBody(g, g[t].body, [|ts|] + p, us, active + {t}).value;
        WiderTrans(ts, us, vs);
        PlacedAlone(vs, Site(name, args, Some(Copy(|ts|, r))), p);
      }
    case _ =>
      WiderSelf(ts);
      PlacedAlone(ts, s, p);
  }

  lemma {:induction false} SpreadBodyPlaced(g: Program, body: seq<Code>, p: seq<ScopeId>, ts: seq<Table>, active: set<nat>)
    requires Known(ts, p) && SpreadBody(g, body, p, ts, active).Some?
    ensures var (r, us) := SpreadBody(g, body, p, ts, active).value; Placed(us, r, p) && Wider(ts, us)
    decreases Free(g, active), 1
  {
    hide Spread, Placed, Place;
    var (kids, ts1) := Place(body, p[0], ts);
    PlaceIsPlaced(body, p, ts);
    PrefixWider(ts, ts1);
    SpreadPlaced(g, kids, p, ts1, active);
    WiderTrans(ts, ts1, Spread(g, kids, p, ts1, active).value.1);
  }

  // ----- expansion against the unfolding -----

  /** Where both are. */
  ghost predicate Side(g: Program, ts: seq<Table>, us: seq<Table>, p: seq<ScopeId>, top: ScopeId, d: ScopeId) {
    && ClearTemplates(g) && (forall t | t in g :: NamesTemplates(g, g[t].body)) && NamedTables(g, ts)
    && Open(g, ts, top) && Through(p, top) && Known(ts, p) && top < |ts| && Alike(ts, us) && d == Home(ts, p) && Holds(ts, d)
  }

  /** Expansion goes smoothly exactly when there is an unfolding whose definitions are in nobody's way. */
  ghost predicate Matches(ts: seq<Table>, c: Course, r: Unfolded, d: ScopeId) {
    && (c.Smooth? <==> r.Some? && Fits(ts, InCopies(r.value.0, d)))
    && (c.Smooth? ==> c.stmts == r.value.0 && Alike(c.ts, r.value.1))
  }

  lemma {:induction false} WalkSpreads(g: Program, stmts: seq<Stmt>, p: seq<ScopeId>, ts: seq<Table>, us: seq<Table>, active: set<nat>,
      top: ScopeId, d: ScopeId)
    requires Side(g, ts, us, p, top, d) && Placed(ts, stmts, p) && Above(stmts, top) && Unexpanded(stmts) && Falls(stmts, p[0])
    ensures Matches(ts, Walk(g, stmts, p, ts, active), Spread(g, stmts, p, us, active), d)
    decreases Free(g, active), 0, stmts, 0
  {
    hide WalkOne, SpreadOne, PlacedOne, AboveOne, UnexpandedOne, FallsOne, Side, Matches;
    if stmts == [] {
      NoneMatches(ts, us, d, g, p, top);
    } else {
      SideKnown(g, ts, us, p, top, d);
      WalkOneSpreads(g, stmts[0], p, ts, us, active, top, d);
      var a, b := WalkOne(g, stmts[0], p, ts, active), SpreadOne(g, stmts[0], p, us, active);
      StaysPlacedAlike(ts, us, stmts, p);
      if b.Some? { SpreadOnePlaced(g, stmts[0], p, us, active); }
      if a.Smooth? {
        SideStays(g, stmts[0], p, ts, us, active, top, d);
        WalkOneGrows(g, stmts[0], p, ts, active, d);
        OneWider(ts, a, stmts[0], p, d);
        StaysPlaced(ts, a.ts, stmts[1..], p);
        MatchesIs(ts, a, b, d);
        WalkSpreads(g, stmts[1..], p, a.ts, b.value.1, active, top, d);
        var rest := Spread(g, stmts[1..], p, b.value.1, active);
        if rest.Some? {
          StaysPlaced(us, b.value.1, stmts[1..], p);
          SpreadPlaced(g, stmts[1..], p, b.value.1, active);
        }
        BothMatch(ts, a, b, Walk(g, stmts[1..], p, a.ts, active), rest, stmts[0], p, d);
      } else if b.Some? {
        var rest := Spread(g, stmts[1..], p, b.value.1, active);
        FirstFails(ts, a, b, rest, Walk(g, stmts, p, ts, active), d);
      } else {
        NoneFails(ts, a, b, Walk(g, stmts, p, ts, active), d);
      }
    }
  }

  lemma NoneMatches(ts: seq<Table>, us: seq<Table>, d: ScopeId, g: Program, p: seq<ScopeId>, top: ScopeId)
    requires Side(g, ts, us, p, top, d)
    ensures Matches(ts, Smooth([], ts), Some(([], us)), d)
  {
  }

  lemma SideKnown(g: Program, ts: seq<Table>, us: seq<Table>, p: seq<ScopeId>, top: ScopeId, d: ScopeId)
    requires Side(g, ts, us, p, top, d)
    ensures Known(ts, p) && Known(us, p) && Alike(ts, us) && Wider(ts, us) && Wider(us, ts) && d == Home(ts, p) && Holds(ts, d)
  {
  }

  lemma StaysPlacedAlike(ts: seq<Table>, us: seq<Table>, stmts: seq<Stmt>, p: seq<ScopeId>)
    requires Wider(ts, us) && Placed(ts, stmts, p)
    ensures Placed(us, stmts, p)
  {
    StaysPlaced(ts, us, stmts, p);
  }

  lemma MatchesIs(ts: seq<Table>, c: Course, r: Unfolded, d: ScopeId)
    requires Matches(ts, c, r, d) && c.Smooth?
    ensures r.Some? && c.stmts == r.value.0 && Alike(c.ts, r.value.1) && Fits(ts, InCopies(r.value.0, d))
  {
  }

  /** One step keeps both alike. */
  lemma SideStays(g: Program, s: Stmt, p: seq<ScopeId>, ts: seq<Table>, us: seq<Table>, active: set<nat>, top: ScopeId, d: ScopeId)
    requires Side(g, ts, us, p, top, d) && PlacedOne(ts, s, p) && AboveOne(s, top) && WalkOne(g, s, p, ts, active).Smooth?
    requires Matches(ts, WalkOne(g, s, p, ts, active), SpreadOne(g, s, p, us, active), d)
    ensures Side(g, WalkOne(g, s, p, ts, active).ts, SpreadOne(g, s, p, us, active).value.1, p, top, d)
  {
    hide WalkOne, SpreadOne, PlacedOne, AboveOne, Home, Open, NamedTables, ClearTemplates, Through, NamesTemplates;
    WalkOneOpen(g, s, p, ts, active, top);
    WalkOneWider(g, s, p, ts, active);
    WalkOneNamed(g, s, p, ts, active);
    StaysHome(ts, WalkOne(g, s, p, ts, active).ts, p, d);
  }

  lemma FitsPrefix(ts: seq<Table>, a: seq<Landing>, b: seq<Landing>)
    requires Fits(ts, a + b)
    ensures Fits(ts, a)
  {
    assert forall i | 0 <= i < |a| :: (a + b)[i] == a[i];
  }

  lemma InCopiesAppend(a: Stmt, b: seq<Stmt>, d: ScopeId)
    ensures InCopies([a] + b, d) == InCopies([a], d) + InCopies(b, d)
  {
    hide InCopiesOne;
    OneAlone(a, d);
    assert ([a] + b)[1..] == b;
  }

  lemma BothMatch(ts: seq<Table>, a: Course, b: Unfolded, c: Course, r: Unfolded, s: Stmt, p: seq<ScopeId>, d: ScopeId)
    requires p != [] && a.Smooth? && b.Some? && Matches(ts, a, b, d) && Matches(a.ts, c, r, d) && Grew(ts, a, [s], p, d) && |a.stmts| == 1
    requires Holds(ts, d) && Alike(a.ts, b.value.1) && (r.Some? ==> Placed(r.value.1, r.value.0, p) && Wider(b.value.1, r.value.1))
    ensures Matches(ts, if c.Smooth? then Smooth(a.stmts + c.stmts, c.ts) else c, if r.None? then None else Some((b.value.0 + r.value.0, r.value.1)), d)
  {
    hide Placed, Argued, Falls, InCopies, Gained, Fits, Own;
    if r.Some? {
      var x, rest := a.stmts[0], r.value.0;
      assert a.stmts == [x];
      InCopiesAppend(x, rest, d);
      assert Holds(r.value.1, d);
      InCopiesKnown(r.value.1, rest, p, d);
      FitsAppend(ts, a.ts, InCopies(a.stmts, d), InCopies(rest, d));
    }
  }

  lemma FirstFails(ts: seq<Table>, a: Course, b: Unfolded, r: Unfolded, whole: Course, d: ScopeId)
    requires a.Trouble? && b.Some? && Matches(ts, a, b, d) && whole.Trouble? && |b.value.0| == 1
    ensures Matches(ts, whole, if r.None? then None else Some((b.value.0 + r.value.0, r.value.1)), d)
  {
    hide InCopies, Fits;
    if r.Some? {
      var x := b.value.0[0];
      assert b.value.0 == [x];
      InCopiesAppend(x, r.value.0, d);
      if Fits(ts, InCopies(b.value.0 + r.value.0, d)) { FitsPrefix(ts, InCopies([x], d), InCopies(r.value.0, d)); }
    }
  }

  lemma NoneFails(ts: seq<Table>, a: Course, b: Unfolded, whole: Course, d: ScopeId)
    requires a.Trouble? && b.None? && whole.Trouble?
    ensures Matches(ts, whole, None, d)
  {
  }

  lemma {:induction false} WalkOneSpreads(g: Program, s: Stmt, p: seq<ScopeId>, ts: seq<Table>, us: seq<Table>, active: set<nat>,
      top: ScopeId, d: ScopeId)
    requires p != [] && Side(g, ts, us, p, top, d) && PlacedOne(ts, s, p) && AboveOne(s, top) && UnexpandedOne(s) && FallsOne(s, p[0])
    ensures Matches(ts, WalkOne(g, s, p, ts, active), SpreadOne(g, s, p, us, active), d)
    decreases Free(g, active), 0, s, 1
  {
    hide Walk, Spread, Placed, Above, Unexpanded, Falls, Side, Matches, Enter, SpreadBody, Resolve;
    match s
    case Inner(scope, kids) =>
      SideInside(g, ts, us, p, top, d, scope);
      WalkSpreads(g, kids, [scope] + p, ts, us, active, top, scope);
      InnerMatches(ts, scope, Walk(g, kids, [scope] + p, ts, active), Spread(g, kids, [scope] + p, us, active), d);
    case Site(name, args, _) =>
      SideNames(g, ts, us, p, top, d, name);
      SideKnown(g, ts, us, p, top, d);
      var t := TemplateNamed(g, name);
      if t.None? || t.value in active || args != |g[t.value].params| {
        NoneMatch(ts, d, WalkOne(g, s, p, ts, active));
      } else {
        var table := ParameterTable(g[t.value].params, p[0]);
        assert t.value in Free(g, active) && Free(g, active + {t.value}) == Free(g, active) - {t.value};
        SideEnters(g, ts, us, p, top, d, t.value);
        EnterSpreads(g, t.value, [|ts|] + p, ts + [table], us + [table], active + {t.value}, top, d);
        SiteMatches(ts, table, name, args, d, Enter(g, g[t.value].body, [|ts|] + p, ts + [table], active + {t.value}),
                    SpreadBody(g, g[t.value].body, [|ts|] + p, us + [table], active + {t.value}));
      }
    case _ => OtherMatches(g, ts, us, p, top, d, s);
  }

  lemma SideInside(g: Program, ts: seq<Table>, us: seq<Table>, p: seq<ScopeId>, top: ScopeId, d: ScopeId, scope: ScopeId)
    requires Side(g, ts, us, p, top, d) && scope > top && Holds(ts, scope)
    ensures Side(g, ts, us, [scope] + p, top, scope)
  {
    ThroughMore(p, top, scope);
    HomeInside(ts, scope, p);
  }

  /** Looking a name up finds the template of that name. */
  lemma SideNames(g: Program, ts: seq<Table>, us: seq<Table>, p: seq<ScopeId>, top: ScopeId, d: ScopeId, name: string)
    requires Side(g, ts, us, p, top, d)
    ensures var t, r := TemplateNamed(g, name), Resolve(g, ts, p, name);
      if t.Some? then r == ToTemplate(t.value) else !r.ToTemplate?
  {
    hide Resolve, Open, NamedTables, Through, ClearTemplates, Home;
    ResolvesByName(g, ts, p, name);
    if TemplateNamed(g, name).Some? { FindsTemplate(g, ts, p, top, TemplateNamed(g, name).value); }
  }

  lemma SideEnters(g: Program, ts: seq<Table>, us: seq<Table>, p: seq<ScopeId>, top: ScopeId, d: ScopeId, t: nat)
    requires Side(g, ts, us, p, top, d) && t in g
    ensures var table := ParameterTable(g[t].params, p[0]); Side(g, ts + [table], us + [table], [|ts|] + p, top, d)
  {
    hide Open, NamedTables, Home, Through;
    var table := ParameterTable(g[t].params, p[0]);
    OpenMore(g, ts, table, top);
    ParametersNamed(g, ts, g[t].params, p[0]);
    ParametersPlaced(g, t, p, ts);
    HomeInside(ts + [table], |ts|, p);
    StaysHome(ts, ts + [table], p, d);
    ThroughMore(p, top, |ts|);
    AlikeMore(ts, us, table);
  }

  lemma NoneMatch(ts: seq<Table>, d: ScopeId, c: Course)
    requires c.Trouble?
    ensures Matches(ts, c, None, d)
  {
  }

  lemma OtherMatches(g: Program, ts: seq<Table>, us: seq<Table>, p: seq<ScopeId>, top: ScopeId, d: ScopeId, s: Stmt)
    requires Side(g, ts, us, p, top, d) && (s.Def? || s.Ref?)
    ensures Matches(ts, Smooth([s], ts), Some(([s], us)), d)
  {
    OneAlone(s, d);
  }

  lemma InnerMatches(ts: seq<Table>, scope: ScopeId, c: Course, r: Unfolded, d: ScopeId)
    requires Matches(ts, c, r, scope)
    ensures Matches(ts, if c.Smooth? then Smooth([Inner(scope, c.stmts)], c.ts) else c,
                    if r.None? then None else Some(([Inner(scope, r.value.0)], r.value.1)), d)
  {
    hide InCopies, Fits;
    if r.Some? { OneAlone(Inner(scope, r.value.0), d); }
  }

  predicate AllHeld(ts: seq<Table>, ls: seq<Landing>) {
    forall i | 0 <= i < |ls| :: Holds(ts, ls[i].scope)
  }

  /** The same for a copy: its own definitions and those in copies in it are in nobody's way. */
  ghost predicate BodyMatches(ts: seq<Table>, c: Course, r: Unfolded, d: ScopeId) {
    && (c.Smooth? <==> r.Some? && Fits(ts, Own(r.value.0, d) + InCopies(r.value.0, d)))
    && (c.Smooth? ==> c.stmts == r.value.0 && Alike(c.ts, r.value.1))
    && (r.Some? ==> AllHeld(r.value.1, Own(r.value.0, d) + InCopies(r.value.0, d)))
    && (r.Some? ==> |ts| <= |r.value.1| && forall s | 0 <= s < |ts| :: r.value.1[s].kind == ts[s].kind)
  }

  lemma SiteMatches(ts: seq<Table>, table: Table, name: string, args: nat, d: ScopeId, c: Course, r: Unfolded)
    requires table.kind == TemplateParameter && BodyMatches(ts + [table], c, r, d)
    ensures Matches(ts, if c.Smooth? then Smooth([Site(name, args, Some(Copy(|ts|, c.stmts)))], c.ts) else c,
                    if r.None? then None else Some(([Site(name, args, Some(Copy(|ts|, r.value.0)))], r.value.1)), d)
  {
    hide Own, InCopies;
    if r.Some? {
      var ls, us := Own(r.value.0, d) + InCopies(r.value.0, d), ts + [table];
      OneAlone(Site(name, args, Some(Copy(|ts|, r.value.0))), d);
      assert r.value.1[|ts|].kind == us[|ts|].kind;
      assert forall i | 0 <= i < |ls| :: Look(us, ls[i].scope, ls[i].name) == Look(ts, ls[i].scope, ls[i].name);
    }
  }

  lemma {:induction false} EnterSpreads(g: Program, t: nat, p: seq<ScopeId>, ts: seq<Table>, us: seq<Table>, active: set<nat>,
      top: ScopeId, d: ScopeId)
    requires t in g && Side(g, ts, us, p, top, d)
    ensures BodyMatches(ts, Enter(g, g[t].body, p, ts, active), SpreadBody(g, g[t].body, p, us, active), d)
    decreases Free(g, active), 1
  {
    hide Walk, Spread, Placed, Above, Unexpanded, Falls, Side, Matches, BodyMatches, Place, Populate, Lands, Own, InCopies, Fits, Gained;
    SideKnown(g, ts, us, p, top, d);
    var body := g[t].body;
    var (kids, ts1) := Place(body, p[0], ts);
    var (ts2, taken) := Populate(kids, p, ts1);
    var us1 := Place(body, p[0], us).1;
    PlaceIsPlaced(body, p, ts);
    PlaceEmpty(body, p[0], ts);
    PlaceFalls(body, p[0], ts);
    PlaceAlike(body, p[0], ts, us);
    PrefixWider(ts, ts1);
    NothingGained(ts, ts1);
    StaysHome(ts, ts1, p, d);
    PopulateGains(kids, p, ts1, d);
    StaysPlaced(ts1, ts2, kids, p);
    SidePopulated(g, t, p, ts, us, top, d);
    WalkSpreads(g, kids, p, ts2, us1, active, top, d);
    var r := Spread(g, kids, p, us1, active);
    if r.Some? {
      AlikeWider(ts1, us1);
      StaysPlaced(ts1, us1, kids, p);
      WiderKnown(ts1, us1, p);
      SpreadPlaced(g, kids, p, us1, active);
      SpreadOwn(g, kids, p, us1, active, d);
    }
    BodyMatch(ts, ts1, ts2, us1, Walk(g, kids, p, ts2, active), r, kids, p, d, taken);
  }

  lemma AlikeWider(ts: seq<Table>, us: seq<Table>)
    requires Alike(ts, us)
    ensures Wider(ts, us) && Wider(us, ts)
  {
  }

  lemma WiderKnown(ts: seq<Table>, us: seq<Table>, p: seq<ScopeId>)
    requires Known(ts, p) && Wider(ts, us)
    ensures Known(us, p)
  {
  }

  lemma SidePopulated(g: Program, t: nat, p: seq<ScopeId>, ts: seq<Table>, us: seq<Table>, top: ScopeId, d: ScopeId)
    requires t in g && Side(g, ts, us, p, top, d)
    ensures var (kids, ts1) := Place(g[t].body, p[0], ts);
      Side(g, Populate(kids, p, ts1).0, Place(g[t].body, p[0], us).1, p, top, d) && Above(kids, top)
  {
    hide Place, Populate, Open, NamedTables, Home, Through, Above, NamesTemplates, Avoids, ClearStmts;
    var body := g[t].body;
    var (kids, ts1) := Place(body, p[0], ts);
    var ts2 := Populate(kids, p, ts1).0;
    PlaceOpen(g, body, p[0], ts, top);
    AllAvoidPlaced(g, body, p[0], ts);
    PopulateOpen(g, kids, p, ts1, top);
    EnterNamed(g, body, p, ts);
    PlaceAlike(body, p[0], ts, us);
    PrefixWider(ts, ts1);
    StaysHome(ts, ts1, p, d);
    PlaceIsPlaced(body, p, ts);
    PopulateGains(kids, p, ts1, d);
    StaysHome(ts1, ts2, p, d);
    AlikePopulated(ts1, ts2, Place(body, p[0], us).1);
  }

  lemma {:induction false} SpreadOwn(g: Program, stmts: seq<Stmt>, p: seq<ScopeId>, ts: seq<Table>, active: set<nat>, d: ScopeId)
    requires p != [] && Spread(g, stmts, p, ts, active).Some?
    ensures Own(Spread(g, stmts, p, ts, active).value.0, d) == Own(stmts, d)
    decreases stmts, 0
  {
    hide SpreadOne, OwnOne;
    if stmts != [] {
      SpreadOneOwn(g, stmts[0], p, ts, active, d);
      var first := SpreadOne(g, stmts[0], p, ts, active).value;
      SpreadOwn(g, stmts[1..], p, first.1, active, d);
      var rest := Spread(g, stmts[1..], p, first.1, active).value.0;
      assert first.0 == [first.0[0]] && ([first.0[0]] + rest)[1..] == rest;
      OneAlone(first.0[0], d);
    }
  }

  lemma {:induction false} SpreadOneOwn(g: Program, s: Stmt, p: seq<ScopeId>, ts: seq<Table>, active: set<nat>, d: ScopeId)
    requires p != [] && SpreadOne(g, s, p, ts, active).Some?
    ensures |SpreadOne(g, s, p, ts, active).value.0| == 1 && OwnOne(SpreadOne(g, s, p, ts, active).value.0[0], d) == OwnOne(s, d)
    decreases s, 1
  {
    hide Spread, SpreadBody;
    match s
    case Inner(scope, kids) => SpreadOwn(g, kids, [scope] + p, ts, active, scope);
    case _ =>
  }

  lemma BodyMatch(ts: seq<Table>, ts1: seq<Table>, ts2: seq<Table>, us1: seq<Table>, c: Course, r: Unfolded, kids: seq<Stmt>, p: seq<ScopeId>,
      d: ScopeId, taken: nat)
    requires Matches(ts2, c, r, d) && Unexpanded(kids) && Placed(ts1, kids, p) && Holds(ts1, d) && Alike(ts1, us1)
    requires ts <= ts1 && Gained(ts, ts1, []) && Wider(ts, ts1)
    requires forall ls: seq<Landing> | (forall i | 0 <= i < |ls| :: Holds(ts1, ls[i].scope)) :: Fits(ts1, ls) <==> Fits(ts, ls)
    requires (taken == 0 <==> Fits(ts1, Lands(kids, d))) && Gained(ts1, ts2, Lands(kids, d)) && Wider(ts1, ts2) && |ts2| == |ts1|
    requires r.Some? ==> Placed(r.value.1, r.value.0, p) && Wider(us1, r.value.1) && Own(r.value.0, d) == Own(kids, d)
    ensures BodyMatches(ts, if taken > 0 then Trouble(SymbolAlreadyDefinedInScope, ts2, []) else c, r, d)
  {
    hide Placed, Unexpanded, Own, InCopies, Lands, Gained, Fits;
    UnexpandedOwn(kids, d);
    if r.Some? {
      var own, more := Own(kids, d), InCopies(r.value.0, d);
      assert [] + own == own;
      GainedAppend(ts, ts1, ts2, [], own);
      InCopiesKnown(ts1, kids, p, d);
      assert Fits(ts1, own) <==> Fits(ts, own);
      assert Holds(r.value.1, d);
      InCopiesKnown(r.value.1, r.value.0, p, d);
      FitsAppend(ts, ts2, own, more);
      HeldAppend(r.value.1, own, more);
    }
  }

  // ----- a module -----

  /** A module with clear names: expanding it meets no error exactly when it unfolds and its definitions, copies
      included, are in nobody's way. */
  lemma ModuleMatches(g: Program, cs: seq<Code>, ts: seq<Table>)
    requires Clear(g, cs) && WellNamed(g, cs) && NamedTables(g, ts) && Sound(ts)
    ensures BodyMatches(ts + [Table(Global, Some(WORLD), map[])], ModuleCourse(g, cs, ts), ModuleSpread(g, cs, ts), |ts|)
  {
    hide Walk, Spread, Placed, Above, Unexpanded, Falls, Matches, BodyMatches, Place, Populate, Lands, Own, InCopies, Fits, Gained, Clear, Open,
         NamesTemplates, NamedTables, Home, Through;
    var top, p, ts0 := |ts|, [|ts|, WORLD], ts + [Table(Global, Some(WORLD), map[])];
    var (kids, ts1) := Place(cs, top, ts0);
    var (ts2, taken) := Populate(kids, p, ts1);
    ClearModule(g, cs);
    ModuleOpens(g, cs, ts);
    ModuleSettles(cs, ts);
    ModuleNamed(g, ts);
    EnterNamed(g, cs, p, ts0);
    PlaceEmpty(cs, top, ts0);
    PlaceFalls(cs, top, ts0);
    PrefixWider(ts0, ts1);
    NothingGained(ts0, ts1);
    assert ts1[top] == ts0[top];
    PopulateGains(kids, p, ts1, top);
    StaysPlaced(ts1, ts2, kids, p);
    StaysHome(ts1, ts2, p, top);
    SelfAlike(ts1);
    AlikePopulated(ts1, ts2, ts1);
    var r := Spread(g, kids, p, ts1, {});
    if r.Some? {
      SpreadPlaced(g, kids, p, ts1, {});
      SpreadOwn(g, kids, p, ts1, {}, top);
    }
    if taken == 0 {
      WalkSpreads(g, kids, p, ts2, ts1, {}, top, top);
      BodyMatch(ts0, ts1, ts2, ts1, Walk(g, kids, p, ts2, {}), r, kids, p, top, taken);
    } else {
      TakenMatch(ts0, ts1, ts2, r, kids, p, top);
    }
  }

  lemma ModuleNamed(g: Program, ts: seq<Table>)
    requires NamedTables(g, ts)
    ensures NamedTables(g, ts + [Table(Global, Some(WORLD), map[])])
  {
  }

  lemma SelfAlike(ts: seq<Table>)
    ensures Alike(ts, ts) && Wider(ts, ts)
  {
  }

  lemma TakenMatch(ts: seq<Table>, ts1: seq<Table>, ts2: seq<Table>, r: Unfolded, kids: seq<Stmt>, p: seq<ScopeId>, d: ScopeId)
    requires Unexpanded(kids) && Placed(ts1, kids, p) && Holds(ts1, d) && ts <= ts1 && !Fits(ts1, Lands(kids, d))
    requires forall ls: seq<Landing> | (forall i | 0 <= i < |ls| :: Holds(ts1, ls[i].scope)) :: Fits(ts1, ls) <==> Fits(ts, ls)
    requires r.Some? ==> Placed(r.value.1, r.value.0, p) && Wider(ts1, r.value.1) && Own(r.value.0, d) == Own(kids, d)
    ensures BodyMatches(ts, Trouble(SymbolAlreadyDefinedInScope, ts2, []), r, d)
  {
    hide Placed, Unexpanded, Own, InCopies, Lands, Fits;
    UnexpandedOwn(kids, d);
    InCopiesKnown(ts1, kids, p, d);
    if r.Some? {
      var own, more := Own(kids, d), InCopies(r.value.0, d);
      if Fits(ts, own + more) { FitsPrefix(ts, own, more); }
      InCopiesKnown(r.value.1, r.value.0, p, d);
      HeldAppend(r.value.1, own, more);
    }
  }

  lemma HeldAppend(ts: seq<Table>, a: seq<Landing>, b: seq<Landing>)
    requires AllHeld(ts, a) && AllHeld(ts, b)
    ensures AllHeld(ts, a + b)
  {
  }

  // ----- the pasted text of an unfolding -----

  /** Only tables of scopes that define nothing have been added. */
  predicate Added(ts: seq<Table>, us: seq<Table>) {
    ts <= us && forall s | |ts| <= s < |us| :: us[s].kind == TemplateParameter || us[s].symbols == map[]
  }

  /** An unfolding as pasting wants it. */
  predicate Unfolds(ts: seq<Table>, us: seq<Table>, r: seq<Stmt>, p: seq<ScopeId>) {
    p != [] && Added(ts, us) && Placed(us, r, p) && Argued(us, r) && Falls(r, p[0])
  }

  lemma {:induction false} SpreadUnfolds(g: Program, stmts: seq<Stmt>, p: seq<ScopeId>, ts: seq<Table>, active: set<nat>)
    requires Known(ts, p) && Placed(ts, stmts, p) && Unexpanded(stmts) && Falls(stmts, p[0]) && Spread(g, stmts, p, ts, active).Some?
    ensures Unfolds(ts, Spread(g, stmts, p, ts, active).value.1, Spread(g, stmts, p, ts, active).value.0, p)
    decreases Free(g, active), 0, stmts, 0
  {
    hide SpreadOne, PlacedOne, UnexpandedOne, FallsOne, Unfolds;
    if stmts == [] {
      NothingUnfolds(ts, p);
    } else {
      SpreadOneUnfolds(g, stmts[0], p, ts, active);
      var (first, us) := SpreadOne(g, stmts[0], p, ts, active).value;
      UnfoldsWider(ts, us, first, p);
      StaysPlaced(ts, us, stmts[1..], p);
      SpreadUnfolds(g, stmts[1..], p, us, active);
      var (rest, vs) := Spread(g, stmts[1..], p, us, active).value;
      UnfoldsAppend(ts, us, vs, first, rest, p);
    }
  }

  lemma NothingUnfolds(ts: seq<Table>, p: seq<ScopeId>)
    requires p != []
    ensures Unfolds(ts, ts, [], p)
  {
  }

  lemma UnfoldsWider(ts: seq<Table>, us: seq<Table>, r: seq<Stmt>, p: seq<ScopeId>)
    requires Unfolds(ts, us, r, p) && Known(ts, p)
    ensures Wider(ts, us) && SameParameters(ts, us) && Known(us, p)
  {
  }

  lemma UnfoldsAppend(ts: seq<Table>, us: seq<Table>, vs: seq<Table>, a: seq<Stmt>, b: seq<Stmt>, p: seq<ScopeId>)
    requires Unfolds(ts, us, a, p) && Unfolds(us, vs, b, p)
    ensures Unfolds(ts, vs, a + b, p)
  {
    hide PlacedOne, ArguedOne, FallsOne;
    StaysPlaced(us, vs, a, p);
    StaysArgued(us, vs, a, p);
  }

  lemma {:induction false} SpreadOneUnfolds(g: Program, s: Stmt, p: seq<ScopeId>, ts: seq<Table>, active: set<nat>)
    requires Known(ts, p) && PlacedOne(ts, s, p) && UnexpandedOne(s) && FallsOne(s, p[0]) && SpreadOne(g, s, p, ts, active).Some?
    ensures Unfolds(ts, SpreadOne(g, s, p, ts, active).value.1, SpreadOne(g, s, p, ts, active).value.0, p)
    decreases Free(g, active), 0, s, 1
  {
    hide Spread, SpreadBody, Placed, Unexpanded, Falls, Unfolds;
    match s
    case Inner(scope, kids) =>
      SpreadUnfolds(g, kids, [scope] + p, ts, active);
      InnerUnfolds(ts, Spread(g, kids, [scope] + p, ts, active).value, scope, kids, p);
    case Site(name, args, _) =>
      var t := TemplateNamed(g, name).value;
      assert t in Free(g, active) && Free(g, active + {t}) == Free(g, active) - {t};
      ParametersPlaced(g, t, p, ts);
      SpreadBodyUnfolds(g, g[t].body, [|ts|] + p, ts + [ParameterTable(g[t].params, p[0])], active + {t});
      SiteUnfolds(ts, g[t], name, p, SpreadBody(g, g[t].body, [|ts|] + p, ts + [ParameterTable(g[t].params, p[0])], active + {t}).value);
    case _ => OtherUnfolds(ts, s, p);
  }

  lemma OtherUnfolds(ts: seq<Table>, s: Stmt, p: seq<ScopeId>)
    requires p != [] && (s.Def? || s.Ref?)
    ensures Unfolds(ts, ts, [s], p)
  {
  }

  lemma InnerUnfolds(ts: seq<Table>, r: (seq<Stmt>, seq<Table>), scope: ScopeId, kids: seq<Stmt>, p: seq<ScopeId>)
    requires p != [] && PlacedOne(ts, Inner(scope, kids), p) && scope > p[0] && Unfolds(ts, r.1, r.0, [scope] + p)
    ensures Unfolds(ts, r.1, [Inner(scope, r.0)], p)
  {
    hide Placed, Argued, Falls;
    AloneIs(r.1, Inner(scope, r.0), p);
  }

  lemma SiteUnfolds(ts: seq<Table>, t: Template, name: string, p: seq<ScopeId>, r: (seq<Stmt>, seq<Table>))
    requires Known(ts, p) && Unfolds(ts + [ParameterTable(t.params, p[0])], r.1, r.0, [|ts|] + p)
    ensures Unfolds(ts, r.1, [Site(name, |t.params|, Some(Copy(|ts|, r.0)))], p)
  {
    hide Placed, Argued, Falls;
    var us := ts + [ParameterTable(t.params, p[0])];
    assert r.1[|ts|] == us[|ts|] == ParameterTable(t.params, p[0]);
    ParametersEmpty(t.params, p[0]);
    AloneIs(r.1, Site(name, |t.params|, Some(Copy(|ts|, r.0))), p);
  }

  lemma {:induction false} SpreadBodyUnfolds(g: Program, body: seq<Code>, p: seq<ScopeId>, ts: seq<Table>, active: set<nat>)
    requires Known(ts, p) && SpreadBody(g, body, p, ts, active).Some?
    ensures Unfolds(ts, SpreadBody(g, body, p, ts, active).value.1, SpreadBody(g, body, p, ts, active).value.0, p)
    decreases Free(g, active), 1
  {
    hide Spread, Placed, Unexpanded, Falls, Place, Argued;
    var (kids, ts1) := Place(body, p[0], ts);
    PlaceIsPlaced(body, p, ts);
    PlaceFalls(body, p[0], ts);
    PlaceEmpty(body, p[0], ts);
    PrefixWider(ts, ts1);
    SpreadUnfolds(g, kids, p, ts1, active);
  }

  /** A module with clear names that unfolds: expanding it meets no error exactly when one pass over the pasted
      text finds no name taken. */
  lemma ErrorFreeExactlyWhenPasted(g: Program, cs: seq<Code>, ts: seq<Table>)
    requires Clear(g, cs) && WellNamed(g, cs) && NamedTables(g, ts) && Sound(ts) && ModuleSpread(g, cs, ts).Some?
    ensures var (r, us) := ModuleSpread(g, cs, ts).value;
      var p := [|ts|, WORLD];
      && Placed(Pruned(us), Paste(r), p)
      && (ModuleCourse(g, cs, ts).Smooth? <==> Populate(Paste(r), p, Pruned(us)).1 == 0)
      && (ModuleCourse(g, cs, ts).Smooth? ==> ModuleCourse(g, cs, ts).stmts == r)
  {
    hide Clear, Enter, SpreadBody, Placed, Argued, Falls, Paste, Lands, Own, InCopies, Fits, Populate, Gained, WellNamed, NamedTables;
    var (r, us) := ModuleSpread(g, cs, ts).value;
    var p, ts0, d := [|ts|, WORLD], ts + [Table(Global, Some(WORLD), map[])], |ts|;
    ModuleMatches(g, cs, ts);
    SpreadBodyUnfolds(g, cs, p, ts0, {});
    assert us[d] == ts0[d] && us[WORLD] == ts0[WORLD];
    WithoutNone(us, p);
    PastePlaced(us, r, p);
    PastePopulates(us, r, p);
    var ls, all := Own(r, d) + InCopies(r, d), Lands(r, d);
    Shuffle(r, d);
    AddedFits(ts0, us, ls);
    FitsEitherWay(us, ls, all);
  }

  lemma AddedFits(ts: seq<Table>, us: seq<Table>, ls: seq<Landing>)
    requires Added(ts, us) && AllHeld(us, ls)
    ensures Fits(us, ls) <==> Fits(ts, ls)
  {
    assert forall i | 0 <= i < |ls| :: Look(us, ls[i].scope, ls[i].name) == Look(ts, ls[i].scope, ls[i].name);
  }

  lemma FitsEitherWay(ts: seq<Table>, a: seq<Landing>, b: seq<Landing>)
    requires multiset(a) == multiset(b)
    ensures Fits(ts, a) <==> Fits(ts, b)
  {
    if Fits(ts, a) { FitsShuffled(ts, a, b); }
    if Fits(ts, b) { FitsShuffled(ts, b, a); }
  }

  // ----- what unfolds -----

  lemma {:induction false} StuckCircles(g: Program, stmts: seq<Stmt>, p: seq<ScopeId>, ts: seq<Table>, active: set<nat>) returns (c: seq<nat>)
    requires p != [] && UniqueNames(g) && (forall t | t in g :: WellUsed(g, g[t].body)) && UsedStmts(g, stmts)
    requires Spread(g, stmts, p, ts, active).None?
    ensures IsChain(g, MentionsIn(stmts), c) && Closes(c, active)
    decreases Free(g, active), 0, stmts, 0
  {
    hide SpreadOne, MentionsInOne, UsedStmt, WellUsed;
    var first := SpreadOne(g, stmts[0], p, ts, active);
    if first.None? {
      c := StuckCirclesOne(g, stmts[0], p, ts, active);
    } else {
      c := StuckCircles(g, stmts[1..], p, first.value.1, active);
    }
  }

  lemma {:induction false} StuckCirclesOne(g: Program, s: Stmt, p: seq<ScopeId>, ts: seq<Table>, active: set<nat>) returns (c: seq<nat>)
    requires p != [] && UniqueNames(g) && (forall t | t in g :: WellUsed(g, g[t].body)) && UsedStmt(g, s)
    requires SpreadOne(g, s, p, ts, active).None?
    ensures IsChain(g, MentionsInOne(s), c) && Closes(c, active)
    decreases Free(g, active), 0, s, 1
  {
    hide Spread, SpreadBody, MentionsIn, UsedStmts, WellUsed;
    match s
    case Inner(scope, kids) => c := StuckCircles(g, kids, [scope] + p, ts, active);
    case Site(name, args, _) =>
      var t := TemplateNamed(g, name).value;
      if t in active {
        c := [t];
      } else {
        assert t in Free(g, active) && Free(g, active + {t}) == Free(g, active) - {t};
        var rest := StuckCirclesBody(g, g[t].body, [|ts|] + p, ts + [ParameterTable(g[t].params, p[0])], active + {t});
        c := [t] + rest;
        ChainLonger(g, MentionsInOne(s), t, rest, active);
      }
  }

  lemma {:induction false} StuckCirclesBody(g: Program, body: seq<Code>, p: seq<ScopeId>, ts: seq<Table>, active: set<nat>) returns (c: seq<nat>)
    requires p != [] && UniqueNames(g) && (forall t | t in g :: WellUsed(g, g[t].body)) && WellUsed(g, body)
    requires SpreadBody(g, body, p, ts, active).None?
    ensures IsChain(g, Mentions(body), c) && Closes(c, active)
    decreases Free(g, active), 1
  {
    hide Spread, MentionsIn, UsedStmts, WellUsed, Place;
    var (kids, ts1) := Place(body, p[0], ts);
    PlaceMentions(body, p[0], ts);
    PlaceUsed(g, body, p[0], ts);
    c := StuckCircles(g, kids, p, ts1, active);
  }

  /** Where every site is well used, a module unfolds unless some site reaches a circle. */
  lemma UnfoldsUnlessCircle(g: Program, cs: seq<Code>, ts: seq<Table>)
    requires Clear(g, cs) && AllWellUsed(g, cs) && Sound(ts) && !ReachesCircle(g, cs)
    ensures ModuleSpread(g, cs, ts).Some?
  {
    hide Clear, SpreadBody, IsChain, Closes, WellUsed;
    ClearModule(g, cs);
    if ModuleSpread(g, cs, ts).None? {
      var c := StuckCirclesBody(g, cs, [|ts|, WORLD], ts + [Table(Global, Some(WORLD), map[])], {});
    }
  }
}
