/** Inputs on which expanding templates is not what one would expect, because copies are populated one by
    one and nothing more is expanded once a name is taken. */
module TakenNames {
  import opened Common
  import opened Scopes
  import opened Programs
  import opened Expansion
  import opened Circles
  import opened ClearNames
  import opened Pasting
  import opened Spreading

  // ----- a circle that is not reported -----

  /** `template T { x:int }` and `template C { expand C }`. */
  const T_AND_C: Program := map[1 := Template("T", [], [Define("x", 3)]), 2 := Template("C", [], [Expand("C", 0)])]

  /** Both, then `expand T expand T expand C`. */
  const T_TWICE_THEN_C := [Define("T", 1), Define("C", 2), Expand("T", 0), Expand("T", 0), Expand("C", 0)]

  const EMPTY_WORLD := [Table(Global, None, map[])]

  const C_SITE := Site("C", 0, None)
  const T_SITE := Site("T", 0, None)
  const ALL_FIVE := [Def("T", 1), Def("C", 2), T_SITE, T_SITE, C_SITE]

  function ModuleTable(symbols: map<string, Symbol>): Table {
    Table(Global, Some(WORLD), symbols)
  }

  const ARGUMENTS := Table(TemplateParameter, Some(1), map[])
  const TEMPLATES_ONLY := map["T" := Definition(1), "C" := Definition(2)]

  /** The module's own names. */
  lemma FivePlaced()
    ensures var ts := EMPTY_WORLD + [ModuleTable(map[])];
      && Place(T_TWICE_THEN_C, 1, ts) == (ALL_FIVE, ts)
      && Populate(ALL_FIVE, [1, WORLD], ts) == (EMPTY_WORLD + [ModuleTable(TEMPLATES_ONLY)], 0)
  {
    hide Place, Populate;
    var ts := EMPTY_WORLD + [ModuleTable(map[])];
    FiveAreNodes(ts);
    FivePopulated(ts);
  }

  lemma FiveAreNodes(ts: seq<Table>)
    ensures Place(T_TWICE_THEN_C, 1, ts) == (ALL_FIVE, ts)
  {
    hide Place;
    var c1, c2, c3, c4 := [Expand("C", 0)], [Expand("T", 0), Expand("C", 0)], [Expand("T", 0), Expand("T", 0), Expand("C", 0)],
      [Define("C", 2), Expand("T", 0), Expand("T", 0), Expand("C", 0)];
    assert [Expand("T", 0)] + c1 == c2 && [Expand("T", 0)] + c2 == c3 && [Define("C", 2)] + c3 == c4;
    assert [Define("T", 1)] + c4 == T_TWICE_THEN_C;
    var s1, s2, s3, s4 := [C_SITE], [T_SITE, C_SITE], [T_SITE, T_SITE, C_SITE], [Def("C", 2), T_SITE, T_SITE, C_SITE];
    assert [T_SITE] + s1 == s2 && [T_SITE] + s2 == s3 && [Def("C", 2)] + s3 == s4 && [Def("T", 1)] + s4 == ALL_FIVE;
    PlaceLast(Expand("C", 0), 1, ts);
    PlaceCons(Expand("T", 0), c1, 1, ts);
    PlaceCons(Expand("T", 0), c2, 1, ts);
    PlaceCons(Define("C", 2), c3, 1, ts);
    PlaceCons(Define("T", 1), c4, 1, ts);
  }

  lemma FivePopulated(ts: seq<Table>)
    requires ts == EMPTY_WORLD + [ModuleTable(map[])]
    ensures Populate(ALL_FIVE, [1, WORLD], ts) == (EMPTY_WORLD + [ModuleTable(TEMPLATES_ONLY)], 0)
  {
    hide Populate;
    var p, ts1, ts2 := [1, WORLD], EMPTY_WORLD + [ModuleTable(map["T" := Definition(1)])], EMPTY_WORLD + [ModuleTable(TEMPLATES_ONLY)];
    var s1, s2, s3, s4 := [C_SITE], [T_SITE, C_SITE], [T_SITE, T_SITE, C_SITE], [Def("C", 2), T_SITE, T_SITE, C_SITE];
    assert [T_SITE] + s1 == s2 && [T_SITE] + s2 == s3 && [Def("C", 2)] + s3 == s4 && [Def("T", 1)] + s4 == ALL_FIVE;
    assert Home(ts, p) == 1 && Home(ts1, p) == 1;
    assert WithSymbol(ts, 1, "T", Definition(1)) == ts1 && WithSymbol(ts1, 1, "C", Definition(2)) == ts2;
    PopulateLast(C_SITE, p, ts2);
    PopulateCons(T_SITE, s1, p, ts2);
    PopulateCons(T_SITE, s2, p, ts2);
    PopulateCons(Def("C", 2), s3, p, ts1);
    PopulateCons(Def("T", 1), s4, p, ts);
  }

  lemma PlaceLast(c: Code, parent: ScopeId, ts: seq<Table>)
    ensures Place([c], parent, ts) == ([PlaceOne(c, parent, ts).0], PlaceOne(c, parent, ts).1)
  {
    assert [c][1..] == [];
    var s := PlaceOne(c, parent, ts).0;
    assert [s] + [] == [s];
  }

  lemma PopulateLast(s: Stmt, p: seq<ScopeId>, ts: seq<Table>)
    ensures Populate([s], p, ts) == PopulateOne(s, p, ts)
  {
    assert [s][1..] == [];
  }

  lemma PlaceCons(c: Code, cs: seq<Code>, parent: ScopeId, ts: seq<Table>)
    ensures var (s, ts1) := PlaceOne(c, parent, ts); var (rest, ts2) := Place(cs, parent, ts1);
      Place([c] + cs, parent, ts) == ([s] + rest, ts2)
  {
    assert ([c] + cs)[1..] == cs;
  }

  lemma PopulateCons(s: Stmt, stmts: seq<Stmt>, p: seq<ScopeId>, ts: seq<Table>)
    ensures var (ts1, n) := PopulateOne(s, p, ts); var (ts2, m) := Populate(stmts, p, ts1);
      Populate([s] + stmts, p, ts) == (ts2, n + m)
  {
    assert ([s] + stmts)[1..] == stmts;
  }

  /** The first copy of `T` defines `x`, the second one finds it taken. */
  lemma CopiesOfT(g: Program, symbols: map<string, Symbol>, ts: seq<Table>, active: set<nat>)
    requires |ts| >= 2 && ts[0] == EMPTY_WORLD[0] && ts[1] == ModuleTable(symbols)
    ensures var q, us := [|ts|, 1, WORLD], ts + [ARGUMENTS];
      Enter(g, [Define("x", 3)], q, us, active)
      == if "x" in symbols then Trouble(SymbolAlreadyDefinedInScope, us, [])
         else Smooth([Def("x", 3)], us[1 := ModuleTable(symbols["x" := Definition(3)])])
  {
    var q, us := [|ts|, 1, WORLD], ts + [ARGUMENTS];
    PlaceLast(Define("x", 3), |ts|, us);
    assert [Def("x", 3)] + [] == [Def("x", 3)];
    assert q == [|ts|] + [1, WORLD] && us[|ts|] == ARGUMENTS && us[1] == ModuleTable(symbols);
    HomeInside(us, |ts|, [1, WORLD]);
    assert Home(us, [1, WORLD]) == 1;
    PopulateLast(Def("x", 3), q, us);
    assert Place([Define("x", 3)], |ts|, us) == ([Def("x", 3)], us);
    if "x" !in symbols {
      var us2 := us[1 := ModuleTable(symbols["x" := Definition(3)])];
      assert Populate([Def("x", 3)], q, us) == (us2, 0);
      WalkCons(g, Def("x", 3), [], q, us2, active);
    } else {
      assert Populate([Def("x", 3)], q, us) == (us, 1);
    }
  }

  /** The second copy of `T` finds `x` taken, so the copy of `C` is not made and its circle is not seen. */
  lemma CircleAfterTakenName()
    ensures var g, cs := T_AND_C, T_TWICE_THEN_C;
      && Clear(g, cs) && AllWellUsed(g, cs) && WellNamed(g, cs) && ReachesCircle(g, cs)
      && ModuleCourse(g, cs, EMPTY_WORLD).Trouble? && ModuleCourse(g, cs, EMPTY_WORLD).error == SymbolAlreadyDefinedInScope
      && !Reports(g, ModuleCourse(g, cs, EMPTY_WORLD))
  {
    var g, cs := T_AND_C, T_TWICE_THEN_C;
    TwiceIsClear();
    TwiceHasCircle();
    TwiceCourse();
  }

  lemma TwiceIsClear()
    ensures Clear(T_AND_C, T_TWICE_THEN_C) && AllWellUsed(T_AND_C, T_TWICE_THEN_C) && WellNamed(T_AND_C, T_TWICE_THEN_C)
  {
    hide ClearTemplates, TemplateNames, UniqueNames;
    var g, cs := T_AND_C, T_TWICE_THEN_C;
    Templates();
    TwiceCode();
    assert Define(g[1].name, 1) in cs && Define(g[2].name, 2) in cs;
    assert NamesTemplates(g, g[1].body) && NamesTemplates(g, g[2].body) && NamesTemplates(g, cs);
    assert WellUsedOne(g, Expand("T", 0)) by { assert 0 == |g[1].params|; }
    assert WellUsedOne(g, Expand("C", 0)) by { assert 0 == |g[2].params|; }
    assert WellUsed(g, g[1].body) && WellUsed(g, g[2].body) && WellUsed(g, cs);
  }

  lemma TwiceCode()
    ensures var cs := T_TWICE_THEN_C;
      |cs| == 5 && cs[0] == Define("T", 1) && cs[1] == Define("C", 2) && cs[2] == cs[3] == Expand("T", 0) && cs[4] == Expand("C", 0)
    ensures T_AND_C[1] == Template("T", [], [Define("x", 3)]) && T_AND_C[2] == Template("C", [], [Expand("C", 0)])
  {
  }

  lemma Templates()
    ensures T_AND_C.Keys == {1, 2} && TemplateNames(T_AND_C) == {"T", "C"} && UniqueNames(T_AND_C) && ClearTemplates(T_AND_C)
  {
    var g := T_AND_C;
    assert g[1].name == "T" && g[2].name == "C" && g[1].name[0] != g[2].name[0];
    assert TemplateNames(g) == {"T", "C"};
    var names := TemplateNames(g);
    assert "x"[0] != "T"[0] && "x"[0] != "C"[0];
    assert g[1].body == [Define("x", 3)] && g[2].body == [Expand("C", 0)];
    assert Avoids(names, g[1].body) && Avoids(names, g[2].body);
  }

  lemma TwiceHasCircle()
    ensures ReachesCircle(T_AND_C, T_TWICE_THEN_C)
  {
    var g, cs, c := T_AND_C, T_TWICE_THEN_C, [2, 2];
    MentionedThere(cs, 4);
    MentionedThere(g[2].body, 0);
    assert c[0] == c[|c| - 1];
    assert IsChain(g, Mentions(cs), c) && Closes(c, {});
  }

  lemma {:induction false} MentionedThere(cs: seq<Code>, i: nat)
    requires i < |cs| && cs[i].Expand?
    ensures cs[i].name in Mentions(cs)
    decreases i
  {
    if i > 0 { MentionedThere(cs[1..], i - 1); }
  }

  lemma WalkCons(g: Program, s: Stmt, stmts: seq<Stmt>, p: seq<ScopeId>, ts: seq<Table>, active: set<nat>)
    requires p != []
    ensures var first := WalkOne(g, s, p, ts, active);
      Walk(g, [s] + stmts, p, ts, active)
      == if first.Trouble? then Trouble(first.error, first.ts, first.pending + Waiting(stmts, p, active))
         else var rest := Walk(g, stmts, p, first.ts, active);
              if rest.Trouble? then rest else Smooth(first.stmts + rest.stmts, rest.ts)
  {
    hide WalkOne;
    assert ([s] + stmts)[1..] == stmts;
  }

  lemma TwiceCourse()
    ensures var c := ModuleCourse(T_AND_C, T_TWICE_THEN_C, EMPTY_WORLD);
      c.Trouble? && c.error == SymbolAlreadyDefinedInScope && c.pending == [Pending([1, WORLD], "C", {})] && !AnyHits(T_AND_C, c.ts, c.pending)
  {
    hide Walk, Populate, Place, AnyHits;
    var ts := EMPTY_WORLD + [ModuleTable(TEMPLATES_ONLY)];
    var gained := TEMPLATES_ONLY["x" := Definition(3)];
    var ts2 := (ts + [ARGUMENTS])[1 := ModuleTable(gained)];
    FivePlaced();
    FiveWalked(ts, ts2);
    OneHit(T_AND_C, ts2 + [ARGUMENTS], Pending([1, WORLD], "C", {}));
    assert Table(Global, Some(WORLD), map[]) == ModuleTable(map[]) && |EMPTY_WORLD| == 1;
  }

  lemma FiveWalked(ts: seq<Table>, ts2: seq<Table>)
    requires ts == EMPTY_WORLD + [ModuleTable(TEMPLATES_ONLY)]
    requires ts2 == (ts + [ARGUMENTS])[1 := ModuleTable(TEMPLATES_ONLY["x" := Definition(3)])]
    ensures Walk(T_AND_C, ALL_FIVE, [1, WORLD], ts, {}) == Trouble(SymbolAlreadyDefinedInScope, ts2 + [ARGUMENTS], [Pending([1, WORLD], "C", {})])
  {
    hide Walk;
    var g, p := T_AND_C, [1, WORLD];
    TSite(g, TEMPLATES_ONLY, ts, {});
    TSite(g, TEMPLATES_ONLY["x" := Definition(3)], ts2, {});
    assert g[1] == Template("T", [], [Define("x", 3)]);
    WaitingForC();
    var s1, s2, s3, s4 := [C_SITE], [T_SITE, C_SITE], [T_SITE, T_SITE, C_SITE], [Def("C", 2), T_SITE, T_SITE, C_SITE];
    assert [T_SITE] + s1 == s2 && [T_SITE] + s2 == s3 && [Def("C", 2)] + s3 == s4 && [Def("T", 1)] + s4 == ALL_FIVE;
    WalkCons(g, T_SITE, s1, p, ts2, {});
    WalkCons(g, T_SITE, s2, p, ts, {});
    WalkCons(g, Def("C", 2), s3, p, ts, {});
    WalkCons(g, Def("T", 1), s4, p, ts, {});
  }

  lemma WaitingForC()
    ensures Waiting([C_SITE], [1, WORLD], {}) == [Pending([1, WORLD], "C", {})]
  {
    assert [C_SITE][1..] == [];
  }

  lemma TSite(g: Program, symbols: map<string, Symbol>, ts: seq<Table>, active: set<nat>)
    requires 1 in g && g[1] == Template("T", [], [Define("x", 3)])
    requires |ts| >= 2 && ts[0] == EMPTY_WORLD[0] && ts[1] == ModuleTable(symbols) && "T" in symbols && symbols["T"] == Definition(1)
    requires active == {}
    ensures WalkOne(g, T_SITE, [1, WORLD], ts, active)
      == if "x" in symbols then Trouble(SymbolAlreadyDefinedInScope, ts + [ARGUMENTS], [])
         else Smooth([Site("T", 0, Some(Copy(|ts|, [Def("x", 3)])))], (ts + [ARGUMENTS])[1 := ModuleTable(symbols["x" := Definition(3)])])
  {
    hide Enter;
    CopiesOfT(g, symbols, ts, active + {1});
    assert [|ts|] + [1, WORLD] == [|ts|, 1, WORLD];
    assert ParameterTable([], 1) == ARGUMENTS;
    assert Resolve(g, ts, [1, WORLD], "T") == ToTemplate(1);
  }

  // ----- whose definition is kept -----

  /** `template T { x:int }`, then `expand T x:int`. */
  const T_ALONE: Program := map[1 := Template("T", [], [Define("x", 3)])]
  const T_THEN_X := [Define("T", 1), Expand("T", 0), Define("x", 4)]

  const WITH_COPY := [Def("T", 1), Site("T", 0, Some(Copy(2, [Def("x", 3)]))), Def("x", 4)]
  const MODULES_X := map["T" := Definition(1), "x" := Definition(4)]
  const COPYS_X := map["T" := Definition(1), "x" := Definition(3)]

  /** The module's own `x` is there before the copy is populated, so that is the one that is kept; pasted in place
      the copy's comes first.  Either way one name is taken. */
  lemma WhoseX()
    ensures var c := ModuleCourse(T_ALONE, T_THEN_X, EMPTY_WORLD);
      c == Trouble(SymbolAlreadyDefinedInScope, EMPTY_WORLD + [ModuleTable(MODULES_X), ARGUMENTS], [])
    ensures ModuleSpread(T_ALONE, T_THEN_X, EMPTY_WORLD) == Some((WITH_COPY, EMPTY_WORLD + [ModuleTable(map[]), ARGUMENTS]))
    ensures var us := Pruned(EMPTY_WORLD + [ModuleTable(map[]), ARGUMENTS]);
      Populate(Paste(WITH_COPY), [1, WORLD], us) == (us[1 := us[1].(symbols := COPYS_X)], 1)
  {
    hide Place, Populate, Walk, Spread, Paste;
    var ts, ts1 := EMPTY_WORLD + [ModuleTable(map[])], EMPTY_WORLD + [ModuleTable(MODULES_X)];
    assert ts + [ARGUMENTS] == EMPTY_WORLD + [ModuleTable(map[]), ARGUMENTS];
    assert ts1 + [ARGUMENTS] == EMPTY_WORLD + [ModuleTable(MODULES_X), ARGUMENTS];
    assert Table(Global, Some(WORLD), map[]) == ModuleTable(map[]) && |EMPTY_WORLD| == 1;
    ThreePlaced();
    ThreeWalked();
    ThreeSpread();
    ThreePasted();
  }

  const THREE := [Def("T", 1), T_SITE, Def("x", 4)]

  lemma ThreePlaced()
    ensures var ts := EMPTY_WORLD + [ModuleTable(map[])];
      && Place(T_THEN_X, 1, ts) == (THREE, ts)
      && Populate(THREE, [1, WORLD], ts) == (EMPTY_WORLD + [ModuleTable(MODULES_X)], 0)
  {
    hide Place, Populate;
    var p, ts, ts1, ts2 := [1, WORLD], EMPTY_WORLD + [ModuleTable(map[])], EMPTY_WORLD + [ModuleTable(map["T" := Definition(1)])],
      EMPTY_WORLD + [ModuleTable(MODULES_X)];
    var c1, c2, s1, s2 := [Define("x", 4)], [Expand("T", 0), Define("x", 4)], [Def("x", 4)], [T_SITE, Def("x", 4)];
    assert [Expand("T", 0)] + c1 == c2 && [Define("T", 1)] + c2 == T_THEN_X && [T_SITE] + s1 == s2 && [Def("T", 1)] + s2 == THREE;
    PlaceLast(Define("x", 4), 1, ts);
    PlaceCons(Expand("T", 0), c1, 1, ts);
    PlaceCons(Define("T", 1), c2, 1, ts);
    assert Home(ts, p) == 1 && Home(ts1, p) == 1;
    assert WithSymbol(ts, 1, "T", Definition(1)) == ts1 && WithSymbol(ts1, 1, "x", Definition(4)) == ts2;
    PopulateLast(Def("x", 4), p, ts1);
    PopulateCons(T_SITE, s1, p, ts1);
    PopulateCons(Def("T", 1), s2, p, ts);
  }

  lemma ThreeWalked()
    ensures var ts := EMPTY_WORLD + [ModuleTable(MODULES_X)];
      Walk(T_ALONE, THREE, [1, WORLD], ts, {}) == Trouble(SymbolAlreadyDefinedInScope, ts + [ARGUMENTS], [])
  {
    hide Walk;
    var g, p, ts := T_ALONE, [1, WORLD], EMPTY_WORLD + [ModuleTable(MODULES_X)];
    var s1, s2 := [Def("x", 4)], [T_SITE, Def("x", 4)];
    assert [T_SITE] + s1 == s2 && [Def("T", 1)] + s2 == THREE && s1[1..] == [];
    TSite(g, MODULES_X, ts, {});
    assert Waiting(s1, p, {}) == [];
    WalkCons(g, T_SITE, s1, p, ts, {});
    WalkCons(g, Def("T", 1), s2, p, ts, {});
  }

  lemma SpreadCons(g: Program, s: Stmt, stmts: seq<Stmt>, p: seq<ScopeId>, ts: seq<Table>, active: set<nat>)
    requires p != []
    ensures var first := SpreadOne(g, s, p, ts, active);
      Spread(g, [s] + stmts, p, ts, active)
      == if first.None? then None
         else var rest := Spread(g, stmts, p, first.value.1, active);
              if rest.None? then None else Some((first.value.0 + rest.value.0, rest.value.1))
  {
    hide SpreadOne;
    assert ([s] + stmts)[1..] == stmts;
  }

  lemma ThreeSpread()
    ensures var ts := EMPTY_WORLD + [ModuleTable(map[])];
      Spread(T_ALONE, THREE, [1, WORLD], ts, {}) == Some((WITH_COPY, ts + [ARGUMENTS]))
  {
    hide Spread, SpreadBody;
    var g, p, ts := T_ALONE, [1, WORLD], EMPTY_WORLD + [ModuleTable(map[])];
    var s1, s2 := [Def("x", 4)], [T_SITE, Def("x", 4)];
    assert [T_SITE] + s1 == s2 && [Def("T", 1)] + s2 == THREE;
    assert g[1].name == "T" && TemplateNamed(g, "T") == Some(1);
    assert ParameterTable([], 1) == ARGUMENTS && [2] + p == [2, 1, WORLD] && g[1] == Template("T", [], [Define("x", 3)]);
    CopyOfTSpread(ts, {} + {1});
    SpreadLast(g, Def("x", 4), p, ts + [ARGUMENTS], {});
    SpreadCons(g, T_SITE, s1, p, ts, {});
    SpreadCons(g, Def("T", 1), s2, p, ts, {});
    assert [Def("T", 1)] + ([Site("T", 0, Some(Copy(2, [Def("x", 3)])))] + [Def("x", 4)]) == WITH_COPY;
  }

  lemma SpreadLast(g: Program, s: Stmt, p: seq<ScopeId>, ts: seq<Table>, active: set<nat>)
    requires p != [] && s.Def?
    ensures Spread(g, [s], p, ts, active) == Some(([s], ts))
  {
    assert [s][1..] == [] && [s] + [] == [s];
  }

  lemma CopyOfTSpread(ts: seq<Table>, active: set<nat>)
    ensures SpreadBody(T_ALONE, [Define("x", 3)], [2, 1, WORLD], ts + [ARGUMENTS], active) == Some(([Def("x", 3)], ts + [ARGUMENTS]))
  {
    hide Spread, Place;
    PlaceLast(Define("x", 3), 2, ts + [ARGUMENTS]);
    SpreadLast(T_ALONE, Def("x", 3), [2, 1, WORLD], ts + [ARGUMENTS], active);
  }

  lemma ThreePasted()
    ensures var us := Pruned(EMPTY_WORLD + [ModuleTable(map[]), ARGUMENTS]);
      Populate(Paste(WITH_COPY), [1, WORLD], us) == (us[1 := us[1].(symbols := COPYS_X)], 1)
  {
    hide Populate, Paste;
    var us, p := Pruned(EMPTY_WORLD + [ModuleTable(map[]), ARGUMENTS]), [1, WORLD];
    var us1, us2 := us[1 := us[1].(symbols := map["T" := Definition(1)])], us[1 := us[1].(symbols := COPYS_X)];
    var s1, s2, pasted := [Def("x", 4)], [Def("x", 3), Def("x", 4)], [Def("T", 1), Def("x", 3), Def("x", 4)];
    assert Home(us, p) == 1 && Home(us1, p) == 1 && Home(us2, p) == 1;
    assert WithSymbol(us, 1, "T", Definition(1)) == us1 && WithSymbol(us1, 1, "x", Definition(3)) == us2;
    assert [Def("x", 3)] + s1 == s2 && [Def("T", 1)] + s2 == pasted;
    ThreeArePasted();
    PopulateLast(Def("x", 4), p, us2);
    PopulateCons(Def("x", 3), s1, p, us1);
    PopulateCons(Def("T", 1), s2, p, us);
  }

  lemma ThreeArePasted()
    ensures Paste(WITH_COPY) == [Def("T", 1), Def("x", 3), Def("x", 4)]
  {
    var kids := [Def("x", 3)];
    assert kids[1..] == [] && Paste(kids) == [Def("x", 3)] + [];
    assert WITH_COPY[1..] == [Site("T", 0, Some(Copy(2, kids))), Def("x", 4)] && WITH_COPY[1..][1..] == [Def("x", 4)] && [Def("x", 4)][1..] == [];
  }
}
