/** Programs in which the names of templates stand for nothing else: every site finds its template,
    and what else can go wrong is a circle or a name that is taken. */
module ClearNames {
  import opened Common
  import opened Scopes
  import opened Programs
  import opened Expansion
  import opened Circles

  function TemplateNames(g: Program): set<string> {
    set t | t in g :: g[t].name
  }

  /** No definition in `cs` has one of these names. */
  predicate Avoids(names: set<string>, cs: seq<Code>) {
    forall i | 0 <= i < |cs| :: AvoidsOne(names, cs[i])
  }

  predicate AvoidsOne(names: set<string>, c: Code) {
    match c
    case Define(name, _) => name !in names
    case Scoped(body) => Avoids(names, body)
    case _ => true
  }

  predicate ClearTemplates(g: Program) {
    && UniqueNames(g)
    && forall t | t in g :: Avoids(TemplateNames(g), g[t].body) && forall n | n in g[t].params :: n !in TemplateNames(g)
  }

  /** The templates are those of the module, defined at its top, and nothing else has their names. */
  predicate Clear(g: Program, cs: seq<Code>) {
    && ClearTemplates(g)
    && (forall i | 0 <= i < |cs| :: AvoidsOne(TemplateNames(g), cs[i]) || (cs[i].Define? && cs[i].id in g && g[cs[i].id].name == cs[i].name))
    && forall t | t in g :: Define(g[t].name, t) in cs
  }

  predicate WellUsed(g: Program, cs: seq<Code>) {
    forall i | 0 <= i < |cs| :: WellUsedOne(g, cs[i])
  }

  predicate WellUsedOne(g: Program, c: Code) {
    match c
    case Scoped(body) => WellUsed(g, body)
    case Expand(name, args) => exists t :: t in g && g[t].name == name && args == |g[t].params|
    case _ => true
  }

  /** Every site, in bodies too, names a template and has as many arguments as that has parameters. */
  predicate AllWellUsed(g: Program, cs: seq<Code>) {
    WellUsed(g, cs) && forall t | t in g :: WellUsed(g, g[t].body)
  }

  // ----- every site finds its template -----

  /** Scope `top` defines the templates, and no later scope has a name of theirs. */
  predicate Open(g: Program, ts: seq<Table>, top: ScopeId) {
    && (forall t | t in g :: Look(ts, top, g[t].name) == Some(Definition(t)))
    && forall s, n | top < s < |ts| && n in ts[s].symbols :: n !in TemplateNames(g)
  }

  /** The chain leads through scopes later than `top` to it. */
  predicate Through(p: seq<ScopeId>, top: ScopeId) {
    p != [] && (p[0] == top || (p[0] > top && Through(p[1..], top)))
  }

  lemma {:induction false} FindsTemplate(g: Program, ts: seq<Table>, p: seq<ScopeId>, top: ScopeId, t: nat)
    requires Open(g, ts, top) && Through(p, top) && Known(ts, p) && t in g
    ensures Resolve(g, ts, p, g[t].name) == ToTemplate(t)
    decreases |p|
  {
    assert Look(ts, top, g[t].name) == Some(Definition(t));
    if p[0] != top {
      assert g[t].name in TemplateNames(g);
      FindsTemplate(g, ts, p[1..], top, t);
    }
  }

  lemma ThroughMore(p: seq<ScopeId>, top: ScopeId, s: ScopeId)
    requires Through(p, top) && top < s
    ensures Through([s] + p, top)
  {
    assert ([s] + p)[1..] == p;
  }

  predicate ClearStmts(names: set<string>, stmts: seq<Stmt>) {
    forall i | 0 <= i < |stmts| :: ClearStmt(names, stmts[i])
  }

  predicate ClearStmt(names: set<string>, s: Stmt) {
    match s
    case Def(name, _) => name !in names
    case Inner(_, kids) => ClearStmts(names, kids)
    case Site(_, _, copy) => copy.Some? ==> ClearStmts(names, copy.value.kids)
    case _ => true
  }

  /** Scopes later than `top` inside the nodes. */
  predicate Above(stmts: seq<Stmt>, top: ScopeId) {
    forall i | 0 <= i < |stmts| :: AboveOne(stmts[i], top)
  }

  predicate AboveOne(s: Stmt, top: ScopeId) {
    match s
    case Inner(scope, kids) => scope > top && Above(kids, top)
    case Site(_, _, copy) => copy.Some? ==> copy.value.scope > top && Above(copy.value.kids, top)
    case _ => true
  }

  predicate UsedStmts(g: Program, stmts: seq<Stmt>) {
    forall i | 0 <= i < |stmts| :: UsedStmt(g, stmts[i])
  }

  predicate UsedStmt(g: Program, s: Stmt) {
    match s
    case Inner(_, kids) => UsedStmts(g, kids)
    case Site(name, args, _) => exists t :: t in g && g[t].name == name && args == |g[t].params|
    case _ => true
  }

  /** What placing text in an open world gives. */
  lemma {:induction false} PlaceOpen(g: Program, cs: seq<Code>, parent: ScopeId, ts: seq<Table>, top: ScopeId)
    requires top < |ts|
    ensures var (stmts, us) := Place(cs, parent, ts);
      (Open(g, ts, top) ==> Open(g, us, top)) && Above(stmts, top)
    decreases cs, 0
  {
    hide PlaceOne, Open, AboveOne;
    if cs != [] {
      PlaceOneOpen(g, cs[0], parent, ts, top);
      PlaceOpen(g, cs[1..], parent, PlaceOne(cs[0], parent, ts).1, top);
    }
  }

  lemma {:induction false} PlaceOneOpen(g: Program, c: Code, parent: ScopeId, ts: seq<Table>, top: ScopeId)
    requires top < |ts|
    ensures var (s, us) := PlaceOne(c, parent, ts);
      (Open(g, ts, top) ==> Open(g, us, top)) && AboveOne(s, top)
    decreases c, 1
  {
    hide Open, Above, Place;
    match c
    case Scoped(body) =>
      if Open(g, ts, top) { OpenMore(g, ts, Table(Local, Some(parent), map[]), top); }
      PlaceOpen(g, body, |ts|, ts + [Table(Local, Some(parent), map[])], top);
    case _ =>
  }

  lemma {:induction false} PlaceUsed(g: Program, cs: seq<Code>, parent: ScopeId, ts: seq<Table>)
    requires WellUsed(g, cs)
    ensures UsedStmts(g, Place(cs, parent, ts).0)
    decreases cs, 0
  {
    hide PlaceOne, UsedStmt, WellUsedOne;
    if cs != [] {
      PlaceOneUsed(g, cs[0], parent, ts);
      PlaceUsed(g, cs[1..], parent, PlaceOne(cs[0], parent, ts).1);
    }
  }

  lemma {:induction false} PlaceOneUsed(g: Program, c: Code, parent: ScopeId, ts: seq<Table>)
    requires WellUsedOne(g, c)
    ensures UsedStmt(g, PlaceOne(c, parent, ts).0)
    decreases c, 1
  {
    match c
    case Scoped(body) => PlaceUsed(g, body, |ts|, ts + [Table(Local, Some(parent), map[])]);
    case _ =>
  }

  lemma {:induction false} AvoidsPlaced(g: Program, c: Code, parent: ScopeId, ts: seq<Table>)
    requires AvoidsOne(TemplateNames(g), c)
    ensures ClearStmt(TemplateNames(g), PlaceOne(c, parent, ts).0)
    decreases c, 1
  {
    hide TemplateNames;
    match c
    case Scoped(body) => AllAvoidPlaced(g, body, |ts|, ts + [Table(Local, Some(parent), map[])]);
    case _ =>
  }

  lemma {:induction false} AllAvoidPlaced(g: Program, cs: seq<Code>, parent: ScopeId, ts: seq<Table>)
    requires Avoids(TemplateNames(g), cs)
    ensures ClearStmts(TemplateNames(g), Place(cs, parent, ts).0)
    decreases cs, 0
  {
    hide TemplateNames, PlaceOne, AvoidsOne, ClearStmt;
    if cs != [] {
      AvoidsPlaced(g, cs[0], parent, ts);
      AllAvoidPlaced(g, cs[1..], parent, PlaceOne(cs[0], parent, ts).1);
    }
  }

  lemma OpenMore(g: Program, ts: seq<Table>, t: Table, top: ScopeId)
    requires Open(g, ts, top) && top < |ts| && forall n | n in t.symbols :: n !in TemplateNames(g)
    ensures Open(g, ts + [t], top)
  {
  }

  lemma {:induction false} PopulateOpen(g: Program, stmts: seq<Stmt>, p: seq<ScopeId>, ts: seq<Table>, top: ScopeId)
    requires Open(g, ts, top) && ClearStmts(TemplateNames(g), stmts)
    ensures Open(g, Populate(stmts, p, ts).0, top)
    decreases stmts, 0
  {
    hide PopulateOne, Open, ClearStmt;
    if stmts != [] {
      PopulateOneOpen(g, stmts[0], p, ts, top);
      PopulateOpen(g, stmts[1..], p, PopulateOne(stmts[0], p, ts).0, top);
    }
  }

  lemma {:induction false} PopulateOneOpen(g: Program, s: Stmt, p: seq<ScopeId>, ts: seq<Table>, top: ScopeId)
    requires Open(g, ts, top) && ClearStmt(TemplateNames(g), s)
    ensures Open(g, PopulateOne(s, p, ts).0, top)
    decreases s, 1
  {
    hide Home, Populate;
    match s
    case Def(name, id) => assert forall t | t in g :: g[t].name in TemplateNames(g);
    case Inner(scope, kids) => PopulateOpen(g, kids, [scope] + p, ts, top);
    case Site(_, _, copy) => if copy.Some? { PopulateOpen(g, copy.value.kids, [copy.value.scope] + p, ts, top); }
    case _ =>
  }

  /** What is entered in an open world. */
  lemma EnterOpen(g: Program, t: nat, p: seq<ScopeId>, ts: seq<Table>, top: ScopeId)
    requires t in g && ClearTemplates(g) && Open(g, ts, top) && Through(p, top) && Known(ts, p) && top < |ts|
    ensures var us := ts + [ParameterTable(g[t].params, p[0])];
      var (kids, ts1) := Place(g[t].body, |ts|, us);
      && Open(g, us, top) && Open(g, ts1, top) && Open(g, Populate(kids, [|ts|] + p, ts1).0, top) && Above(kids, top)
      && ClearStmts(TemplateNames(g), kids) && (WellUsed(g, g[t].body) ==> UsedStmts(g, kids)) && Through([|ts|] + p, top)
  {
    hide Open, Avoids, ClearStmts, Above, UsedStmts, WellUsed;
    OpenMore(g, ts, ParameterTable(g[t].params, p[0]), top);
    var us := ts + [ParameterTable(g[t].params, p[0])];
    PlaceOpen(g, g[t].body, |ts|, us, top);
    AllAvoidPlaced(g, g[t].body, |ts|, us);
    if WellUsed(g, g[t].body) { PlaceUsed(g, g[t].body, |ts|, us); }
    var (kids, ts1) := Place(g[t].body, |ts|, us);
    PopulateOpen(g, kids, [|ts|] + p, ts1, top);
    ThroughMore(p, top, |ts|);
  }

  /** In an open world expansion keeps it open. */
  lemma {:induction false} WalkOpen(g: Program, stmts: seq<Stmt>, p: seq<ScopeId>, ts: seq<Table>, active: set<nat>, top: ScopeId)
    requires ClearTemplates(g) && Open(g, ts, top) && Through(p, top) && Known(ts, p) && top < |ts| && Placed(ts, stmts, p) && Above(stmts, top)
    ensures Open(g, Walk(g, stmts, p, ts, active).ts, top)
    ensures var c := Walk(g, stmts, p, ts, active);
      c.Trouble? && UsedStmts(g, stmts) && (forall t | t in g :: WellUsed(g, g[t].body)) ==>
        c.error == CircularTemplateReference || c.error == SymbolAlreadyDefinedInScope
    decreases Free(g, active), 0, stmts, 0
  {
    hide WalkOne, Open, PlacedOne, AboveOne, WellUsed, UsedStmt, Through;
    if stmts != [] {
      WalkOneOpen(g, stmts[0], p, ts, active, top);
      var c := WalkOne(g, stmts[0], p, ts, active);
      if c.Smooth? {
        WalkOneWider(g, stmts[0], p, ts, active);
        StaysPlaced(ts, c.ts, stmts[1..], p);
        WalkOpen(g, stmts[1..], p, c.ts, active, top);
      }
    }
  }

  lemma {:induction false} WalkOneOpen(g: Program, s: Stmt, p: seq<ScopeId>, ts: seq<Table>, active: set<nat>, top: ScopeId)
    requires ClearTemplates(g) && Open(g, ts, top) && Through(p, top) && Known(ts, p) && top < |ts| && PlacedOne(ts, s, p) && AboveOne(s, top)
    ensures Open(g, WalkOne(g, s, p, ts, active).ts, top)
    ensures var c := WalkOne(g, s, p, ts, active);
      c.Trouble? && UsedStmt(g, s) && (forall t | t in g :: WellUsed(g, g[t].body)) ==>
        c.error == CircularTemplateReference || c.error == SymbolAlreadyDefinedInScope
    decreases Free(g, active), 0, s, 1
  {
    hide Walk, Open, Placed, Above, WellUsed, Through, Resolve, Enter, ClearTemplates;
    match s
    case Inner(scope, kids) =>
      ThroughMore(p, top, scope);
      WalkOpen(g, kids, [scope] + p, ts, active, top);
    case Site(name, args, copy) =>
      if t :| t in g && g[t].name == name && args == |g[t].params| { FindsTemplate(g, ts, p, top, t); }
      var r := Resolve(g, ts, p, name);
      if copy.None? && r.ToTemplate? && r.t !in active && args == |g[r.t].params| {
        assert r.t in Free(g, active) && Free(g, active + {r.t}) == Free(g, active) - {r.t};
        SiteOpen(g, r.t, p, ts, active + {r.t}, top);
      }
    case _ =>
  }

  lemma {:induction false} SiteOpen(g: Program, t: nat, p: seq<ScopeId>, ts: seq<Table>, active: set<nat>, top: ScopeId)
    requires t in g && ClearTemplates(g) && Open(g, ts, top) && Through(p, top) && Known(ts, p) && top < |ts|
    ensures var c := Enter(g, g[t].body, [|ts|] + p, ts + [ParameterTable(g[t].params, p[0])], active);
      && Open(g, c.ts, top)
      && (c.Trouble? && (forall t | t in g :: WellUsed(g, g[t].body)) ==>
            c.error == CircularTemplateReference || c.error == SymbolAlreadyDefinedInScope)
    decreases Free(g, active), 1
  {
    hide Walk, Open, Placed, Above, WellUsed, Through, ClearTemplates, Place, Populate, UsedStmts, ClearStmts;
    var us := ts + [ParameterTable(g[t].params, p[0])];
    EnterOpen(g, t, p, ts, top);
    ParametersPlaced(g, t, p, ts);
    PlaceIsPlaced(g[t].body, [|ts|] + p, us);
    var (kids, ts1) := Place(g[t].body, |ts|, us);
    PopulateWider(kids, [|ts|] + p, ts1);
    StaysPlaced(ts1, Populate(kids, [|ts|] + p, ts1).0, kids, [|ts|] + p);
    WalkOpen(g, kids, [|ts|] + p, Populate(kids, [|ts|] + p, ts1).0, active, top);
  }

  // ----- a module -----

  /** New scopes are empty. */
  lemma {:induction false} PlaceEmpty(cs: seq<Code>, parent: ScopeId, ts: seq<Table>)
    ensures forall s | |ts| <= s < |Place(cs, parent, ts).1| :: Place(cs, parent, ts).1[s].symbols == map[]
    decreases cs, 0
  {
    hide PlaceOne;
    if cs != [] {
      PlaceOneEmpty(cs[0], parent, ts);
      PlaceEmpty(cs[1..], parent, PlaceOne(cs[0], parent, ts).1);
    }
  }

  lemma {:induction false} PlaceOneEmpty(c: Code, parent: ScopeId, ts: seq<Table>)
    ensures forall s | |ts| <= s < |PlaceOne(c, parent, ts).1| :: PlaceOne(c, parent, ts).1[s].symbols == map[]
    decreases c, 1
  {
    match c
    case Scoped(body) => PlaceEmpty(body, |ts|, ts + [Table(Local, Some(parent), map[])]);
    case _ =>
  }

  /** A definition in a list lands in the scope around. */
  lemma {:induction false} DefinitionLands(cs: seq<Code>, parent: ScopeId, ts: seq<Table>, d: ScopeId, c: Code)
    requires c in cs && c.Define?
    ensures Landing(d, c.name, c.id) in Lands(Place(cs, parent, ts).0, d)
    decreases cs
  {
    var (s, ts1) := PlaceOne(cs[0], parent, ts);
    var rest := Place(cs[1..], parent, ts1).0;
    assert ([s] + rest)[1..] == rest;
    if c != cs[0] {
      DefinitionLands(cs[1..], parent, ts1, d, c);
    } else {
      assert LandsOne(s, d)[0] == Landing(d, c.name, c.id);
    }
  }

  lemma {:induction false} ClearLands(names: set<string>, stmts: seq<Stmt>, d: ScopeId, l: Landing)
    requires ClearStmts(names, stmts) && l in Lands(stmts, d)
    ensures l.name !in names
    decreases stmts, 0
  {
    hide LandsOne, ClearStmt;
    if l in LandsOne(stmts[0], d) {
      ClearLandsOne(names, stmts[0], d, l);
    } else {
      ClearLands(names, stmts[1..], d, l);
    }
  }

  lemma {:induction false} ClearLandsOne(names: set<string>, s: Stmt, d: ScopeId, l: Landing)
    requires ClearStmt(names, s) && l in LandsOne(s, d)
    ensures l.name !in names
    decreases s, 1
  {
    match s
    case Inner(scope, kids) => ClearLands(names, kids, scope, l);
    case Site(_, _, copy) => if copy.Some? { ClearLands(names, copy.value.kids, d, l); }
    case _ =>
  }

  /** Only the module's own scope gets names of templates. */
  lemma {:induction false} NamesLandOnTop(g: Program, cs: seq<Code>, parent: ScopeId, ts: seq<Table>, d: ScopeId, l: Landing)
    requires forall i | 0 <= i < |cs| :: AvoidsOne(TemplateNames(g), cs[i]) || cs[i].Define?
    requires l in Lands(Place(cs, parent, ts).0, d) && l.name in TemplateNames(g)
    ensures l.scope == d
    decreases cs
  {
    hide TemplateNames, AvoidsOne, ClearStmt;
    var (s, ts1) := PlaceOne(cs[0], parent, ts);
    var rest := Place(cs[1..], parent, ts1).0;
    assert ([s] + rest)[1..] == rest;
    if l in LandsOne(s, d) {
      if !cs[0].Define? {
        AvoidsPlaced(g, cs[0], parent, ts);
        ClearLandsOne(TemplateNames(g), s, d, l);
      }
    } else {
      NamesLandOnTop(g, cs[1..], parent, ts1, d, l);
    }
  }

  /** The tables of a module before and after its own names are defined. */
  lemma ModuleSettles(cs: seq<Code>, ts: seq<Table>)
    requires Sound(ts)
    ensures var p := [|ts|, WORLD];
      var (stmts, us) := Place(cs, |ts|, ts + [Table(Global, Some(WORLD), map[])]);
      && Placed(us, stmts, p) && Unexpanded(stmts) && Known(us, p) && Home(us, p) == |ts|
      && Populate(stmts, p, us) == Settle(us, Lands(stmts, |ts|))
      && forall s | |ts| <= s < |us| :: us[s].symbols == map[]
  {
    var vs := ts + [Table(Global, Some(WORLD), map[])];
    var p := [|ts|, WORLD];
    PlaceIsPlaced(cs, p, vs);
    PlaceEmpty(cs, |ts|, vs);
    var (stmts, us) := Place(cs, |ts|, vs);
    PopulateSettles(stmts, p, us);
  }

  /** A module whose own names are defined without conflict is open. */
  lemma ModuleOpens(g: Program, cs: seq<Code>, ts: seq<Table>)
    requires Clear(g, cs) && Sound(ts)
    ensures var top, p := |ts|, [|ts|, WORLD];
      var (stmts, us) := Place(cs, top, ts + [Table(Global, Some(WORLD), map[])]);
      var (vs, taken) := Populate(stmts, p, us);
      && Through(p, top) && Above(stmts, top)
      && (taken == 0 ==> Open(g, vs, top))
  {
    hide Place, Populate, Settle, Lands, AvoidsOne, Above, Placed, Unexpanded, ClearTemplates, Open, Home;
    var top, p, ts0 := |ts|, [|ts|, WORLD], ts + [Table(Global, Some(WORLD), map[])];
    var (stmts, us) := Place(cs, top, ts0);
    PlaceOpen(g, cs, top, ts0, top);
    ModuleSettles(cs, ts);
    var ls := Lands(stmts, top);
    var (vs, taken) := Populate(stmts, p, us);
    LandsKnown(us, stmts, p, top);
    SettleExactly(us, ls);
    SettleWider(us, ls);
    if taken == 0 {
      forall t | t in g ensures Look(vs, top, g[t].name) == Some(Definition(t)) {
        DefinitionLands(cs, top, ts0, top, Define(g[t].name, t));
        OnlyId(us, ls, Landing(top, g[t].name, t));
      }
      forall s, n | top < s < |vs| && n in vs[s].symbols ensures n !in TemplateNames(g) {
        assert Look(vs, s, n).Some?;
        IdOfFinds(ls, s, n);
        var i :| 0 <= i < |ls| && ls[i].scope == s && ls[i].name == n;
        if n in TemplateNames(g) { NamesLandOnTop(g, cs, top, ts0, top, ls[i]); }
      }
      IsOpen(g, vs, top);
    }
  }

  lemma IsOpen(g: Program, ts: seq<Table>, top: ScopeId)
    requires forall t | t in g :: Look(ts, top, g[t].name) == Some(Definition(t))
    requires forall s, n | top < s < |ts| && n in ts[s].symbols :: n !in TemplateNames(g)
    ensures Open(g, ts, top)
  {
  }

  // ----- which circles are reported -----

  /** With clear names and sites well used, only a circle or a name that is taken can go wrong first. */
  lemma OnlyCirclesOrTakenNames(g: Program, cs: seq<Code>, ts: seq<Table>)
    requires Clear(g, cs) && AllWellUsed(g, cs) && Sound(ts)
    ensures var c := ModuleCourse(g, cs, ts);
      c.Trouble? ==> c.error == CircularTemplateReference || c.error == SymbolAlreadyDefinedInScope
  {
    hide Walk, Place, Populate, Clear, Open, Above, WellUsed, UsedStmts, Through, Home;
    var top, p, ts0 := |ts|, [|ts|, WORLD], ts + [Table(Global, Some(WORLD), map[])];
    ModuleOpens(g, cs, ts);
    ModuleSettles(cs, ts);
    PlaceOpen(g, cs, top, ts0, top);
    var (stmts, us) := Place(cs, top, ts0);
    var (vs, taken) := Populate(stmts, p, us);
    PopulateWider(stmts, p, us);
    StaysPlaced(us, vs, stmts, p);
    if taken == 0 {
      ClearModule(g, cs);
      PlaceUsed(g, cs, top, ts0);
      WalkOpen(g, stmts, p, vs, {}, top);
    }
  }

  lemma ClearModule(g: Program, cs: seq<Code>)
    requires Clear(g, cs)
    ensures ClearTemplates(g) && UniqueNames(g)
  {
  }

  /** A circle that is there is reported exactly unless the first thing that goes wrong is a name that is
      taken and no site that was still to come then hits a template being expanded. */
  lemma CircleReportedExactly(g: Program, cs: seq<Code>, ts: seq<Table>)
    requires WellNamed(g, cs) && NamedTables(g, ts) && Clear(g, cs) && AllWellUsed(g, cs) && Sound(ts)
    ensures var c := ModuleCourse(g, cs, ts);
      Reports(g, c) <==> ReachesCircle(g, cs) && !(c.Trouble? && c.error == SymbolAlreadyDefinedInScope && !AnyHits(g, c.ts, c.pending))
  {
    hide Enter, ReachesCircle, Clear, AnyHits, WellNamed, NamedTables, AllWellUsed;
    ClearModule(g, cs);
    OnlyCirclesOrTakenNames(g, cs, ts);
    if Reports(g, ModuleCourse(g, cs, ts)) { ReportedCircleIsReal(g, cs, ts); }
    if ReachesCircle(g, cs) { CircleGoesWrong(g, cs, ts); }
  }
}
