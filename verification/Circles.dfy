/** Circles among templates, and when expansion reports one: never without one, and always unless
    something else goes wrong first. */
module Circles {
  import opened Common
  import opened Scopes
  import opened Programs
  import opened Expansion

  // ----- the graph of templates -----

  /** The names of the templates expanded somewhere in `cs`. */
  function Mentions(cs: seq<Code>): set<string> {
    if cs == [] then {} else MentionsOne(cs[0]) + Mentions(cs[1..])
  }

  function MentionsOne(c: Code): set<string> {
    match c
    case Scoped(body) => Mentions(body)
    case Expand(name, _) => {name}
    case _ => {}
  }

  /** Templates, the first mentioned in `from`, each next one in the body of the one before. */
  predicate IsChain(g: Program, from: set<string>, c: seq<nat>) {
    && c != [] && (forall i | 0 <= i < |c| :: c[i] in g) && g[c[0]].name in from
    && forall i | 0 <= i < |c| - 1 :: g[c[i + 1]].name in Mentions(g[c[i]].body)
  }

  /** The chain comes back to a template it has been through, or to one of `active`. */
  predicate Closes(c: seq<nat>, active: set<nat>) {
    c != [] && (c[|c| - 1] in active || exists i :: 0 <= i < |c| - 1 && c[i] == c[|c| - 1])
  }

  ghost predicate ReachesCircle(g: Program, cs: seq<Code>) {
    exists c :: IsChain(g, Mentions(cs), c) && Closes(c, {})
  }

  // ----- templates and the names that stand for them -----

  /** A definition of a template defines its name. */
  predicate NamesTemplates(g: Program, cs: seq<Code>) {
    forall i | 0 <= i < |cs| :: NamesTemplate(g, cs[i])
  }

  predicate NamesTemplate(g: Program, c: Code) {
    match c
    case Define(name, id) => id in g ==> g[id].name == name
    case Scoped(body) => NamesTemplates(g, body)
    case _ => true
  }

  predicate WellNamed(g: Program, cs: seq<Code>) {
    NamesTemplates(g, cs) && forall t | t in g :: NamesTemplates(g, g[t].body)
  }

  predicate NamedStmts(g: Program, stmts: seq<Stmt>) {
    forall i | 0 <= i < |stmts| :: NamedStmt(g, stmts[i])
  }

  predicate NamedStmt(g: Program, s: Stmt) {
    match s
    case Def(name, id) => id in g ==> g[id].name == name
    case Inner(_, kids) => NamedStmts(g, kids)
    case Site(_, _, copy) => copy.Some? ==> NamedStmts(g, copy.value.kids)
    case _ => true
  }

  predicate NamedTables(g: Program, ts: seq<Table>) {
    forall s, n | 0 <= s < |ts| && n in ts[s].symbols && ts[s].symbols[n].Definition? && ts[s].symbols[n].id in g ::
      g[ts[s].symbols[n].id].name == n
  }

  predicate UniqueNames(g: Program) {
    forall t, u | t in g && u in g && g[t].name == g[u].name :: t == u
  }

  lemma {:induction false} PlaceNamed(g: Program, cs: seq<Code>, parent: ScopeId, ts: seq<Table>)
    requires NamesTemplates(g, cs) && NamedTables(g, ts)
    ensures NamedStmts(g, Place(cs, parent, ts).0) && NamedTables(g, Place(cs, parent, ts).1)
    decreases cs, 0
  {
    hide PlaceOne, NamedTables, NamesTemplate, NamedStmt;
    if cs != [] {
      PlaceOneNamed(g, cs[0], parent, ts);
      PlaceNamed(g, cs[1..], parent, PlaceOne(cs[0], parent, ts).1);
    }
  }

  lemma {:induction false} PlaceOneNamed(g: Program, c: Code, parent: ScopeId, ts: seq<Table>)
    requires NamesTemplate(g, c) && NamedTables(g, ts)
    ensures NamedStmt(g, PlaceOne(c, parent, ts).0) && NamedTables(g, PlaceOne(c, parent, ts).1)
    decreases c, 1
  {
    match c
    case Scoped(body) => PlaceNamed(g, body, |ts|, ts + [Table(Local, Some(parent), map[])]);
    case _ =>
  }

  lemma {:induction false} PopulateNamed(g: Program, stmts: seq<Stmt>, p: seq<ScopeId>, ts: seq<Table>)
    requires NamedStmts(g, stmts) && NamedTables(g, ts)
    ensures NamedTables(g, Populate(stmts, p, ts).0)
    decreases stmts, 0
  {
    hide PopulateOne, NamedTables, NamedStmt;
    if stmts != [] {
      PopulateOneNamed(g, stmts[0], p, ts);
      PopulateNamed(g, stmts[1..], p, PopulateOne(stmts[0], p, ts).0);
    }
  }

  lemma {:induction false} PopulateOneNamed(g: Program, s: Stmt, p: seq<ScopeId>, ts: seq<Table>)
    requires NamedStmt(g, s) && NamedTables(g, ts)
    ensures NamedTables(g, PopulateOne(s, p, ts).0)
    decreases s, 1
  {
    hide Home, Populate;
    match s
    case Inner(scope, kids) => PopulateNamed(g, kids, [scope] + p, ts);
    case Site(_, _, copy) => if copy.Some? { PopulateNamed(g, copy.value.kids, [copy.value.scope] + p, ts); }
    case _ =>
  }

  /** What is entered: the copy, with its names defined. */
  lemma EnterNamed(g: Program, body: seq<Code>, p: seq<ScopeId>, ts: seq<Table>)
    requires p != [] && NamesTemplates(g, body) && NamedTables(g, ts)
    ensures var (kids, ts1) := Place(body, p[0], ts);
      NamedStmts(g, kids) && NamedTables(g, Populate(kids, p, ts1).0)
  {
    PlaceNamed(g, body, p[0], ts);
    var (kids, ts1) := Place(body, p[0], ts);
    PopulateNamed(g, kids, p, ts1);
  }

  lemma ParametersNamed(g: Program, ts: seq<Table>, params: seq<string>, parent: ScopeId)
    requires NamedTables(g, ts)
    ensures NamedTables(g, ts + [ParameterTable(params, parent)])
  {
  }

  lemma {:induction false} WalkNamed(g: Program, stmts: seq<Stmt>, p: seq<ScopeId>, ts: seq<Table>, active: set<nat>)
    requires p != [] && (forall t | t in g :: NamesTemplates(g, g[t].body)) && NamedTables(g, ts)
    ensures NamedTables(g, Walk(g, stmts, p, ts, active).ts)
    decreases Free(g, active), 0, stmts, 0
  {
    hide WalkOne, NamedTables, NamesTemplates;
    if stmts != [] {
      WalkOneNamed(g, stmts[0], p, ts, active);
      var c := WalkOne(g, stmts[0], p, ts, active);
      if c.Smooth? { WalkNamed(g, stmts[1..], p, c.ts, active); }
    }
  }

  lemma {:induction false} WalkOneNamed(g: Program, s: Stmt, p: seq<ScopeId>, ts: seq<Table>, active: set<nat>)
    requires p != [] && (forall t | t in g :: NamesTemplates(g, g[t].body)) && NamedTables(g, ts)
    ensures NamedTables(g, WalkOne(g, s, p, ts, active).ts)
    decreases Free(g, active), 0, s, 1
  {
    hide Walk, NamedTables, NamesTemplates, Resolve, Populate, Place;
    match s
    case Inner(scope, kids) => WalkNamed(g, kids, [scope] + p, ts, active);
    case Site(name, args, copy) =>
      var r := Resolve(g, ts, p, name);
      if copy.None? && r.ToTemplate? && r.t !in active && args == |g[r.t].params| {
        var us := ts + [ParameterTable(g[r.t].params, p[0])];
        assert r.t in Free(g, active) && Free(g, active + {r.t}) == Free(g, active) - {r.t};
        ParametersNamed(g, ts, g[r.t].params, p[0]);
        EnterNamed(g, g[r.t].body, [|ts|] + p, us);
        var (kids, ts1) := Place(g[r.t].body, |ts|, us);
        WalkNamed(g, kids, [|ts|] + p, Populate(kids, [|ts|] + p, ts1).0, active + {r.t});
      }
    case _ =>
  }

  /** What a name resolves to has that name. */
  lemma {:induction false} ResolvesByName(g: Program, ts: seq<Table>, p: seq<ScopeId>, name: string)
    requires NamedTables(g, ts)
    ensures Resolve(g, ts, p, name).ToTemplate? ==> g[Resolve(g, ts, p, name).t].name == name
    decreases p
  {
    if p != [] && p[0] < |ts| && name !in ts[p[0]].symbols {
      ResolvesByName(g, ts, p[1..], name);
    }
  }

  // ----- names in nodes -----

  /** The names of the sites that have not been expanded. */
  function MentionsIn(stmts: seq<Stmt>): set<string> {
    if stmts == [] then {} else MentionsInOne(stmts[0]) + MentionsIn(stmts[1..])
  }

  function MentionsInOne(s: Stmt): set<string> {
    match s
    case Inner(_, kids) => MentionsIn(kids)
    case Site(name, _, copy) => if copy.None? then {name} else {}
    case _ => {}
  }

  lemma {:induction false} PlaceMentions(cs: seq<Code>, parent: ScopeId, ts: seq<Table>)
    ensures MentionsIn(Place(cs, parent, ts).0) == Mentions(cs)
    decreases cs, 0
  {
    hide PlaceOne, MentionsInOne, MentionsOne;
    if cs != [] {
      var (s, ts1) := PlaceOne(cs[0], parent, ts);
      var rest := Place(cs[1..], parent, ts1).0;
      PlaceOneMentions(cs[0], parent, ts);
      PlaceMentions(cs[1..], parent, ts1);
      assert ([s] + rest)[1..] == rest;
    }
  }

  lemma {:induction false} PlaceOneMentions(c: Code, parent: ScopeId, ts: seq<Table>)
    ensures MentionsInOne(PlaceOne(c, parent, ts).0) == MentionsOne(c)
    decreases c, 1
  {
    match c
    case Scoped(body) => PlaceMentions(body, |ts|, ts + [Table(Local, Some(parent), map[])]);
    case _ =>
  }

  // ----- a reported circle is one -----

  /** The course ends in a reported circle. */
  ghost predicate Reports(g: Program, c: Course) {
    c.Trouble? && (c.error == CircularTemplateReference || AnyHits(g, c.ts, c.pending))
  }

  lemma {:induction false} WaitingMentions(stmts: seq<Stmt>, p: seq<ScopeId>, active: set<nat>, i: nat)
    requires i < |Waiting(stmts, p, active)|
    ensures var w := Waiting(stmts, p, active)[i]; w.name in MentionsIn(stmts) && w.active == active
    decreases stmts, 0
  {
    hide WaitingOne, MentionsInOne;
    var n := |WaitingOne(stmts[0], p, active)|;
    if i < n {
      WaitingOneMentions(stmts[0], p, active, i);
    } else {
      WaitingMentions(stmts[1..], p, active, i - n);
    }
  }

  lemma {:induction false} WaitingOneMentions(s: Stmt, p: seq<ScopeId>, active: set<nat>, i: nat)
    requires i < |WaitingOne(s, p, active)|
    ensures var w := WaitingOne(s, p, active)[i]; w.name in MentionsInOne(s) && w.active == active
    decreases s, 1
  {
    match s
    case Inner(scope, kids) => WaitingMentions(kids, [scope] + p, active, i);
    case _ =>
  }

  lemma {:induction false} ReportsReal(g: Program, stmts: seq<Stmt>, p: seq<ScopeId>, ts: seq<Table>, active: set<nat>) returns (c: seq<nat>)
    requires p != [] && (forall t | t in g :: NamesTemplates(g, g[t].body)) && NamedTables(g, ts)
    requires Reports(g, Walk(g, stmts, p, ts, active))
    ensures IsChain(g, MentionsIn(stmts), c) && Closes(c, active)
    decreases Free(g, active), 0, stmts, 0
  {
    hide WalkOne, NamedTables, NamesTemplates, MentionsInOne, Hits;
    var whole := Walk(g, stmts, p, ts, active);
    var first := WalkOne(g, stmts[0], p, ts, active);
    WalkOneNamed(g, stmts[0], p, ts, active);
    if first.Smooth? {
      c := ReportsReal(g, stmts[1..], p, first.ts, active);
    } else if Reports(g, first) {
      c := ReportsRealOne(g, stmts[0], p, ts, active);
    } else {
      var rest := Waiting(stmts[1..], p, active);
      HitsAppend(g, whole.ts, first.pending, rest);
      var j :| 0 <= j < |rest| && Hits(g, whole.ts, rest[j]);
      WaitingMentions(stmts[1..], p, active, j);
      c := HitChain(g, whole.ts, rest[j], MentionsIn(stmts));
    }
  }

  lemma HitChain(g: Program, ts: seq<Table>, w: Pending, from: set<string>) returns (c: seq<nat>)
    requires NamedTables(g, ts) && Hits(g, ts, w) && w.name in from
    ensures IsChain(g, from, c) && Closes(c, w.active)
  {
    ResolvesByName(g, ts, w.p, w.name);
    c := [Resolve(g, ts, w.p, w.name).t];
  }

  lemma {:induction false} ReportsRealOne(g: Program, s: Stmt, p: seq<ScopeId>, ts: seq<Table>, active: set<nat>) returns (c: seq<nat>)
    requires p != [] && (forall t | t in g :: NamesTemplates(g, g[t].body)) && NamedTables(g, ts)
    requires Reports(g, WalkOne(g, s, p, ts, active))
    ensures IsChain(g, MentionsInOne(s), c) && Closes(c, active)
    decreases Free(g, active), 0, s, 1
  {
    hide Walk, NamedTables, NamesTemplates, MentionsIn, AnyHits, Resolve, Enter;
    match s
    case Inner(scope, kids) => c := ReportsReal(g, kids, [scope] + p, ts, active);
    case Site(name, args, _) =>
      NoneHit(g, ts);
      var t := Resolve(g, ts, p, name).t;
      ResolvesByName(g, ts, p, name);
      if t in active {
        c := [t];
      } else {
        var us := ts + [ParameterTable(g[t].params, p[0])];
        NoneHit(g, WalkOne(g, s, p, ts, active).ts);
        assert t in Free(g, active) && Free(g, active + {t}) == Free(g, active) - {t};
        ParametersNamed(g, ts, g[t].params, p[0]);
        var rest := ReportsRealBody(g, g[t].body, [|ts|] + p, us, active + {t});
        c := [t] + rest;
        ChainLonger(g, MentionsInOne(s), t, rest, active);
      }
  }

  lemma {:induction false} ReportsRealBody(g: Program, body: seq<Code>, p: seq<ScopeId>, ts: seq<Table>, active: set<nat>) returns (c: seq<nat>)
    requires p != [] && (forall t | t in g :: NamesTemplates(g, g[t].body)) && NamesTemplates(g, body) && NamedTables(g, ts)
    requires Reports(g, Enter(g, body, p, ts, active))
    ensures IsChain(g, Mentions(body), c) && Closes(c, active)
    decreases Free(g, active), 1
  {
    hide Walk, NamedTables, NamesTemplates, MentionsIn, AnyHits, Populate, Place;
    NoneHit(g, Enter(g, body, p, ts, active).ts);
    EnterNamed(g, body, p, ts);
    PlaceMentions(body, p[0], ts);
    var (kids, ts1) := Place(body, p[0], ts);
    c := ReportsReal(g, kids, p, Populate(kids, p, ts1).0, active);
  }

  lemma ChainLonger(g: Program, from: set<string>, t: nat, rest: seq<nat>, active: set<nat>)
    requires t in g && g[t].name in from && IsChain(g, Mentions(g[t].body), rest) && Closes(rest, active + {t})
    ensures IsChain(g, from, [t] + rest) && Closes([t] + rest, active)
  {
    var c := [t] + rest;
    assert c[|c| - 1] == rest[|rest| - 1];
    assert forall i | 0 <= i < |rest| :: c[i + 1] == rest[i];
    if rest[|rest| - 1] !in active {
      if rest[|rest| - 1] == t {
        assert c[0] == c[|c| - 1];
      } else {
        var i :| 0 <= i < |rest| - 1 && rest[i] == rest[|rest| - 1];
        assert c[i + 1] == c[|c| - 1];
      }
    }
  }

  // ----- a circle goes wrong -----

  /** Where nothing goes wrong every mentioned template has been entered. */
  lemma {:induction false} MentionedIsEntered(g: Program, stmts: seq<Stmt>, p: seq<ScopeId>, ts: seq<Table>, active: set<nat>, name: string)
      returns (t: nat, q: seq<ScopeId>, us: seq<Table>)
    requires p != [] && (forall t | t in g :: NamesTemplates(g, g[t].body)) && NamedTables(g, ts)
    requires Walk(g, stmts, p, ts, active).Smooth? && name in MentionsIn(stmts)
    ensures t in g && g[t].name == name && t !in active && q != [] && NamedTables(g, us) && Enter(g, g[t].body, q, us, active + {t}).Smooth?
    decreases stmts, 0
  {
    hide WalkOne, NamedTables, NamesTemplates, MentionsInOne, Enter;
    WalkOneNamed(g, stmts[0], p, ts, active);
    if name in MentionsInOne(stmts[0]) {
      t, q, us := MentionedIsEnteredOne(g, stmts[0], p, ts, active, name);
    } else {
      t, q, us := MentionedIsEntered(g, stmts[1..], p, WalkOne(g, stmts[0], p, ts, active).ts, active, name);
    }
  }

  lemma {:induction false} MentionedIsEnteredOne(g: Program, s: Stmt, p: seq<ScopeId>, ts: seq<Table>, active: set<nat>, name: string)
      returns (t: nat, q: seq<ScopeId>, us: seq<Table>)
    requires p != [] && (forall t | t in g :: NamesTemplates(g, g[t].body)) && NamedTables(g, ts)
    requires WalkOne(g, s, p, ts, active).Smooth? && name in MentionsInOne(s)
    ensures t in g && g[t].name == name && t !in active && q != [] && NamedTables(g, us) && Enter(g, g[t].body, q, us, active + {t}).Smooth?
    decreases s, 1
  {
    hide Walk, NamedTables, NamesTemplates, MentionsIn, Enter, Resolve;
    match s
    case Inner(scope, kids) => t, q, us := MentionedIsEntered(g, kids, [scope] + p, ts, active, name);
    case Site(_, _, _) =>
      t := Resolve(g, ts, p, name).t;
      ResolvesByName(g, ts, p, name);
      q, us := [|ts|] + p, ts + [ParameterTable(g[t].params, p[0])];
      ParametersNamed(g, ts, g[t].params, p[0]);
  }

  lemma {:induction false} SmoothHasNoCircle(g: Program, body: seq<Code>, p: seq<ScopeId>, ts: seq<Table>, active: set<nat>, c: seq<nat>)
    requires p != [] && (forall t | t in g :: NamesTemplates(g, g[t].body)) && NamesTemplates(g, body) && NamedTables(g, ts) && UniqueNames(g)
    requires Enter(g, body, p, ts, active).Smooth? && IsChain(g, Mentions(body), c)
    ensures !Closes(c, active)
    decreases |c|
  {
    hide Walk, NamedTables, NamesTemplates, Populate, Place, Mentions;
    EnterNamed(g, body, p, ts);
    PlaceMentions(body, p[0], ts);
    var (kids, ts1) := Place(body, p[0], ts);
    var t, q, us := MentionedIsEntered(g, kids, p, Populate(kids, p, ts1).0, active, g[c[0]].name);
    assert t == c[0];
    if |c| > 1 {
      var rest := c[1..];
      assert rest[|rest| - 1] == c[|c| - 1];
      SmoothHasNoCircle(g, g[t].body, q, us, active + {t}, rest);
      forall i | 0 <= i < |c| - 1 ensures c[i] != c[|c| - 1] {
        if i > 0 { assert rest[i - 1] == c[i]; }
      }
    }
  }

  // ----- a module -----

  /** A circle is reported only if some site reaches one. */
  lemma ReportedCircleIsReal(g: Program, cs: seq<Code>, ts: seq<Table>)
    requires WellNamed(g, cs) && NamedTables(g, ts) && Reports(g, ModuleCourse(g, cs, ts))
    ensures ReachesCircle(g, cs)
  {
    hide Enter, IsChain, Closes;
    var c := ReportsRealBody(g, cs, [|ts|, WORLD], ts + [Table(Global, Some(WORLD), map[])], {});
  }

  /** If some site reaches a circle, something goes wrong. */
  lemma CircleGoesWrong(g: Program, cs: seq<Code>, ts: seq<Table>)
    requires WellNamed(g, cs) && NamedTables(g, ts) && UniqueNames(g) && ReachesCircle(g, cs)
    ensures ModuleCourse(g, cs, ts).Trouble?
  {
    hide Enter, IsChain, Closes, Walk;
    var c :| IsChain(g, Mentions(cs), c) && Closes(c, {});
    if ModuleCourse(g, cs, ts).Smooth? {
      SmoothHasNoCircle(g, cs, [|ts|, WORLD], ts + [Table(Global, Some(WORLD), map[])], {}, c);
    }
  }

}
