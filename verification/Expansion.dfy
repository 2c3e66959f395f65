/** The course of template expansion up to the first thing that goes wrong, and the places that were
    still to come then. */
module Expansion {
  import opened Common
  import opened Scopes
  import opened Programs

  datatype Error =
    | SymbolNotDefined
    | SymbolIsNotATemplate
    | CircularTemplateReference
    | IncorrectNumberOfTemplateArguments
    | SymbolAlreadyDefinedInScope

  datatype Target = NotDefined | NotATemplate | ToTemplate(t: nat)

  /** What a name means at chain `p`. */
  function Resolve(g: Program, ts: seq<Table>, p: seq<ScopeId>, name: string): (r: Target)
    ensures r.ToTemplate? ==> r.t in g
  {
    match Nearest(ts, p, name)
    case None => NotDefined
    case Some(symbol) => if symbol.Definition? && symbol.id in g then ToTemplate(symbol.id) else NotATemplate
  }

  /** A site that has not been visited: where it stands, and the templates being expanded there. */
  datatype Pending = Pending(p: seq<ScopeId>, name: string, active: set<nat>)

  /** It expands a template that is being expanded. */
  predicate Hits(g: Program, ts: seq<Table>, w: Pending) {
    var r := Resolve(g, ts, w.p, w.name);
    r.ToTemplate? && r.t in w.active
  }

  predicate AnyHits(g: Program, ts: seq<Table>, ws: seq<Pending>) {
    exists i :: 0 <= i < |ws| && Hits(g, ts, ws[i])
  }

  lemma HitsAppend(g: Program, ts: seq<Table>, a: seq<Pending>, b: seq<Pending>)
    ensures AnyHits(g, ts, a + b) <==> AnyHits(g, ts, a) || AnyHits(g, ts, b)
  {
    var c := a + b;
    forall i | 0 <= i < |a| && Hits(g, ts, a[i]) ensures AnyHits(g, ts, c) { assert Hits(g, ts, c[i]); }
    forall i | 0 <= i < |b| && Hits(g, ts, b[i]) ensures AnyHits(g, ts, c) { assert Hits(g, ts, c[|a| + i]); }
  }

  lemma OneHit(g: Program, ts: seq<Table>, w: Pending)
    ensures AnyHits(g, ts, [w]) <==> Hits(g, ts, w)
  {
    if Hits(g, ts, w) { assert Hits(g, ts, [w][0]); }
  }

  lemma NoneHit(g: Program, ts: seq<Table>)
    ensures !AnyHits(g, ts, [])
  {
  }

  function Waiting(stmts: seq<Stmt>, p: seq<ScopeId>, active: set<nat>): seq<Pending> {
    if stmts == [] then [] else WaitingOne(stmts[0], p, active) + Waiting(stmts[1..], p, active)
  }

  function WaitingOne(s: Stmt, p: seq<ScopeId>, active: set<nat>): seq<Pending> {
    match s
    case Inner(scope, kids) => Waiting(kids, [scope] + p, active)
    case Site(name, _, copy) => if copy.None? then [Pending(p, name, active)] else []
    case _ => []
  }

  datatype Course =
    | Smooth(stmts: seq<Stmt>, ts: seq<Table>)
    | Trouble(error: Error, ts: seq<Table>, pending: seq<Pending>)

  ghost function Free(g: Program, active: set<nat>): set<nat> {
    g.Keys - active
  }

  /** Expand everything in `stmts`, which stand at chain `p`, while `active` are being expanded.
      Sites are taken in order, and the sites of a copy before those after it. */
  ghost function Walk(g: Program, stmts: seq<Stmt>, p: seq<ScopeId>, ts: seq<Table>, active: set<nat>): Course
    requires p != []
    decreases Free(g, active), 0, stmts, 0
  {
    if stmts == [] then Smooth([], ts)
    else
      match WalkOne(g, stmts[0], p, ts, active)
      case Trouble(e, ts1, pending) => Trouble(e, ts1, pending + Waiting(stmts[1..], p, active))
      case Smooth(first, ts1) =>
        match Walk(g, stmts[1..], p, ts1, active)
        case Trouble(e, ts2, pending) => Trouble(e, ts2, pending)
        case Smooth(rest, ts2) => Smooth(first + rest, ts2)
  }

  ghost function WalkOne(g: Program, s: Stmt, p: seq<ScopeId>, ts: seq<Table>, active: set<nat>): Course
    requires p != []
    decreases Free(g, active), 0, s, 1
  {
    match s
    case Inner(scope, kids) =>
      (match Walk(g, kids, [scope] + p, ts, active)
       case Trouble(e, ts1, pending) => Trouble(e, ts1, pending)
       case Smooth(kids1, ts1) => Smooth([Inner(scope, kids1)], ts1))
    case Site(name, args, copy) =>
      if copy.Some? then Smooth([s], ts)
      else
        (match Resolve(g, ts, p, name)
         case NotDefined => Trouble(SymbolNotDefined, ts, [])
         case NotATemplate => Trouble(SymbolIsNotATemplate, ts, [])
         case ToTemplate(t) =>
           if t in active then Trouble(CircularTemplateReference, ts, [])
           else if args != |g[t].params| then Trouble(IncorrectNumberOfTemplateArguments, ts, [])
           else
             assert t in Free(g, active) && Free(g, active + {t}) == Free(g, active) - {t};
             (match Enter(g, g[t].body, [|ts|] + p, ts + [ParameterTable(g[t].params, p[0])], active + {t})
              case Trouble(e, ts1, pending) => Trouble(e, ts1, pending)
              case Smooth(kids, ts1) => Smooth([Site(name, args, Some(Copy(|ts|, kids)))], ts1)))
    case _ => Smooth([s], ts)
  }

  /** A new copy of some text, under the scope at the head of `p`: names are defined in it before anything
      in it is expanded. */
  ghost function Enter(g: Program, body: seq<Code>, p: seq<ScopeId>, ts: seq<Table>, active: set<nat>): Course
    requires p != []
    decreases Free(g, active), 1
  {
    var (kids, ts1) := Place(body, p[0], ts);
    var (ts2, taken) := Populate(kids, p, ts1);
    if taken > 0 then Trouble(SymbolAlreadyDefinedInScope, ts2, []) else Walk(g, kids, p, ts2, active)
  }

  /** A whole module, in a new scope under the world's. */
  ghost function ModuleCourse(g: Program, cs: seq<Code>, ts: seq<Table>): Course {
    Enter(g, cs, [|ts|, WORLD], ts + [Table(Global, Some(WORLD), map[])], {})
  }

  // ----- what expansion keeps -----

  predicate Known(ts: seq<Table>, p: seq<ScopeId>) {
    p != [] && forall i | 0 <= i < |p| :: p[i] < |ts|
  }

  /** A new scope of parameters, and the chain that starts there. */
  lemma ParametersPlaced(g: Program, t: nat, p: seq<ScopeId>, ts: seq<Table>)
    requires t in g && Known(ts, p)
    ensures var us := ts + [ParameterTable(g[t].params, p[0])];
      Wider(ts, us) && Known(us, [|ts|] + p) && Under(us, |ts|, p) && us[|ts|].kind == TemplateParameter
  {
  }

  lemma WiderTrans(ts: seq<Table>, us: seq<Table>, vs: seq<Table>)
    requires Wider(ts, us) && Wider(us, vs)
    ensures Wider(ts, vs)
  {
  }

  lemma {:induction false} PopulateWider(stmts: seq<Stmt>, p: seq<ScopeId>, ts: seq<Table>)
    ensures Wider(ts, Populate(stmts, p, ts).0) && |Populate(stmts, p, ts).0| == |ts|
    decreases stmts, 0
  {
    hide PopulateOne;
    if stmts != [] {
      PopulateOneWider(stmts[0], p, ts);
      PopulateWider(stmts[1..], p, PopulateOne(stmts[0], p, ts).0);
    }
  }

  lemma {:induction false} PopulateOneWider(s: Stmt, p: seq<ScopeId>, ts: seq<Table>)
    ensures Wider(ts, PopulateOne(s, p, ts).0) && |PopulateOne(s, p, ts).0| == |ts|
    decreases s, 1
  {
    hide Home;
    match s
    case Inner(scope, kids) => PopulateWider(kids, [scope] + p, ts);
    case Site(_, _, copy) => if copy.Some? { PopulateWider(copy.value.kids, [copy.value.scope] + p, ts); }
    case _ =>
  }

  lemma {:induction false} WalkWider(g: Program, stmts: seq<Stmt>, p: seq<ScopeId>, ts: seq<Table>, active: set<nat>)
    requires p != []
    ensures Wider(ts, Walk(g, stmts, p, ts, active).ts)
    decreases Free(g, active), 0, stmts, 0
  {
    hide WalkOne;
    if stmts != [] {
      WalkOneWider(g, stmts[0], p, ts, active);
      var c := WalkOne(g, stmts[0], p, ts, active);
      if c.Smooth? { WalkWider(g, stmts[1..], p, c.ts, active); }
    }
  }

  lemma {:induction false} WalkOneWider(g: Program, s: Stmt, p: seq<ScopeId>, ts: seq<Table>, active: set<nat>)
    requires p != []
    ensures Wider(ts, WalkOne(g, s, p, ts, active).ts)
    decreases Free(g, active), 0, s, 1
  {
    hide Walk, Enter, Resolve, Wider;
    WiderSelf(ts);
    match s
    case Inner(scope, kids) =>
      WalkWider(g, kids, [scope] + p, ts, active);
    case Site(name, args, copy) =>
      var r := Resolve(g, ts, p, name);
      if copy.None? && r.ToTemplate? && r.t !in active && args == |g[r.t].params| {
        var us := ts + [ParameterTable(g[r.t].params, p[0])];
        assert r.t in Free(g, active) && Free(g, active + {r.t}) == Free(g, active) - {r.t};
        EnterWider(g, g[r.t].body, [|ts|] + p, us, active + {r.t});
        WiderMore(ts, ParameterTable(g[r.t].params, p[0]));
        WiderTrans(ts, us, Enter(g, g[r.t].body, [|ts|] + p, us, active + {r.t}).ts);
      }
    case _ =>
  }

  lemma WiderSelf(ts: seq<Table>)
    ensures Wider(ts, ts)
  {
  }

  lemma WiderMore(ts: seq<Table>, t: Table)
    ensures Wider(ts, ts + [t])
  {
  }

  lemma {:induction false} EnterWider(g: Program, body: seq<Code>, p: seq<ScopeId>, ts: seq<Table>, active: set<nat>)
    requires p != []
    ensures Wider(ts, Enter(g, body, p, ts, active).ts)
    decreases Free(g, active), 1
  {
    hide Walk, Populate, Place, Wider;
    var (kids, ts1) := Place(body, p[0], ts);
    var (ts2, taken) := Populate(kids, p, ts1);
    PrefixWider(ts, ts1);
    PopulateWider(kids, p, ts1);
    WiderTrans(ts, ts1, ts2);
    if taken == 0 {
      WalkWider(g, kids, p, ts2, active);
      WiderTrans(ts, ts2, Walk(g, kids, p, ts2, active).ts);
    }
  }

  lemma PrefixWider(ts: seq<Table>, us: seq<Table>)
    requires ts <= us
    ensures Wider(ts, us)
  {
  }
}
