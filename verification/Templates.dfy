/** Expanding named templates as the source does it: each expansion copies the template's body and
    runs the early passes, this one included, on the copy; a set of templates being expanded guards
    against circles; after the first error the passes that are under way go on to their ends. */
module Templates {
  import opened Common
  import opened Scopes
  import opened Programs
  import opened Expansion
  import opened Circles
  import opened ClearNames
  import opened Landings
  import opened Copies

  // ----- tables as they grow -----

  lemma WiderChain(ts: seq<Table>, us: seq<Table>, p: seq<ScopeId>)
    requires Chain(ts, p) && Wider(ts, us)
    ensures Chain(us, p)
  {
  }

  lemma ChainKnown(ts: seq<Table>, p: seq<ScopeId>)
    requires Chain(ts, p)
    ensures Known(ts, p)
  {
  }

  lemma SoundMore(ts: seq<Table>, t: Table)
    requires Sound(ts) && forall n | n in t.symbols :: !t.symbols[n].Namespace?
    ensures Sound(ts + [t])
  {
  }

  lemma {:induction false} PlaceSound(cs: seq<Code>, parent: ScopeId, ts: seq<Table>)
    requires Sound(ts)
    ensures Sound(Place(cs, parent, ts).1)
    decreases cs, 0
  {
    hide PlaceOne, Sound;
    if cs != [] {
      PlaceOneSound(cs[0], parent, ts);
      PlaceSound(cs[1..], parent, PlaceOne(cs[0], parent, ts).1);
    }
  }

  lemma {:induction false} PlaceOneSound(c: Code, parent: ScopeId, ts: seq<Table>)
    requires Sound(ts)
    ensures Sound(PlaceOne(c, parent, ts).1)
    decreases c, 1
  {
    hide Place, Sound;
    match c
    case Scoped(body) =>
      SoundMore(ts, Table(Local, Some(parent), map[]));
      PlaceSound(body, |ts|, ts + [Table(Local, Some(parent), map[])]);
    case _ =>
  }

  /** Appending tables does not change what names mean where they stood before. */
  lemma {:induction false} NearestStays(ts: seq<Table>, us: seq<Table>, p: seq<ScopeId>, name: string)
    requires ts <= us && forall i | 0 <= i < |p| :: p[i] < |ts|
    ensures Nearest(us, p, name) == Nearest(ts, p, name)
    decreases |p|
  {
    if p != [] { NearestStays(ts, us, p[1..], name); }
  }

  predicate AllKnown(ts: seq<Table>, ws: seq<Pending>) {
    forall i | 0 <= i < |ws| :: Known(ts, ws[i].p)
  }

  lemma HitsStay(g: Program, ts: seq<Table>, us: seq<Table>, ws: seq<Pending>)
    requires ts <= us && AllKnown(ts, ws)
    ensures AnyHits(g, us, ws) <==> AnyHits(g, ts, ws)
  {
    forall i | 0 <= i < |ws| ensures Hits(g, us, ws[i]) <==> Hits(g, ts, ws[i]) {
      NearestStays(ts, us, ws[i].p, ws[i].name);
    }
  }

  lemma {:induction false} WaitingKnown(ts: seq<Table>, stmts: seq<Stmt>, p: seq<ScopeId>, active: set<nat>)
    requires Placed(ts, stmts, p) && Known(ts, p)
    ensures AllKnown(ts, Waiting(stmts, p, active))
    decreases stmts, 0
  {
    hide PlacedOne, WaitingOne;
    if stmts != [] {
      WaitingOneKnown(ts, stmts[0], p, active);
      WaitingKnown(ts, stmts[1..], p, active);
    }
  }

  lemma {:induction false} WaitingOneKnown(ts: seq<Table>, s: Stmt, p: seq<ScopeId>, active: set<nat>)
    requires PlacedOne(ts, s, p) && Known(ts, p)
    ensures AllKnown(ts, WaitingOne(s, p, active))
    decreases s, 1
  {
    match s
    case Inner(scope, kids) => WaitingKnown(ts, kids, [scope] + p, active);
    case _ =>
  }

  // ----- the class against the course -----

  /** What a visit leaves. */
  datatype State = State(ts: seq<Table>, expanding: set<nat>, errors: seq<Error>)

  predicate Circular(errors: seq<Error>) {
    CircularTemplateReference in errors
  }

  /** A visit that began without errors has followed course `c`: nothing went wrong and its result is
      there, or the first error is the first thing that goes wrong, and a circle is reported exactly
      when it is one or a site that was still to come hits one. */
  ghost predicate Followed(g: Program, c: Course, active: set<nat>, r: seq<Stmt>, after: State) {
    match c
    case Smooth(stmts, ts) => after == State(ts, active, []) && r == stmts
    case Trouble(e, ts, pending) =>
      && after.errors != [] && after.errors[0] == e && ts <= after.ts
      && (Circular(after.errors) <==> e == CircularTemplateReference || AnyHits(g, ts, pending))
      && (!Circular(after.errors) ==> after.expanding == active)
  }

  /** A visit that began with errors looks at the sites and expands nothing inside the copies it makes. */
  ghost predicate Skimmed(g: Program, waiting: seq<Pending>, active: set<nat>, before: State, after: State) {
    && before.errors <= after.errors && before.ts <= after.ts
    && (Circular(after.errors) <==> Circular(before.errors) || AnyHits(g, before.ts, waiting))
    && (!Circular(after.errors) ==> after.expanding == active)
  }

  ghost predicate Meets(g: Program, c: Course, waiting: seq<Pending>, active: set<nat>, before: State, r: seq<Stmt>, after: State) {
    if before.errors == [] then Followed(g, c, active, r, after) else Skimmed(g, waiting, active, before, after)
  }

  // ----- nesting -----

  function Max(a: nat, b: nat): nat {
    if a < b then b else a
  }

  /** How deep copies stand in copies. */
  function Depth(stmts: seq<Stmt>): nat {
    if stmts == [] then 0 else Max(DepthOne(stmts[0]), Depth(stmts[1..]))
  }

  function DepthOne(s: Stmt): nat {
    match s
    case Inner(_, kids) => Depth(kids)
    case Site(_, _, copy) => if copy.None? then 0 else 1 + Depth(copy.value.kids)
    case _ => 0
  }

  lemma {:induction false} UnexpandedDepth(stmts: seq<Stmt>)
    requires Unexpanded(stmts)
    ensures Depth(stmts) == 0
    decreases stmts, 0
  {
    if stmts != [] {
      UnexpandedOneDepth(stmts[0]);
      UnexpandedDepth(stmts[1..]);
    }
  }

  lemma {:induction false} UnexpandedOneDepth(s: Stmt)
    requires UnexpandedOne(s)
    ensures DepthOne(s) == 0
    decreases s, 1
  {
    match s
    case Inner(_, kids) => UnexpandedDepth(kids);
    case _ =>
  }

  lemma {:induction false} DepthAppend(stmts: seq<Stmt>, s: Stmt)
    ensures Depth(stmts + [s]) == Max(Depth(stmts), DepthOne(s))
    decreases |stmts|
  {
    hide DepthOne;
    if stmts != [] {
      assert (stmts + [s])[1..] == stmts[1..] + [s];
      DepthAppend(stmts[1..], s);
    } else {
      assert [s][1..] == [];
    }
  }

  // ----- one list, step by step -----

  function Prepend(done: seq<Stmt>, c: Course): Course {
    match c
    case Smooth(stmts, ts) => Smooth(done + stmts, ts)
    case Trouble(_, _, _) => c
  }

  /** Where a visit of a list that began without errors is before member `k`; `trouble` is its course up
      to there once something has gone wrong. */
  ghost predicate Along(g: Program, whole: Course, stmts: seq<Stmt>, k: nat, p: seq<ScopeId>, active: set<nat>, r: seq<Stmt>,
      now: State, trouble: Course)
    requires k <= |stmts| && p != []
  {
    if now.errors == [] then now.expanding == active && whole == Prepend(r, Walk(g, stmts[k..], p, now.ts, active))
    else
      && trouble.Trouble? && Followed(g, trouble, active, r, now)
      && whole == Trouble(trouble.error, trouble.ts, trouble.pending + Waiting(stmts[k..], p, active))
  }

  /** The same when it began with errors. */
  ghost predicate Skimming(g: Program, stmts: seq<Stmt>, k: nat, p: seq<ScopeId>, active: set<nat>, seen: seq<Pending>,
      before: State, now: State)
    requires k <= |stmts|
  {
    Skimmed(g, seen, active, before, now) && Waiting(stmts, p, active) == seen + Waiting(stmts[k..], p, active)
  }

  lemma AlongStep(g: Program, ts: seq<Table>, stmts: seq<Stmt>, k: nat, p: seq<ScopeId>, active: set<nat>, r: seq<Stmt>,
      now: State, trouble: Course, s: Stmt, after: State) returns (trouble2: Course)
    requires k < |stmts| && Known(ts, p) && Placed(ts, stmts, p)
    requires Along(g, Walk(g, stmts, p, ts, active), stmts, k, p, active, r, now, trouble)
    requires Meets(g, WalkOne(g, stmts[k], p, now.ts, active), WaitingOne(stmts[k], p, active), active, now, [s], after)
    ensures Along(g, Walk(g, stmts, p, ts, active), stmts, k + 1, p, active, r + [s], after, trouble2)
  {
    hide WalkOne, WaitingOne, Circular, AnyHits;
    assert stmts[k..][0] == stmts[k] && stmts[k..][1..] == stmts[k + 1..];
    var whole := Walk(g, stmts, p, ts, active);
    trouble2 := trouble;
    if now.errors == [] {
      var c := WalkOne(g, stmts[k], p, now.ts, active);
      if c.Smooth? {
        PrependTwice(r, [s], Walk(g, stmts[k + 1..], p, c.ts, active));
      } else {
        trouble2 := c;
      }
    } else {
      var w := WaitingOne(stmts[k], p, active);
      trouble2 := Trouble(trouble.error, trouble.ts, trouble.pending + w);
      WalkWider(g, stmts, p, ts, active);
      StaysPlacedOne(ts, trouble.ts, stmts[k], p);
      WaitingOneKnown(trouble.ts, stmts[k], p, active);
      HitsStay(g, trouble.ts, now.ts, w);
      HitsAppend(g, trouble.ts, trouble.pending, w);
      assert trouble.pending + (w + Waiting(stmts[k + 1..], p, active)) == trouble2.pending + Waiting(stmts[k + 1..], p, active);
    }
  }

  lemma PrependTwice(a: seq<Stmt>, b: seq<Stmt>, c: Course)
    ensures Prepend(a, Prepend(b, c)) == Prepend(a + b, c)
  {
    if c.Smooth? { assert a + (b + c.stmts) == a + b + c.stmts; }
  }

  lemma SkimStep(g: Program, stmts: seq<Stmt>, k: nat, p: seq<ScopeId>, active: set<nat>, seen: seq<Pending>, before: State, now: State,
      after: State) returns (seen2: seq<Pending>)
    requires k < |stmts| && Known(before.ts, p) && Placed(before.ts, stmts, p) && Skimming(g, stmts, k, p, active, seen, before, now)
    requires Skimmed(g, WaitingOne(stmts[k], p, active), active, now, after)
    ensures Skimming(g, stmts, k + 1, p, active, seen2, before, after)
  {
    hide WaitingOne, Circular, AnyHits;
    assert stmts[k..][0] == stmts[k] && stmts[k..][1..] == stmts[k + 1..];
    var w := WaitingOne(stmts[k], p, active);
    seen2 := seen + w;
    WaitingOneKnown(before.ts, stmts[k], p, active);
    HitsStay(g, before.ts, now.ts, w);
    HitsAppend(g, before.ts, seen, w);
    assert seen + (w + Waiting(stmts[k + 1..], p, active)) == seen2 + Waiting(stmts[k + 1..], p, active);
  }

  // ----- the pass -----

  class Expander {
    const g: Program
    var tables: seq<Table>
    var expanding: set<nat>
    var errors: seq<Error>

    constructor (g: Program, tables: seq<Table>)
      ensures this.g == g && this.tables == tables && expanding == {} && errors == []
    {
      this.g, this.tables := g, tables;
      expanding, errors := {}, [];
    }

    ghost function Now(): State
      reads this
    {
      State(tables, expanding, errors)
    }

    /** Chain `p` starts at scope `top`; until a circle has been reported the guard holds the templates
        that are being expanded. */
    ghost predicate Ready(top: ScopeId, p: seq<ScopeId>, active: set<nat>)
      reads this
    {
      && Sound(tables) && Chain(tables, p) && p[0] == top && expanding <= g.Keys && active <= g.Keys
      && (!Circular(errors) ==> expanding == active)
    }

    /** What every visit keeps. */
    twostate predicate Kept(active: set<nat>)
      reads this
    {
      && Sound(tables) && Wider(old(tables), tables) && old(errors) <= errors && expanding <= g.Keys
      && (!Circular(errors) ==> expanding == active)
    }

    /** How deep copies may stand in copies in what a visit makes. */
    twostate predicate Shallow(r: seq<Stmt>, active: set<nat>)
      reads this
    {
      Depth(r) <= if errors == [] then |Free(g, active)| else if old(errors) == [] then |Free(g, active)| + 1 else 1
    }

    /** The names in `stmts` are defined in the nearest scope that is not one of template parameters. */
    method PopulateAll(stmts: seq<Stmt>, top: ScopeId, ghost p: seq<ScopeId>)
      requires Sound(tables) && Chain(tables, p) && p[0] == top && Placed(tables, stmts, p)
      modifies this`tables, this`errors
      ensures tables == Populate(stmts, p, old(tables)).0 && Sound(tables)
      ensures errors == old(errors) + seq(Populate(stmts, p, old(tables)).1, _ => SymbolAlreadyDefinedInScope)
      decreases stmts, 0
    {
      hide PopulateOne, PlacedOne, Sound, Chain;
      ghost var n: nat := 0;
      for k := 0 to |stmts|
        invariant Sound(tables) && Chain(tables, p) && Wider(old(tables), tables) && Placed(tables, stmts, p)
        invariant errors == old(errors) + seq(n, _ => SymbolAlreadyDefinedInScope)
        invariant var (us, m) := Populate(stmts, p, old(tables)); var (vs, rest) := Populate(stmts[k..], p, tables); us == vs && m == n + rest
      {
        ghost var before := tables;
        assert stmts[k..][0] == stmts[k] && stmts[k..][1..] == stmts[k + 1..];
        PopulateOneWider(stmts[k], p, before);
        PopulateStmt(stmts[k], top, p);
        WiderTrans(old(tables), before, tables);
        WiderChain(before, tables, p);
        StaysPlaced(before, tables, stmts, p);
        ghost var m := PopulateOne(stmts[k], p, before).1;
        assert seq(n, _ => SymbolAlreadyDefinedInScope) + seq(m, _ => SymbolAlreadyDefinedInScope) == seq(n + m, _ => SymbolAlreadyDefinedInScope);
        n := n + m;
      }
    }

    method PopulateStmt(s: Stmt, top: ScopeId, ghost p: seq<ScopeId>)
      requires Sound(tables) && Chain(tables, p) && p[0] == top && PlacedOne(tables, s, p)
      modifies this`tables, this`errors
      ensures tables == PopulateOne(s, p, old(tables)).0 && Sound(tables)
      ensures errors == old(errors) + seq(PopulateOne(s, p, old(tables)).1, _ => SymbolAlreadyDefinedInScope)
      decreases s, 1
    {
      match s
      case Def(name, id) =>
        var d := DefinitionScope(tables, top, p);
        if name in tables[d].symbols {
          errors := errors + [SymbolAlreadyDefinedInScope];
        } else {
          tables := tables[d := tables[d].(symbols := tables[d].symbols[name := Definition(id)])];
        }
      case Ref(_) =>
      case Inner(scope, kids) =>
        Extended(tables, scope, p);
        PopulateAll(kids, scope, [scope] + p);
      case Site(_, _, copy) =>
        if copy.Some? {
          Extended(tables, copy.value.scope, p);
          PopulateAll(copy.value.kids, copy.value.scope, [copy.value.scope] + p);
        }
    }

    /** The sites in a list of nodes, in order; an error does not stop the visit. */
    method ExpandAll(stmts: seq<Stmt>, top: ScopeId, ghost p: seq<ScopeId>, ghost active: set<nat>) returns (r: seq<Stmt>)
      requires Ready(top, p, active) && Placed(tables, stmts, p) && Unexpanded(stmts)
      modifies this
      ensures Kept(active) && Shallow(r, active)
      ensures Meets(g, Walk(g, stmts, p, old(tables), active), Waiting(stmts, p, active), active, old(Now()), r, Now())
      decreases errors == [], if errors == [] then |Free(g, expanding)| else 0, stmts, 0
    {
      hide WalkOne, WaitingOne, PlacedOne, UnexpandedOne, Sound, Chain, Followed, Skimmed, Walk, Waiting, DepthOne, Wider;
      r := [];
      ghost var trouble, seen := Smooth([], tables), [];
      ChainKnown(tables, p);
      Begins(g, stmts, p, active, Now());
      for k := 0 to |stmts|
        invariant Ready(top, p, active) && Kept(active) && Shallow(r, active)
        invariant old(errors) == [] ==> Along(g, Walk(g, stmts, p, old(tables), active), stmts, k, p, active, r, Now(), trouble)
        invariant old(errors) != [] ==> Skimming(g, stmts, k, p, active, seen, old(Now()), Now())
      {
        ghost var before := Now();
        StaysPlacedOne(old(tables), tables, stmts[k], p);
        var s := ExpandStmt(stmts[k], top, p, active);
        if old(errors) == [] {
          trouble := AlongStep(g, old(tables), stmts, k, p, active, r, before, trouble, s, Now());
        } else {
          seen := SkimStep(g, stmts, k, p, active, seen, old(Now()), before, Now());
        }
        WiderTrans(old(tables), before.ts, tables);
        WiderChain(before.ts, tables, p);
        DepthAppend(r, s);
        r := r + [s];
      }
      if old(errors) == [] {
        AlongEnds(g, old(tables), stmts, p, active, r, Now(), trouble);
      } else {
        SkimEnds(g, stmts, p, active, seen, old(Now()), Now());
      }
    }

    method ExpandStmt(s: Stmt, top: ScopeId, ghost p: seq<ScopeId>, ghost active: set<nat>) returns (r: Stmt)
      requires Ready(top, p, active) && PlacedOne(tables, s, p) && UnexpandedOne(s)
      modifies this
      ensures Kept(active) && Shallow([r], active)
      ensures Meets(g, WalkOne(g, s, p, old(tables), active), WaitingOne(s, p, active), active, old(Now()), [r], Now())
      decreases errors == [], if errors == [] then |Free(g, expanding)| else 0, s, 3
    {
      hide Sound, Chain, Walk, Waiting, WalkOne, WaitingOne, Wider, Placed, Unexpanded, Circular, AnyHits, Followed, Skimmed, Depth;
      ChainKnown(tables, p);
      match s
      case Inner(scope, kids) =>
        Extended(tables, scope, p);
        var kids1 := ExpandAll(kids, scope, [scope] + p, active);
        r := Inner(scope, kids1);
        InnerMeets(g, scope, kids, p, active, old(Now()), kids1, Now());
        DepthAlone(r);
      case Site(_, _, _) =>
        r := ExpandSite(s, top, p, active);
        SiteWaits(s, p, active);
      case Def(_, _) =>
        r := s;
        OtherMeets(g, s, p, active, Now());
        WiderSelf(tables);
        DepthAlone(s);
      case Ref(_) =>
        r := s;
        OtherMeets(g, s, p, active, Now());
        WiderSelf(tables);
        DepthAlone(s);
    }

    /** A site: looked up, guarded, expanded, and its template taken out of the set again, even when the
        visit failed and the template is still being expanded further out. */
    method ExpandSite(s: Stmt, top: ScopeId, ghost p: seq<ScopeId>, ghost active: set<nat>) returns (r: Stmt)
      requires Ready(top, p, active) && s.Site? && s.copy.None?
      modifies this
      ensures Kept(active) && Shallow([r], active)
      ensures Meets(g, WalkOne(g, s, p, old(tables), active), [Pending(p, s.name, active)], active, old(Now()), [r], Now())
      decreases errors == [], if errors == [] then |Free(g, expanding)| else 0, s, 2
    {
      hide Sound, Chain, Walk, WalkOne, Wider, Placed, Unexpanded, AnyHits, Followed, Skimmed, Depth;
      ChainKnown(tables, p);
      WiderSelf(tables);
      r := s;
      DepthAlone(s);
      var found := FindInScopeOrParents(tables, top, s.name, p);
      if found.None? {
        SiteFails(g, s, p, active, Now(), SymbolNotDefined, expanding);
        errors := errors + [SymbolNotDefined];
      } else if !(found.value.Definition? && found.value.id in g) {
        SiteFails(g, s, p, active, Now(), SymbolIsNotATemplate, expanding);
        errors := errors + [SymbolIsNotATemplate];
      } else if found.value.id in expanding {
        SiteFails(g, s, p, active, Now(), CircularTemplateReference, expanding - {found.value.id});
        errors := errors + [CircularTemplateReference];
        expanding := expanding - {found.value.id};
      } else {
        var t := found.value.id;
        expanding := expanding + {t};
        if s.args != |g[t].params| {
          SiteFails(g, s, p, active, old(Now()), IncorrectNumberOfTemplateArguments, old(expanding));
          errors := errors + [IncorrectNumberOfTemplateArguments];
          assert expanding - {t} == old(expanding);
        } else {
          assert expanding - {t} == old(expanding) && (!Circular(errors) ==> expanding == active + {t});
          r := EnterSite(s, t, top, p, active);
          SiteReturns(g, s, t, p, active, old(Now()), r, Now());
          assert active + {t} - {t} == active - {t};
        }
        expanding := expanding - {t};
      }
    }

    /** The copy of a site that has been let through. */
    method EnterSite(s: Stmt, t: nat, top: ScopeId, ghost p: seq<ScopeId>, ghost active: set<nat>) returns (r: Stmt)
      requires s.Site? && t in g && t in expanding && Ready(top, p, active + {t}) && (t in active ==> Circular(errors))
      modifies this
      ensures Kept(active + {t}) && Depth([r]) <= if errors == [] then |Free(g, active)| else if old(errors) == [] then |Free(g, active)| + 1 else 1
      ensures old(errors) != [] ==> old(tables) <= tables && errors == old(errors) && expanding == old(expanding)
      ensures old(errors) == [] ==> Followed(g, SiteCourse(g, s, t, p, old(tables), active), active + {t}, [r], Now())
      decreases errors == [], if errors == [] then |Free(g, expanding)| + 1 else 0, s, 1
    {
      hide Sound, Chain, Walk, Wider, Placed, Unexpanded, AnyHits, Followed, Depth;
      ChainKnown(tables, p);
      var scope := |tables|;
      tables := tables + [ParameterTable(g[t].params, top)];
      ghost var before := tables;
      SoundMore(old(tables), ParameterTable(g[t].params, top));
      WiderMore(old(tables), ParameterTable(g[t].params, top));
      WiderChain(old(tables), tables, p);
      Extended(tables, scope, p);
      var kids := RunPasses(g[t].body, scope, [scope] + p, s, active + {t});
      WiderTrans(old(tables), before, tables);
      r := Site(s.name, s.args, Some(Copy(scope, kids)));
      DepthAlone(r);
      FewerFree(g, active, t);
      if old(errors) == [] { SiteFollows(g, s, t, p, old(tables), active, kids, Now()); }
    }

    /** The early passes on a copy of a template's body under scope `top`, this pass last; the list stops
        after the first pass that ends with errors reported, by it or before it.  The first of them only
        records templates, so after an error the copy is made and left alone. */
    method RunPasses(body: seq<Code>, top: ScopeId, ghost p: seq<ScopeId>, ghost s: Stmt, ghost active: set<nat>) returns (r: seq<Stmt>)
      requires Ready(top, p, active)
      modifies this
      ensures Kept(active) && Shallow(r, active) && (old(errors) != [] ==> Depth(r) == 0)
      ensures old(errors) == [] ==> Followed(g, Enter(g, body, p, old(tables), active), active, r, Now())
      ensures old(errors) != [] ==> old(tables) <= tables && errors == old(errors) && expanding == old(expanding)
      decreases errors == [], if errors == [] then |Free(g, expanding)| + 1 else 0, s, 0
    {
      hide Sound, Chain, Walk, Wider, Placed, Unexpanded, AnyHits, Depth, Place, Populate;
      ChainKnown(tables, p);
      var (copy, ts) := Place(body, top, tables);
      PlaceSound(body, top, tables);
      PlaceIsPlaced(body, p, tables);
      PrefixWider(tables, ts);
      WiderChain(tables, ts, p);
      UnexpandedDepth(copy);
      tables := ts;
      r := copy;
      if errors != [] {
        return;
      }
      PopulateWider(copy, p, ts);
      PopulateAll(copy, top, p);
      WiderTrans(old(tables), ts, tables);
      WiderChain(ts, tables, p);
      StaysPlaced(ts, tables, copy, p);
      if errors != [] {
        RunStops(g, body, p, old(tables), active, copy, Now());
        return;
      }
      ghost var before := tables;
      r := ExpandAll(copy, top, p, active);
      WiderTrans(old(tables), before, tables);
    }

    /** A whole module: its own passes, this one last.  The first error is the first thing that goes wrong
        in the course of the module, and a circle is reported exactly when it is one or a site that was
        still to come then expands a template that was being expanded around it.  With clear names and sites well
        used that is exactly when some site reaches a circle, unless a name that is taken is met first. */
    method ExpandModule(cs: seq<Code>) returns (r: seq<Stmt>)
      requires Sound(tables) && expanding == {} && errors == []
      modifies this
      ensures Followed(g, ModuleCourse(g, cs, old(tables)), {}, r, Now())
      ensures Depth(r) <= if errors == [] then |g| else |g| + 1
      ensures errors == [] ==> Argued(tables, r) && Text(r) == cs && Copied(g, tables, r, [|old(tables)|, WORLD])
      ensures WellNamed(g, cs) && NamedTables(g, old(tables)) ==>
        && (Circular(errors) ==> ReachesCircle(g, cs))
        && (UniqueNames(g) && ReachesCircle(g, cs) ==> errors != [])
        && (Clear(g, cs) && AllWellUsed(g, cs) && (errors == [] || errors[0] != SymbolAlreadyDefinedInScope) ==>
              (Circular(errors) <==> ReachesCircle(g, cs)))
    {
      hide Sound, Chain, Walk, Wider, Followed, Depth, Enter, WellNamed, NamedTables, ReachesCircle, Clear, AllWellUsed,
           UniqueNames, AnyHits, Argued, Copied, Text;
      var scope := |tables|;
      var module_ := Table(Global, Some(WORLD), map[]);
      WorldChain(tables);
      SoundMore(tables, module_);
      WiderMore(tables, module_);
      WiderChain(tables, tables + [module_], [WORLD]);
      tables := tables + [module_];
      Extended(tables, scope, [WORLD]);
      assert [scope] + [WORLD] == [scope, WORLD] && Free(g, {}) == g.Keys;
      r := RunPasses(cs, scope, [scope, WORLD], Ref(""), {});
      AllExpanded(g, cs, old(tables), r, Now());
      if WellNamed(g, cs) && NamedTables(g, old(tables)) { ModuleReports(g, cs, old(tables), r, Now()); }
    }
  }

  lemma AllExpanded(g: Program, cs: seq<Code>, ts: seq<Table>, r: seq<Stmt>, now: State)
    requires Sound(ts) && Followed(g, ModuleCourse(g, cs, ts), {}, r, now)
    ensures now.errors == [] ==> Argued(now.ts, r) && Text(r) == cs && Copied(g, now.ts, r, [|ts|, WORLD])
  {
    hide Enter, AnyHits, Copied, Text;
    if now.errors == [] {
      ModuleExpanded(g, cs, ts);
      ModuleCopied(g, cs, ts);
    }
  }

  /** What is reported of circles. */
  lemma ModuleReports(g: Program, cs: seq<Code>, ts: seq<Table>, r: seq<Stmt>, now: State)
    requires Sound(ts) && Followed(g, ModuleCourse(g, cs, ts), {}, r, now) && WellNamed(g, cs) && NamedTables(g, ts)
    ensures Circular(now.errors) ==> ReachesCircle(g, cs)
    ensures UniqueNames(g) && ReachesCircle(g, cs) ==> now.errors != []
    ensures Clear(g, cs) && AllWellUsed(g, cs) && (now.errors == [] || now.errors[0] != SymbolAlreadyDefinedInScope) ==>
      (Circular(now.errors) <==> ReachesCircle(g, cs))
  {
    hide Enter, WellNamed, NamedTables, ReachesCircle, Clear, AllWellUsed, UniqueNames, AnyHits;
    if Circular(now.errors) { ReportedCircleIsReal(g, cs, ts); }
    if UniqueNames(g) && ReachesCircle(g, cs) { CircleGoesWrong(g, cs, ts); }
    if Clear(g, cs) && AllWellUsed(g, cs) { CircleReportedExactly(g, cs, ts); }
  }

  lemma Begins(g: Program, stmts: seq<Stmt>, p: seq<ScopeId>, active: set<nat>, now: State)
    requires p != [] && (!Circular(now.errors) ==> now.expanding == active)
    ensures Wider(now.ts, now.ts) && Depth([]) == 0
    ensures now.errors == [] ==> Along(g, Walk(g, stmts, p, now.ts, active), stmts, 0, p, active, [], now, Smooth([], now.ts))
    ensures now.errors != [] ==> Skimming(g, stmts, 0, p, active, [], now, now)
  {
    assert stmts[0..] == stmts;
    PrependNothing(Walk(g, stmts, p, now.ts, active));
    assert [] + Waiting(stmts, p, active) == Waiting(stmts, p, active);
  }

  lemma DepthAlone(s: Stmt)
    ensures Depth([s]) == DepthOne(s)
  {
    assert [s][1..] == [];
  }

  lemma FewerFree(g: Program, active: set<nat>, t: nat)
    requires t in g
    ensures t !in active ==> |Free(g, active)| == |Free(g, active + {t})| + 1
  {
    if t !in active {
      assert Free(g, active) == Free(g, active + {t}) + {t};
    }
  }

  lemma SiteWaits(s: Stmt, p: seq<ScopeId>, active: set<nat>)
    requires s.Site? && s.copy.None?
    ensures WaitingOne(s, p, active) == [Pending(p, s.name, active)]
  {
  }

  /** A site that is not let through, for the reason `e`. */
  lemma SiteFails(g: Program, s: Stmt, p: seq<ScopeId>, active: set<nat>, before: State, e: Error, expanding: set<nat>)
    requires p != [] && s.Site? && s.copy.None? && (!Circular(before.errors) ==> before.expanding == active)
    requires var r := Resolve(g, before.ts, p, s.name);
      match e
      case SymbolNotDefined => r.NotDefined?
      case SymbolIsNotATemplate => r.NotATemplate?
      case CircularTemplateReference => r.ToTemplate? && r.t in before.expanding
      case IncorrectNumberOfTemplateArguments => r.ToTemplate? && r.t !in before.expanding && s.args != |g[r.t].params|
      case SymbolAlreadyDefinedInScope => false
    requires e != CircularTemplateReference ==> expanding == before.expanding
    ensures Meets(g, WalkOne(g, s, p, before.ts, active), [Pending(p, s.name, active)], active, before, [s],
                  State(before.ts, expanding, before.errors + [e]))
  {
    hide Enter, Resolve;
    var w := Pending(p, s.name, active);
    OneHit(g, before.ts, w);
    assert (before.errors + [e])[|before.errors|] == e;
    assert Circular(before.errors + [e]) <==> Circular(before.errors) || e == CircularTemplateReference;
  }

  /** The course of a site that is let through. */
  ghost function SiteCourse(g: Program, s: Stmt, t: nat, p: seq<ScopeId>, ts: seq<Table>, active: set<nat>): Course
    requires t in g && p != [] && s.Site?
  {
    match Enter(g, g[t].body, [|ts|] + p, ts + [ParameterTable(g[t].params, p[0])], active + {t})
    case Trouble(e, ts1, pending) => Trouble(e, ts1, pending)
    case Smooth(kids, ts1) => Smooth([Site(s.name, s.args, Some(Copy(|ts|, kids)))], ts1)
  }

  lemma SiteFollows(g: Program, s: Stmt, t: nat, p: seq<ScopeId>, ts: seq<Table>, active: set<nat>, kids: seq<Stmt>, now: State)
    requires t in g && p != [] && s.Site?
    requires Followed(g, Enter(g, g[t].body, [|ts|] + p, ts + [ParameterTable(g[t].params, p[0])], active + {t}), active + {t}, kids, now)
    ensures Followed(g, SiteCourse(g, s, t, p, ts, active), active + {t}, [Site(s.name, s.args, Some(Copy(|ts|, kids)))], now)
  {
    hide Enter, AnyHits, Circular;
  }

  /** Names that are taken stop the passes on a copy. */
  lemma RunStops(g: Program, body: seq<Code>, p: seq<ScopeId>, ts: seq<Table>, active: set<nat>, copy: seq<Stmt>, now: State)
    requires p != [] && copy == Place(body, p[0], ts).0 && now.expanding == active
    requires var (us, taken) := Populate(copy, p, Place(body, p[0], ts).1);
      now.ts == us && taken > 0 && now.errors == seq(taken, _ => SymbolAlreadyDefinedInScope)
    ensures Followed(g, Enter(g, body, p, ts, active), active, copy, now)
  {
    hide Place, Populate, Walk;
  }

  /** A site that is let through, once its template has been taken out of the guard again. */
  lemma SiteReturns(g: Program, s: Stmt, t: nat, p: seq<ScopeId>, active: set<nat>, before: State, r: Stmt, after: State)
    requires p != [] && s.Site? && s.copy.None? && t in g && Resolve(g, before.ts, p, s.name) == ToTemplate(t)
    requires t !in before.expanding && s.args == |g[t].params| && (!Circular(before.errors) ==> before.expanding == active)
    requires before.errors == [] ==> Followed(g, SiteCourse(g, s, t, p, before.ts, active), active + {t}, [r], after)
    requires before.errors != [] ==> before.ts <= after.ts && after.errors == before.errors && after.expanding == before.expanding + {t}
    ensures Meets(g, WalkOne(g, s, p, before.ts, active), [Pending(p, s.name, active)], active, before, [r],
                  State(after.ts, after.expanding - {t}, after.errors))
  {
    hide Enter, Resolve, AnyHits;
    if before.errors == [] {
      assert !Circular(before.errors);
      assert active + {t} - {t} == active;
    } else {
      var w := Pending(p, s.name, active);
      assert before.expanding + {t} - {t} == before.expanding;
      OneHit(g, before.ts, w);
    }
  }

  lemma AlongEnds(g: Program, ts: seq<Table>, stmts: seq<Stmt>, p: seq<ScopeId>, active: set<nat>, r: seq<Stmt>, now: State, trouble: Course)
    requires p != [] && Along(g, Walk(g, stmts, p, ts, active), stmts, |stmts|, p, active, r, now, trouble)
    ensures Followed(g, Walk(g, stmts, p, ts, active), active, r, now)
  {
    hide Circular, AnyHits;
    assert stmts[|stmts|..] == [];
    if now.errors == [] {
      assert r + [] == r;
    } else {
      assert trouble.pending + [] == trouble.pending;
    }
  }

  lemma SkimEnds(g: Program, stmts: seq<Stmt>, p: seq<ScopeId>, active: set<nat>, seen: seq<Pending>, before: State, now: State)
    requires Skimming(g, stmts, |stmts|, p, active, seen, before, now)
    ensures Skimmed(g, Waiting(stmts, p, active), active, before, now)
  {
    assert stmts[|stmts|..] == [];
    assert seen + [] == seen;
  }

  lemma InnerMeets(g: Program, scope: ScopeId, kids: seq<Stmt>, p: seq<ScopeId>, active: set<nat>, before: State, kids1: seq<Stmt>, after: State)
    requires p != []
    requires Meets(g, Walk(g, kids, [scope] + p, before.ts, active), Waiting(kids, [scope] + p, active), active, before, kids1, after)
    ensures var s := Inner(scope, kids);
      Meets(g, WalkOne(g, s, p, before.ts, active), WaitingOne(s, p, active), active, before, [Inner(scope, kids1)], after)
  {
    hide Walk, Waiting, Circular, AnyHits;
  }

  lemma OtherMeets(g: Program, s: Stmt, p: seq<ScopeId>, active: set<nat>, now: State)
    requires p != [] && (s.Def? || s.Ref?) && (!Circular(now.errors) ==> now.expanding == active)
    ensures Meets(g, WalkOne(g, s, p, now.ts, active), WaitingOne(s, p, active), active, now, [s], now)
  {
  }

  lemma PrependNothing(c: Course)
    ensures Prepend([], c) == c
  {
    if c.Smooth? { assert [] + c.stmts == c.stmts; }
  }
}
