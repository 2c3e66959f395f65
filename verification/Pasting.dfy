/** Expansion is transparent to names: where everything is expanded without an error, the bodies of templates
    without parameters might as well have been pasted in place.  Names are defined in another order then,
    and by one pass instead of many. */
module Pasting {
  import opened Common
  import opened Scopes
  import opened Programs
  import opened Expansion
  import opened ClearNames
  import opened Landings

  // ----- pasting -----

  /** Every copy without parameters takes the place of its site. */
  function Paste(stmts: seq<Stmt>): seq<Stmt> {
    if stmts == [] then [] else PasteOne(stmts[0]) + Paste(stmts[1..])
  }

  function PasteOne(s: Stmt): seq<Stmt> {
    match s
    case Inner(scope, kids) => [Inner(scope, Paste(kids))]
    case Site(name, args, copy) =>
      if copy.None? then [s]
      else if args == 0 then Paste(copy.value.kids)
      else [Site(name, args, Some(Copy(copy.value.scope, Paste(copy.value.kids))))]
    case _ => [s]
  }

  /** A scope of parameters that holds none: pasting drops it. */
  predicate Dropped(ts: seq<Table>, s: ScopeId) {
    s < |ts| && ts[s].kind == TemplateParameter && ts[s].symbols == map[]
  }

  function Without(ts: seq<Table>, p: seq<ScopeId>): seq<ScopeId> {
    if p == [] then [] else (if Dropped(ts, p[0]) then [] else [p[0]]) + Without(ts, p[1..])
  }

  /** The first scope from `s` on that is not dropped. */
  function Skip(ts: seq<Table>, s: ScopeId): ScopeId
    decreases s
  {
    if Dropped(ts, s) && ts[s].parent.Some? && ts[s].parent.value < s then Skip(ts, ts[s].parent.value) else s
  }

  /** The tables of the pasted text: the same scopes, under the scopes that are not dropped. */
  function Pruned(ts: seq<Table>): (us: seq<Table>)
    ensures |us| == |ts|
    ensures forall s | 0 <= s < |ts| :: us[s].kind == ts[s].kind && us[s].symbols == ts[s].symbols
    ensures forall s | 0 <= s < |ts| :: us[s].parent == if ts[s].parent.None? then None else Some(Skip(ts, ts[s].parent.value))
  {
    seq(|ts|, i requires 0 <= i < |ts| =>
      Table(ts[i].kind, if ts[i].parent.None? then None else Some(Skip(ts, ts[i].parent.value)), ts[i].symbols))
  }

  /** Scopes of parameters on the chain are later than what follows, which is under them. */
  predicate Steps(ts: seq<Table>, p: seq<ScopeId>) {
    && Known(ts, p) && !Dropped(ts, p[|p| - 1])
    && forall i | 0 <= i < |p| - 1 :: Dropped(ts, p[i]) ==> ts[p[i]].parent == Some(p[i + 1]) && p[i + 1] < p[i]
  }

  lemma {:induction false} SkipsToHead(ts: seq<Table>, p: seq<ScopeId>)
    requires Steps(ts, p)
    ensures Without(ts, p) != [] && Skip(ts, p[0]) == Without(ts, p)[0]
    decreases |p|
  {
    if Dropped(ts, p[0]) {
      assert p[0 + 1] < p[0];
      SkipsToHead(ts, p[1..]);
    }
  }

  lemma StepsMore(ts: seq<Table>, s: ScopeId, p: seq<ScopeId>)
    requires Steps(ts, p) && Under(ts, s, p) && s > p[0]
    ensures Steps(ts, [s] + p)
  {
    var q := [s] + p;
    assert forall i | 0 < i < |q| - 1 :: q[i] == p[i - 1] && q[i + 1] == p[i];
  }

  lemma WithoutCons(ts: seq<Table>, s: ScopeId, p: seq<ScopeId>)
    ensures Without(ts, [s] + p) == (if Dropped(ts, s) then [] else [s]) + Without(ts, p)
  {
    assert ([s] + p)[1..] == p;
  }

  lemma PlacedAppend(ts: seq<Table>, a: seq<Stmt>, b: seq<Stmt>, p: seq<ScopeId>)
    requires Placed(ts, a, p) && Placed(ts, b, p)
    ensures Placed(ts, a + b, p)
  {
    hide PlacedOne;
  }

  /** The pasted nodes stand where they should. */
  lemma {:induction false} PastePlaced(ts: seq<Table>, stmts: seq<Stmt>, p: seq<ScopeId>)
    requires Steps(ts, p) && Placed(ts, stmts, p) && Argued(ts, stmts) && Falls(stmts, p[0])
    ensures Placed(Pruned(ts), Paste(stmts), Without(ts, p))
    decreases stmts, 0
  {
    hide PlacedOne, ArguedOne, FallsOne, PasteOne, Steps, Without, Pruned;
    if stmts != [] {
      PasteOnePlaced(ts, stmts[0], p);
      PastePlaced(ts, stmts[1..], p);
      PlacedAppend(Pruned(ts), PasteOne(stmts[0]), Paste(stmts[1..]), Without(ts, p));
    }
  }

  lemma {:induction false} PasteOnePlaced(ts: seq<Table>, s: Stmt, p: seq<ScopeId>)
    requires Steps(ts, p) && PlacedOne(ts, s, p) && ArguedOne(ts, s) && FallsOne(s, p[0])
    ensures Placed(Pruned(ts), PasteOne(s), Without(ts, p))
    decreases s, 1
  {
    hide Placed, Argued, Falls, Paste, Steps, Without;
    SkipsToHead(ts, p);
    match s
    case Inner(scope, kids) =>
      StepsMore(ts, scope, p);
      WithoutCons(ts, scope, p);
      PastePlaced(ts, kids, [scope] + p);
      PlacedAlone(Pruned(ts), Inner(scope, Paste(kids)), Without(ts, p));
    case Site(name, args, copy) =>
      var scope, kids := copy.value.scope, copy.value.kids;
      StepsMore(ts, scope, p);
      WithoutCons(ts, scope, p);
      PastePlaced(ts, kids, [scope] + p);
      if args == 0 {
        assert [] + Without(ts, p) == Without(ts, p);
      } else {
        PlacedAlone(Pruned(ts), Site(name, args, Some(Copy(scope, Paste(kids)))), Without(ts, p));
      }
    case _ => PlacedAlone(Pruned(ts), s, Without(ts, p));
  }

  lemma PlacedAlone(ts: seq<Table>, s: Stmt, p: seq<ScopeId>)
    requires PlacedOne(ts, s, p)
    ensures Placed(ts, [s], p)
  {
  }

  // ----- the same definitions -----

  lemma {:induction false} LandsAppend(a: seq<Stmt>, b: seq<Stmt>, d: ScopeId)
    ensures Lands(a + b, d) == Lands(a, d) + Lands(b, d)
    decreases |a|
  {
    hide LandsOne;
    if a == [] {
      assert [] + b == b;
    } else {
      assert (a + b)[0] == a[0] && (a + b)[1..] == a[1..] + b;
      LandsAppend(a[1..], b, d);
    }
  }

  lemma {:induction false} PasteLands(stmts: seq<Stmt>, d: ScopeId)
    ensures Lands(Paste(stmts), d) == Lands(stmts, d)
    decreases stmts, 0
  {
    hide PasteOne, LandsOne;
    if stmts != [] {
      PasteOneLands(stmts[0], d);
      PasteLands(stmts[1..], d);
      LandsAppend(PasteOne(stmts[0]), Paste(stmts[1..]), d);
    }
  }

  lemma {:induction false} PasteOneLands(s: Stmt, d: ScopeId)
    ensures Lands(PasteOne(s), d) == LandsOne(s, d)
    decreases s, 1
  {
    match s
    case Inner(scope, kids) =>
      PasteLands(kids, scope);
      LandsAlone(Inner(scope, Paste(kids)), d);
    case Site(name, args, copy) =>
      if copy.None? {
        LandsAlone(s, d);
      } else {
        PasteLands(copy.value.kids, d);
        if args > 0 { LandsAlone(Site(name, args, Some(Copy(copy.value.scope, Paste(copy.value.kids)))), d); }
      }
    case _ => LandsAlone(s, d);
  }

  lemma LandsAlone(s: Stmt, d: ScopeId)
    ensures Lands([s], d) == LandsOne(s, d)
  {
    assert [s][1..] == [] && LandsOne(s, d) + [] == LandsOne(s, d);
  }

  /** The pass that defines names, on the pasted text. */
  lemma PastePopulates(ts: seq<Table>, stmts: seq<Stmt>, p: seq<ScopeId>)
    requires Steps(ts, p) && Placed(ts, stmts, p) && Argued(ts, stmts) && Falls(stmts, p[0]) && Holds(ts, p[0])
    ensures var (us, taken) := Populate(Paste(stmts), Without(ts, p), Pruned(ts));
      && (taken == 0 <==> Fits(ts, Lands(stmts, p[0])))
      && Gained(ts, us, Lands(stmts, p[0])) && Wider(Pruned(ts), us) && |us| == |ts| && SameParameters(Pruned(ts), us)
  {
    hide Placed, Argued, Falls, Paste, Lands, Gained, Fits;
    var q, vs := Without(ts, p), Pruned(ts);
    PastePlaced(ts, stmts, p);
    PasteLands(stmts, p[0]);
    assert q[0] == p[0];
    WithoutKnown(ts, p);
    HomeHere(vs, q);
    PopulateGains(Paste(stmts), q, vs, p[0]);
    var us := Populate(Paste(stmts), q, vs).0;
    SameLooks(ts, vs, us, Lands(stmts, p[0]));
  }

  lemma HomeHere(ts: seq<Table>, p: seq<ScopeId>)
    requires p != [] && Holds(ts, p[0])
    ensures Home(ts, p) == p[0]
  {
  }

  lemma {:induction false} WithoutKnown(ts: seq<Table>, p: seq<ScopeId>)
    requires forall i | 0 <= i < |p| :: p[i] < |ts|
    ensures forall i | 0 <= i < |Without(ts, p)| :: Without(ts, p)[i] < |ts|
    decreases |p|
  {
    if p != [] { WithoutKnown(ts, p[1..]); }
  }

  /** Parents do not matter to what scopes define. */
  lemma SameLooks(ts: seq<Table>, vs: seq<Table>, us: seq<Table>, ls: seq<Landing>)
    requires |ts| == |vs| && forall s | 0 <= s < |ts| :: vs[s].kind == ts[s].kind && vs[s].symbols == ts[s].symbols
    ensures Fits(vs, ls) <==> Fits(ts, ls)
    ensures Gained(vs, us, ls) ==> Gained(ts, us, ls)
  {
    assert forall s: ScopeId, n :: Look(vs, s, n) == Look(ts, s, n);
  }

  // ----- the same meanings -----

  /** What every use of a name means, in order. */
  function Uses(stmts: seq<Stmt>, p: seq<ScopeId>, ts: seq<Table>): seq<Option<Symbol>> {
    if stmts == [] then [] else UsesOne(stmts[0], p, ts) + Uses(stmts[1..], p, ts)
  }

  function UsesOne(s: Stmt, p: seq<ScopeId>, ts: seq<Table>): seq<Option<Symbol>> {
    match s
    case Ref(name) => [Nearest(ts, p, name)]
    case Inner(scope, kids) => Uses(kids, [scope] + p, ts)
    case Site(_, _, copy) => if copy.None? then [] else Uses(copy.value.kids, [copy.value.scope] + p, ts)
    case _ => []
  }

  lemma {:induction false} UsesAppend(a: seq<Stmt>, b: seq<Stmt>, p: seq<ScopeId>, ts: seq<Table>)
    ensures Uses(a + b, p, ts) == Uses(a, p, ts) + Uses(b, p, ts)
    decreases |a|
  {
    hide UsesOne;
    if a == [] {
      assert [] + b == b;
    } else {
      assert (a + b)[0] == a[0] && (a + b)[1..] == a[1..] + b;
      UsesAppend(a[1..], b, p, ts);
    }
  }

  lemma UsesAlone(s: Stmt, p: seq<ScopeId>, ts: seq<Table>)
    ensures Uses([s], p, ts) == UsesOne(s, p, ts)
  {
    assert [s][1..] == [] && UsesOne(s, p, ts) + [] == UsesOne(s, p, ts);
  }

  /** The tables hold the same symbols. */
  predicate SameSymbols(ts: seq<Table>, us: seq<Table>) {
    |ts| == |us| && forall s | 0 <= s < |ts| :: us[s].kind == ts[s].kind && us[s].symbols == ts[s].symbols
  }

  lemma {:induction false} NearestWithout(ts: seq<Table>, us: seq<Table>, p: seq<ScopeId>, name: string)
    requires SameSymbols(ts, us) && forall i | 0 <= i < |p| :: p[i] < |ts|
    ensures Nearest(us, Without(ts, p), name) == Nearest(ts, p, name)
    decreases |p|
  {
    if p != [] {
      NearestWithout(ts, us, p[1..], name);
      var rest := Without(ts, p[1..]);
      assert ([p[0]] + rest)[1..] == rest && [] + rest == rest;
    }
  }

  /** Every name, in the bodies and around them, means the same. */
  lemma {:induction false} PasteUses(ts: seq<Table>, us: seq<Table>, stmts: seq<Stmt>, p: seq<ScopeId>)
    requires SameSymbols(ts, us) && Placed(ts, stmts, p) && Argued(ts, stmts) && Known(ts, p)
    ensures Uses(Paste(stmts), Without(ts, p), us) == Uses(stmts, p, ts)
    decreases stmts, 0
  {
    hide PasteOne, UsesOne, PlacedOne, ArguedOne, SameSymbols;
    if stmts != [] {
      PasteOneUses(ts, us, stmts[0], p);
      PasteUses(ts, us, stmts[1..], p);
      UsesAppend(PasteOne(stmts[0]), Paste(stmts[1..]), Without(ts, p), us);
    }
  }

  lemma {:induction false} PasteOneUses(ts: seq<Table>, us: seq<Table>, s: Stmt, p: seq<ScopeId>)
    requires SameSymbols(ts, us) && PlacedOne(ts, s, p) && ArguedOne(ts, s) && Known(ts, p)
    ensures Uses(PasteOne(s), Without(ts, p), us) == UsesOne(s, p, ts)
    decreases s, 1
  {
    hide Placed, Argued, SameSymbols;
    match s
    case Inner(scope, kids) =>
      WithoutCons(ts, scope, p);
      PasteUses(ts, us, kids, [scope] + p);
      UsesAlone(Inner(scope, Paste(kids)), Without(ts, p), us);
    case Site(name, args, copy) =>
      var scope, kids := copy.value.scope, copy.value.kids;
      WithoutCons(ts, scope, p);
      PasteUses(ts, us, kids, [scope] + p);
      if args == 0 {
        assert [] + Without(ts, p) == Without(ts, p);
      } else {
        UsesAlone(Site(name, args, Some(Copy(scope, Paste(kids)))), Without(ts, p), us);
      }
    case Ref(name) =>
      NearestWithout(ts, us, p, name);
      UsesAlone(s, Without(ts, p), us);
    case _ => UsesAlone(s, Without(ts, p), us);
  }

  // ----- a module without errors -----

  /** The tables `us` with nothing defined but what `ts` defines: what the passes on the pasted text start from. */
  function Blank(ts: seq<Table>, us: seq<Table>): (bs: seq<Table>)
    ensures |bs| == |us| && Wider(us, bs) && SameParameters(us, bs)
    ensures forall s | 0 <= s < |us| && us[s].kind != TemplateParameter :: bs[s].symbols == if s < |ts| then ts[s].symbols else map[]
  {
    seq(|us|, i requires 0 <= i < |us| =>
      if us[i].kind == TemplateParameter then us[i] else us[i].(symbols := if i < |ts| then ts[i].symbols else map[]))
  }

  /** From tables that hold what `ts` held, nothing of the pasted text is in the way of anything else, and it
      leaves the symbols that expansion leaves. */
  lemma PastedGains(ts: seq<Table>, c: Course, p: seq<ScopeId>)
    requires c.Smooth? && p != [] && EnterGrew(ts, c, p, p[0]) && Steps(c.ts, p) && Holds(c.ts, p[0])
    ensures var b := Blank(ts, c.ts);
      var (us, taken) := Populate(Paste(c.stmts), Without(c.ts, p), Pruned(b));
      Placed(Pruned(b), Paste(c.stmts), Without(c.ts, p)) && taken == 0 && SameSymbols(c.ts, us)
  {
    hide Placed, Argued, Falls, Paste, Lands, Gained, Fits, Own, InCopies, Populate, Without;
    var b, ls, all := Blank(ts, c.ts), Own(c.stmts, p[0]) + InCopies(c.stmts, p[0]), Lands(c.stmts, p[0]);
    StaysPlaced(c.ts, b, c.stmts, p);
    StaysArgued(c.ts, b, c.stmts, p);
    SameDropped(c.ts, b, p);
    PastePlaced(b, c.stmts, p);
    PastePopulates(b, c.stmts, p);
    var us := Populate(Paste(c.stmts), Without(c.ts, p), Pruned(b)).0;
    Shuffle(c.stmts, p[0]);
    FitsShuffled(ts, ls, all);
    InCopiesKnown(c.ts, c.stmts, p, p[0]);
    FitsShuffledBlank(ts, c.ts, b, all, c.stmts, p);
    SameAfterwards(ts, c.ts, b, us, ls, all);
  }

  lemma SameDropped(ts: seq<Table>, us: seq<Table>, p: seq<ScopeId>)
    requires |ts| == |us| && Wider(ts, us) && SameParameters(ts, us) && Steps(ts, p)
    ensures Steps(us, p) && Without(us, p) == Without(ts, p)
  {
    WithoutSame(ts, us, p);
  }

  lemma {:induction false} WithoutSame(ts: seq<Table>, us: seq<Table>, p: seq<ScopeId>)
    requires |ts| == |us| && Wider(ts, us) && SameParameters(ts, us)
    ensures Without(us, p) == Without(ts, p)
    decreases |p|
  {
    if p != [] { WithoutSame(ts, us, p[1..]); }
  }

  lemma FitsShuffledBlank(ts: seq<Table>, vs: seq<Table>, b: seq<Table>, all: seq<Landing>, stmts: seq<Stmt>, p: seq<ScopeId>)
    requires b == Blank(ts, vs) && Fits(ts, all) && p != [] && all == Lands(stmts, p[0]) && Placed(vs, stmts, p) && Holds(vs, p[0])
    ensures Fits(b, all)
  {
    LandsKnown(vs, stmts, p, p[0]);
    assert forall i | 0 <= i < |all| :: Look(b, all[i].scope, all[i].name) == Look(ts, all[i].scope, all[i].name);
  }

  lemma SameAfterwards(ts: seq<Table>, vs: seq<Table>, b: seq<Table>, us: seq<Table>, ls: seq<Landing>, all: seq<Landing>)
    requires b == Blank(ts, vs) && |us| == |vs| && Wider(Pruned(b), us) && SameParameters(Pruned(b), us)
    requires Gained(ts, vs, ls) && Gained(b, us, all) && forall s: ScopeId, n :: IdOf(ls, s, n) == IdOf(all, s, n)
    ensures SameSymbols(vs, us)
  {
    forall s | 0 <= s < |vs| ensures us[s].kind == vs[s].kind && us[s].symbols == vs[s].symbols {
      if vs[s].kind != TemplateParameter {
        forall n ensures Look(us, s, n) == Look(vs, s, n) {
          assert Look(b, s, n) == Look(ts, s, n);
        }
        assert forall n | n in us[s].symbols :: Look(us, s, n).Some?;
        assert forall n | n in vs[s].symbols :: Look(vs, s, n).Some?;
        assert us[s].symbols.Keys == vs[s].symbols.Keys;
      }
    }
  }

  /** A module that is expanded without an error: the pasted text is populated without one, by one pass; the
      symbols are the same, and every name means the same. */
  lemma ExpandingIsPasting(g: Program, cs: seq<Code>, ts: seq<Table>)
    requires Sound(ts) && ModuleCourse(g, cs, ts).Smooth?
    ensures var c, p := ModuleCourse(g, cs, ts), [|ts|, WORLD];
      var b := Pruned(Blank(ts, c.ts));
      var (us, taken) := Populate(Paste(c.stmts), p, b);
      && Placed(b, Paste(c.stmts), p) && taken == 0
      && SameSymbols(c.ts, us) && Uses(Paste(c.stmts), p, us) == Uses(c.stmts, p, c.ts)
  {
    hide Paste, EnterGrew, Populate, Placed, Uses, Enter, SameSymbols;
    var c, p, ts1 := ModuleCourse(g, cs, ts), [|ts|, WORLD], ts + [Table(Global, Some(WORLD), map[])];
    ModuleGrows(g, cs, ts);
    GrewFacts(ts1, c, p);
    BlankModule(ts, c.ts);
    WithoutNone(c.ts, p);
    PastedGains(ts1, c, p);
    PasteUses(c.ts, Populate(Paste(c.stmts), p, Pruned(Blank(ts, c.ts))).0, c.stmts, p);
  }

  lemma {:induction false} WithoutNone(ts: seq<Table>, p: seq<ScopeId>)
    requires forall i | 0 <= i < |p| :: !Dropped(ts, p[i])
    ensures Without(ts, p) == p
    decreases |p|
  {
    if p != [] { WithoutNone(ts, p[1..]); }
  }

  lemma BlankModule(ts: seq<Table>, us: seq<Table>)
    ensures Blank(ts + [Table(Global, Some(WORLD), map[])], us) == Blank(ts, us)
  {
    var ts1 := ts + [Table(Global, Some(WORLD), map[])];
    forall s | 0 <= s < |us| ensures Blank(ts1, us)[s] == Blank(ts, us)[s] {
      assert us[s].kind != TemplateParameter ==> Blank(ts1, us)[s].symbols == Blank(ts, us)[s].symbols;
    }
  }

  lemma GrewFacts(ts: seq<Table>, c: Course, p: seq<ScopeId>)
    requires c.Smooth? && Known(ts, p) && EnterGrew(ts, c, p, p[0]) && forall i | 0 <= i < |p| :: ts[p[i]].kind != TemplateParameter
    ensures Steps(c.ts, p) && Holds(c.ts, p[0]) && Placed(c.ts, c.stmts, p) && Argued(c.ts, c.stmts)
    ensures forall i | 0 <= i < |p| :: !Dropped(c.ts, p[i])
  {
    hide Placed, Argued, Falls, Own, InCopies, Gained, Fits;
  }
}
