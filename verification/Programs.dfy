/** Programs with templates, as text and as the trees the early passes work on: copying text into a
    tree whose scopes have parents, and defining the names in it. */
module Programs {
  import opened Common
  import opened Scopes

  /** Definitions, uses of names, scopes, and places where a template is expanded. */
  datatype Code =
    | Define(name: string, id: nat)
    | Use(name: string)
    | Scoped(body: seq<Code>)
    | Expand(name: string, args: nat)

  datatype Template = Template(name: string, params: seq<string>, body: seq<Code>)

  /** The templates, by the id of their definition. */
  type Program = map<nat, Template>

  /** The same as nodes.  A place where a template is expanded holds a copy of its body once it has
      been; the scope of its parameters is numbered with the copy. */
  datatype Stmt =
    | Def(name: string, id: nat)
    | Ref(name: string)
    | Inner(scope: ScopeId, kids: seq<Stmt>)
    | Site(name: string, args: nat, copy: Option<Copy>)

  datatype Copy = Copy(scope: ScopeId, kids: seq<Stmt>)

  // ----- new nodes -----

  /** A copy of `cs` under scope `parent`, each scope in it new and with the scope around it as its parent. */
  function Place(cs: seq<Code>, parent: ScopeId, ts: seq<Table>): (r: (seq<Stmt>, seq<Table>))
    ensures ts <= r.1
  {
    if cs == [] then ([], ts)
    else
      var (s, ts1) := PlaceOne(cs[0], parent, ts);
      var (rest, ts2) := Place(cs[1..], parent, ts1);
      ([s] + rest, ts2)
  }

  function PlaceOne(c: Code, parent: ScopeId, ts: seq<Table>): (r: (Stmt, seq<Table>))
    ensures ts <= r.1
  {
    match c
    case Define(name, id) => (Def(name, id), ts)
    case Use(name) => (Ref(name), ts)
    case Scoped(body) =>
      var (kids, ts1) := Place(body, |ts|, ts + [Table(Local, Some(parent), map[])]);
      (Inner(|ts|, kids), ts1)
    case Expand(name, args) => (Site(name, args, None), ts)
  }

  /** The parameters of a template, as symbols of the scope of an expansion. */
  function ParameterTable(params: seq<string>, parent: ScopeId): Table {
    Table(TemplateParameter, Some(parent), map n | n in params :: TypeParameter)
  }

  // ----- where nodes stand -----

  /** Every scope of the nodes has the scope around it as its parent; `p` is the chain they stand in. */
  predicate Placed(ts: seq<Table>, stmts: seq<Stmt>, p: seq<ScopeId>) {
    forall i | 0 <= i < |stmts| :: PlacedOne(ts, stmts[i], p)
  }

  predicate PlacedOne(ts: seq<Table>, s: Stmt, p: seq<ScopeId>) {
    match s
    case Inner(scope, kids) => Under(ts, scope, p) && ts[scope].kind != TemplateParameter && Placed(ts, kids, [scope] + p)
    case Site(_, _, copy) =>
      copy.Some? ==>
        && Under(ts, copy.value.scope, p) && ts[copy.value.scope].kind == TemplateParameter
        && Placed(ts, copy.value.kids, [copy.value.scope] + p)
    case _ => true
  }

  /** Nothing has been expanded. */
  predicate Unexpanded(stmts: seq<Stmt>) {
    forall i | 0 <= i < |stmts| :: UnexpandedOne(stmts[i])
  }

  predicate UnexpandedOne(s: Stmt) {
    match s
    case Inner(_, kids) => Unexpanded(kids)
    case Site(_, _, copy) => copy.None?
    case _ => true
  }

  /** Tables with more scopes, or other symbols. */
  predicate Wider(ts: seq<Table>, us: seq<Table>) {
    |ts| <= |us| && forall s | 0 <= s < |ts| :: us[s].kind == ts[s].kind && us[s].parent == ts[s].parent
  }

  lemma {:induction false} StaysPlaced(ts: seq<Table>, us: seq<Table>, stmts: seq<Stmt>, p: seq<ScopeId>)
    requires Wider(ts, us) && Placed(ts, stmts, p)
    ensures Placed(us, stmts, p)
    decreases stmts, 0
  {
    forall i | 0 <= i < |stmts| ensures PlacedOne(us, stmts[i], p) {
      StaysPlacedOne(ts, us, stmts[i], p);
    }
  }

  lemma {:induction false} StaysPlacedOne(ts: seq<Table>, us: seq<Table>, s: Stmt, p: seq<ScopeId>)
    requires Wider(ts, us) && PlacedOne(ts, s, p)
    ensures PlacedOne(us, s, p)
    decreases s, 1
  {
    match s
    case Inner(scope, kids) => StaysPlaced(ts, us, kids, [scope] + p);
    case Site(_, _, copy) =>
      if copy.Some? { StaysPlaced(ts, us, copy.value.kids, [copy.value.scope] + p); }
    case _ =>
  }

  lemma {:induction false} PlaceIsPlaced(cs: seq<Code>, p: seq<ScopeId>, ts: seq<Table>)
    requires p != []
    ensures var (stmts, us) := Place(cs, p[0], ts);
      Placed(us, stmts, p) && Unexpanded(stmts) && |stmts| == |cs|
    decreases cs, 0
  {
    hide PlaceOne, PlacedOne, UnexpandedOne;
    if cs != [] {
      var (s, ts1) := PlaceOne(cs[0], p[0], ts);
      var (rest, ts2) := Place(cs[1..], p[0], ts1);
      PlaceOneIsPlaced(cs[0], p, ts);
      PlaceIsPlaced(cs[1..], p, ts1);
      StaysPlacedOne(ts1, ts2, s, p);
    }
  }

  lemma {:induction false} PlaceOneIsPlaced(c: Code, p: seq<ScopeId>, ts: seq<Table>)
    requires p != []
    ensures var (s, us) := PlaceOne(c, p[0], ts);
      PlacedOne(us, s, p) && UnexpandedOne(s)
    decreases c, 1
  {
    match c
    case Scoped(body) =>
      PlaceIsPlaced(body, [|ts|] + p, ts + [Table(Local, Some(p[0]), map[])]);
    case _ =>
  }

  // ----- symbols -----

  function Look(ts: seq<Table>, s: ScopeId, name: string): Option<Symbol> {
    if s < |ts| && name in ts[s].symbols then Some(ts[s].symbols[name]) else None
  }

  function WithSymbol(ts: seq<Table>, s: ScopeId, name: string, symbol: Symbol): seq<Table> {
    if s < |ts| then ts[s := ts[s].(symbols := ts[s].symbols[name := symbol])] else ts
  }

  /** The scope in which a definition at chain `p` lands. */
  function Home(ts: seq<Table>, p: seq<ScopeId>): ScopeId {
    var q := Definitions(ts, p);
    if q == [] then WORLD else q[0]
  }

  /** The pass that defines names: the tables it leaves, and how many names were taken already. */
  function Populate(stmts: seq<Stmt>, p: seq<ScopeId>, ts: seq<Table>): (seq<Table>, nat) {
    if stmts == [] then (ts, 0)
    else
      var (ts1, n) := PopulateOne(stmts[0], p, ts);
      var (ts2, m) := Populate(stmts[1..], p, ts1);
      (ts2, n + m)
  }

  function PopulateOne(s: Stmt, p: seq<ScopeId>, ts: seq<Table>): (seq<Table>, nat) {
    match s
    case Def(name, id) =>
      if Look(ts, Home(ts, p), name).Some? then (ts, 1) else (WithSymbol(ts, Home(ts, p), name, Definition(id)), 0)
    case Ref(_) => (ts, 0)
    case Inner(scope, kids) => Populate(kids, [scope] + p, ts)
    case Site(_, _, copy) => if copy.None? then (ts, 0) else Populate(copy.value.kids, [copy.value.scope] + p, ts)
  }

  // ----- what is defined where -----

  /** A definition and the scope it lands in. */
  datatype Landing = Landing(scope: ScopeId, name: string, id: nat)

  /** The definitions in textual order, copies of bodies included, where `d` is the scope around. */
  function Lands(stmts: seq<Stmt>, d: ScopeId): seq<Landing> {
    if stmts == [] then [] else LandsOne(stmts[0], d) + Lands(stmts[1..], d)
  }

  function LandsOne(s: Stmt, d: ScopeId): seq<Landing> {
    match s
    case Def(name, id) => [Landing(d, name, id)]
    case Ref(_) => []
    case Inner(scope, kids) => Lands(kids, scope)
    case Site(_, _, copy) => if copy.None? then [] else Lands(copy.value.kids, d)
  }

  /** Define all of them, in this order. */
  function Settle(ts: seq<Table>, ls: seq<Landing>): (seq<Table>, nat)
    decreases |ls|
  {
    if ls == [] then (ts, 0)
    else if Look(ts, ls[0].scope, ls[0].name).Some? then
      var (us, n) := Settle(ts, ls[1..]);
      (us, n + 1)
    else Settle(WithSymbol(ts, ls[0].scope, ls[0].name, Definition(ls[0].id)), ls[1..])
  }

  lemma {:induction false} SettleAppend(ts: seq<Table>, a: seq<Landing>, b: seq<Landing>)
    ensures Settle(ts, a + b) == var (us, n) := Settle(ts, a); var (vs, m) := Settle(us, b); (vs, n + m)
    decreases |a|
  {
    if a == [] {
      assert [] + b == b;
    } else {
      assert (a + b)[0] == a[0] && (a + b)[1..] == a[1..] + b;
      SettleAppend(if Look(ts, a[0].scope, a[0].name).Some? then ts else WithSymbol(ts, a[0].scope, a[0].name, Definition(a[0].id)), a[1..], b);
    }
  }

  /** Symbols do not matter to where definitions land, nor do new scopes. */
  lemma {:induction false} HomeStays(ts: seq<Table>, us: seq<Table>, p: seq<ScopeId>)
    requires Wider(ts, us) && forall i | 0 <= i < |p| :: p[i] < |ts|
    ensures Home(us, p) == Home(ts, p) && Definitions(us, p) == Definitions(ts, p)
    decreases |p|
  {
    if p != [] { HomeStays(ts, us, p[1..]); }
  }

  lemma HomeInside(ts: seq<Table>, s: ScopeId, p: seq<ScopeId>)
    requires s < |ts|
    ensures Home(ts, [s] + p) == if ts[s].kind == TemplateParameter then Home(ts, p) else s
  {
    assert ([s] + p)[1..] == p;
  }

  lemma SettleWider(ts: seq<Table>, ls: seq<Landing>)
    ensures Wider(ts, Settle(ts, ls).0) && |Settle(ts, ls).0| == |ts|
    decreases |ls|
  {
    if ls != [] {
      var us := WithSymbol(ts, ls[0].scope, ls[0].name, Definition(ls[0].id));
      SettleWider(ts, ls[1..]);
      SettleWider(us, ls[1..]);
    }
  }

  /** The pass defines what there is to define, in textual order. */
  lemma {:induction false} PopulateSettles(stmts: seq<Stmt>, p: seq<ScopeId>, ts: seq<Table>)
    requires Placed(ts, stmts, p) && forall i | 0 <= i < |p| :: p[i] < |ts|
    ensures Populate(stmts, p, ts) == Settle(ts, Lands(stmts, Home(ts, p)))
    decreases stmts, 0
  {
    hide PopulateOne, LandsOne, PlacedOne, Home, Settle;
    if stmts == [] {
      SettleNone(ts);
    } else {
      var d := Home(ts, p);
      PopulateOneSettles(stmts[0], p, ts);
      var ts1 := PopulateOne(stmts[0], p, ts).0;
      SettleWider(ts, LandsOne(stmts[0], d));
      StaysPlaced(ts, ts1, stmts[1..], p);
      HomeStays(ts, ts1, p);
      PopulateSettles(stmts[1..], p, ts1);
      SettleAppend(ts, LandsOne(stmts[0], d), Lands(stmts[1..], d));
    }
  }

  lemma SettleNone(ts: seq<Table>)
    ensures Settle(ts, []) == (ts, 0)
  {
  }

  lemma {:induction false} PopulateOneSettles(s: Stmt, p: seq<ScopeId>, ts: seq<Table>)
    requires PlacedOne(ts, s, p) && forall i | 0 <= i < |p| :: p[i] < |ts|
    ensures PopulateOne(s, p, ts) == Settle(ts, LandsOne(s, Home(ts, p)))
    decreases s, 1
  {
    hide Home, Populate, Lands, Placed;
    match s
    case Def(name, id) =>
      var l := Landing(Home(ts, p), name, id);
      assert [l][1..] == [];
    case Ref(_) =>
    case Inner(scope, kids) =>
      HomeInside(ts, scope, p);
      PopulateSettles(kids, [scope] + p, ts);
    case Site(_, _, copy) =>
      if copy.Some? {
        HomeInside(ts, copy.value.scope, p);
        PopulateSettles(copy.value.kids, [copy.value.scope] + p, ts);
      }
  }

  /** Definitions land in scopes that hold definitions. */
  lemma {:induction false} LandsKnown(ts: seq<Table>, stmts: seq<Stmt>, p: seq<ScopeId>, d: ScopeId)
    requires Placed(ts, stmts, p) && d < |ts| && ts[d].kind != TemplateParameter
    ensures forall i | 0 <= i < |Lands(stmts, d)| :: Lands(stmts, d)[i].scope < |ts| && ts[Lands(stmts, d)[i].scope].kind != TemplateParameter
    decreases stmts, 0
  {
    hide PlacedOne, LandsOne;
    if stmts != [] {
      LandsOneKnown(ts, stmts[0], p, d);
      LandsKnown(ts, stmts[1..], p, d);
    }
  }

  lemma {:induction false} LandsOneKnown(ts: seq<Table>, s: Stmt, p: seq<ScopeId>, d: ScopeId)
    requires PlacedOne(ts, s, p) && d < |ts| && ts[d].kind != TemplateParameter
    ensures forall i | 0 <= i < |LandsOne(s, d)| :: LandsOne(s, d)[i].scope < |ts| && ts[LandsOne(s, d)[i].scope].kind != TemplateParameter
    decreases s, 1
  {
    match s
    case Inner(scope, kids) => LandsKnown(ts, kids, [scope] + p, scope);
    case Site(_, _, copy) => if copy.Some? { LandsKnown(ts, copy.value.kids, [copy.value.scope] + p, d); }
    case _ =>
  }

  // ----- conflicts, and the order of definitions -----

  /** The name that the landings give a scope, if any. */
  function IdOf(ls: seq<Landing>, s: ScopeId, name: string): Option<Symbol> {
    if ls == [] then None
    else if ls[0].scope == s && ls[0].name == name then Some(Definition(ls[0].id))
    else IdOf(ls[1..], s, name)
  }

  predicate SameKey(a: Landing, b: Landing) {
    a.scope == b.scope && a.name == b.name
  }

  /** No name is taken, and none is defined twice in a scope. */
  predicate Fits(ts: seq<Table>, ls: seq<Landing>) {
    && (forall i | 0 <= i < |ls| :: Look(ts, ls[i].scope, ls[i].name).None?)
    && (forall i, j | 0 <= i < j < |ls| :: !SameKey(ls[i], ls[j]))
  }

  function Or(a: Option<Symbol>, b: Option<Symbol>): Option<Symbol> {
    if a.Some? then a else b
  }

  /** In the scopes that hold definitions, `us` has the symbols of `ts` and those of the landings. */
  ghost predicate Gained(ts: seq<Table>, us: seq<Table>, ls: seq<Landing>) {
    && (forall s: ScopeId, n | s < |us| && us[s].kind != TemplateParameter :: Look(us, s, n) == Or(Look(ts, s, n), IdOf(ls, s, n)))
    && (forall i | 0 <= i < |ls| :: ls[i].scope < |us| && us[ls[i].scope].kind != TemplateParameter)
  }

  lemma {:induction false} IdOfAppend(a: seq<Landing>, b: seq<Landing>, s: ScopeId, name: string)
    ensures IdOf(a + b, s, name) == Or(IdOf(a, s, name), IdOf(b, s, name))
    decreases |a|
  {
    if a == [] {
      assert [] + b == b;
    } else {
      assert (a + b)[0] == a[0] && (a + b)[1..] == a[1..] + b;
      IdOfAppend(a[1..], b, s, name);
    }
  }

  /** A landing with the key is there exactly when there is an id; without conflicts it is that one. */
  lemma {:induction false} IdOfFinds(ls: seq<Landing>, s: ScopeId, name: string)
    ensures IdOf(ls, s, name).Some? <==> exists i :: 0 <= i < |ls| && ls[i].scope == s && ls[i].name == name
    ensures IdOf(ls, s, name).Some? ==> exists i :: 0 <= i < |ls| && ls[i].scope == s && ls[i].name == name && IdOf(ls, s, name) == Some(Definition(ls[i].id))
    decreases |ls|
  {
    if ls != [] {
      IdOfFinds(ls[1..], s, name);
      if ls[0].scope == s && ls[0].name == name {
      } else if i :| 0 <= i < |ls[1..]| && ls[1..][i].scope == s && ls[1..][i].name == name && IdOf(ls[1..], s, name) == Some(Definition(ls[1..][i].id)) {
        assert ls[i + 1] == ls[1..][i];
      }
      forall i | 0 <= i < |ls| && ls[i].scope == s && ls[i].name == name ensures IdOf(ls, s, name).Some? {
        if i > 0 { assert ls[1..][i - 1] == ls[i]; }
      }
    }
  }

  lemma OnlyId(ts: seq<Table>, ls: seq<Landing>, l: Landing)
    requires Fits(ts, ls) && l in ls
    ensures IdOf(ls, l.scope, l.name) == Some(Definition(l.id)) && Look(ts, l.scope, l.name).None?
  {
    IdOfFinds(ls, l.scope, l.name);
    var j :| 0 <= j < |ls| && ls[j] == l;
    var i :| 0 <= i < |ls| && ls[i].scope == l.scope && ls[i].name == l.name && IdOf(ls, l.scope, l.name) == Some(Definition(ls[i].id));
    assert i < j ==> !SameKey(ls[i], ls[j]);
    assert j < i ==> !SameKey(ls[j], ls[i]);
  }

  /** Settling fails nowhere exactly when everything fits. */
  lemma {:induction false} SettleExactly(ts: seq<Table>, ls: seq<Landing>)
    requires forall i | 0 <= i < |ls| :: ls[i].scope < |ts|
    ensures Settle(ts, ls).1 == 0 <==> Fits(ts, ls)
    ensures forall s: ScopeId, n :: Look(Settle(ts, ls).0, s, n) == Or(Look(ts, s, n), IdOf(ls, s, n))
    decreases |ls|
  {
    if ls != [] {
      var l := ls[0];
      var us := if Look(ts, l.scope, l.name).Some? then ts else WithSymbol(ts, l.scope, l.name, Definition(l.id));
      SettleExactly(us, ls[1..]);
      assert forall i | 0 <= i < |ls[1..]| :: ls[1..][i] == ls[i + 1];
      if Look(ts, l.scope, l.name).None? {
        FitsStep(ts, us, ls);
      }
    }
  }

  lemma FitsStep(ts: seq<Table>, us: seq<Table>, ls: seq<Landing>)
    requires ls != [] && ls[0].scope < |ts| && Look(ts, ls[0].scope, ls[0].name).None?
    requires us == WithSymbol(ts, ls[0].scope, ls[0].name, Definition(ls[0].id))
    ensures Fits(us, ls[1..]) <==> Fits(ts, ls)
  {
    var rest := ls[1..];
    assert forall i | 0 <= i < |rest| :: rest[i] == ls[i + 1];
    assert forall i | 0 < i < |ls| :: ls[i] == rest[i - 1];
    assert forall i | 0 <= i < |rest| :: Look(us, rest[i].scope, rest[i].name).None? <==> Look(ts, rest[i].scope, rest[i].name).None? && !SameKey(ls[0], rest[i]);
    if Fits(us, rest) {
      forall i, j | 0 <= i < j < |ls| ensures !SameKey(ls[i], ls[j]) {
        if i > 0 { assert !SameKey(rest[i - 1], rest[j - 1]); }
      }
    }
  }

  /** Two runs of definitions, one after the other. */
  lemma GainedAppend(ts: seq<Table>, us: seq<Table>, vs: seq<Table>, a: seq<Landing>, b: seq<Landing>)
    requires Gained(ts, us, a) && Gained(us, vs, b) && Wider(us, vs) && |ts| <= |us|
    ensures Gained(ts, vs, a + b)
  {
    forall s: ScopeId, n | s < |vs| && vs[s].kind != TemplateParameter ensures Look(vs, s, n) == Or(Look(ts, s, n), IdOf(a + b, s, n)) {
      IdOfAppend(a, b, s, n);
      IdOfFinds(a, s, n);
    }
  }

  lemma FitsAppend(ts: seq<Table>, us: seq<Table>, a: seq<Landing>, b: seq<Landing>)
    requires Gained(ts, us, a)
    requires forall i | 0 <= i < |b| :: b[i].scope < |us| ==> us[b[i].scope].kind != TemplateParameter
    requires forall i | 0 <= i < |b| :: b[i].scope >= |us| ==> Look(ts, b[i].scope, b[i].name).None?
    ensures Fits(ts, a + b) <==> Fits(ts, a) && Fits(us, b)
  {
    var c := a + b;
    assert forall i | 0 <= i < |a| :: c[i] == a[i];
    assert forall i | 0 <= i < |b| :: c[|a| + i] == b[i];
    forall i | 0 <= i < |b|
      ensures Look(us, b[i].scope, b[i].name).None? <==> Look(ts, b[i].scope, b[i].name).None? && forall k | 0 <= k < |a| :: !SameKey(a[k], b[i]) {
      IdOfFinds(a, b[i].scope, b[i].name);
    }
    if Fits(ts, a) && Fits(us, b) {
      forall i, j | 0 <= i < j < |c| ensures !SameKey(c[i], c[j]) {
        if j < |a| { assert !SameKey(a[i], a[j]); }
        else if i >= |a| { assert !SameKey(b[i - |a|], b[j - |a|]); }
        else { assert !SameKey(a[i], b[j - |a|]); }
      }
    }
    if Fits(ts, c) {
      forall i, j | 0 <= i < j < |b| ensures !SameKey(b[i], b[j]) {
        assert !SameKey(c[|a| + i], c[|a| + j]);
      }
      forall i, k | 0 <= i < |b| && 0 <= k < |a| ensures !SameKey(a[k], b[i]) {
        assert !SameKey(c[k], c[|a| + i]);
      }
      forall i | 0 <= i < |b| ensures Look(ts, b[i].scope, b[i].name).None? {
        assert Look(ts, c[|a| + i].scope, c[|a| + i].name).None?;
      }
    }
  }
}
