/** Symbol tables, the chains of parents they form, and the walk that builds the chains: a stack
    of scopes is pushed and popped along the tree, and namespaces are created on the way. */
module Scopes {
  import opened Common

  type ScopeId = nat

  datatype ScopeKind = Global | Local | Instance | Argument | TemplateParameter

  datatype Symbol = Definition(id: nat) | Namespace(scope: ScopeId) | TypeParameter

  datatype Table = Table(kind: ScopeKind, parent: Option<ScopeId>, symbols: map<string, Symbol>)

  /** The scope every chain ends in. */
  const WORLD: ScopeId := 0

  // ----- chains of parents and look-up -----

  /** `p` leads from its first scope to the world's scope, each scope being the parent of the one before. */
  predicate Chain(ts: seq<Table>, p: seq<ScopeId>) {
    && p != [] && p[|p| - 1] == WORLD
    && (forall i | 0 <= i < |p| :: p[i] < |ts|)
    && (forall i | 0 <= i < |p| - 1 :: ts[p[i]].parent == Some(p[i + 1]))
    && ts[WORLD].parent == None
  }

  /** There is a chain from `s`. */
  ghost predicate Rooted(ts: seq<Table>, s: ScopeId) {
    exists p :: Chain(ts, p) && p[0] == s
  }

  /** A scope has one chain, in which no scope comes twice. */
  lemma {:induction false} ChainUnique(ts: seq<Table>, p: seq<ScopeId>, q: seq<ScopeId>)
    requires Chain(ts, p) && Chain(ts, q) && p[0] == q[0]
    ensures p == q
    decreases |p|
  {
    assert |p| > 1 ==> ts[p[0]].parent == Some(p[1]);
    assert |q| > 1 ==> ts[q[0]].parent == Some(q[1]);
    if |p| > 1 && |q| > 1 {
      ChainUnique(ts, p[1..], q[1..]);
      assert p == [p[0]] + p[1..] && q == [q[0]] + q[1..];
    }
  }

  lemma ChainAcyclic(ts: seq<Table>, p: seq<ScopeId>, i: nat, j: nat)
    requires Chain(ts, p) && i < j < |p|
    ensures p[i] != p[j]
  {
    assert |p[i..]| != |p[j..]|;
    if p[i] == p[j] {
      ChainUnique(ts, p[i..], p[j..]);
    }
  }

  /** The nearest definition along a chain. */
  function Nearest(ts: seq<Table>, p: seq<ScopeId>, name: string): Option<Symbol> {
    if p == [] || p[0] >= |ts| then None
    else if name in ts[p[0]].symbols then Some(ts[p[0]].symbols[name])
    else Nearest(ts, p[1..], name)
  }

  /** The walk up the parents finds what the chain's nearest scope defines, and `None` only when no
      scope on the chain defines the name. */
  method FindInScopeOrParents(ts: seq<Table>, s: ScopeId, name: string, ghost p: seq<ScopeId>)
      returns (found: Option<Symbol>)
    requires Chain(ts, p) && p[0] == s
    ensures found == Nearest(ts, p, name)
    ensures found.None? ==> forall i | 0 <= i < |p| :: name !in ts[p[i]].symbols
    ensures found.Some? ==> exists i :: 0 <= i < |p| && name in ts[p[i]].symbols && found.value == ts[p[i]].symbols[name]
                                        && forall j | 0 <= j < i :: name !in ts[p[j]].symbols
  {
    var current := Some(s);
    ghost var i := 0;
    assert p[0..] == p;
    while current.Some?
      invariant 0 <= i <= |p| && (current.None? <==> i == |p|) && (current.Some? ==> i < |p| && current.value == p[i])
      invariant forall j | 0 <= j < i :: name !in ts[p[j]].symbols
      invariant Nearest(ts, p, name) == Nearest(ts, p[i..], name)
      decreases |p| - i
    {
      if name in ts[current.value].symbols {
        return Some(ts[current.value].symbols[name]);
      }
      assert p[i..][1..] == p[i + 1..];
      current := ts[current.value].parent;
      i := i + 1;
    }
    assert p[|p|..] == [];
    found := None;
  }

  // ----- the walk -----

  /** The part of the tree that has to do with scopes; a namespace name has at least one part. */
  datatype Tree =
    | Block(scope: ScopeId, kids: seq<Tree>)
    | Func(scope: ScopeId, body: Tree)
    | NamespaceBlock(first: string, more: seq<string>, kids: seq<Tree>)
    | Expansion(scope: ScopeId, kids: seq<Tree>)
    | Plain

  /** The scopes that belong to the nodes of a tree. */
  function ScopesOf(t: Tree): set<ScopeId> {
    match t
    case Block(s, kids) => {s} + ScopesOfAll(kids)
    case Func(s, body) => {s} + ScopesOf(body)
    case NamespaceBlock(_, _, kids) => ScopesOfAll(kids)
    case Expansion(s, kids) => {s} + ScopesOfAll(kids)
    case Plain => {}
  }

  function ScopesOfAll(ts: seq<Tree>): set<ScopeId> {
    if ts == [] then {} else ScopesOf(ts[0]) + ScopesOfAll(ts[1..])
  }

  /** No two nodes share a scope. */
  predicate Separate(t: Tree) {
    match t
    case Block(s, kids) => s !in ScopesOfAll(kids) && SeparateAll(kids)
    case Func(s, body) => s !in ScopesOf(body) && Separate(body)
    case NamespaceBlock(_, _, kids) => SeparateAll(kids)
    case Expansion(s, kids) => s !in ScopesOfAll(kids) && SeparateAll(kids)
    case Plain => true
  }

  predicate SeparateAll(kids: seq<Tree>) {
    && (forall i | 0 <= i < |kids| :: Separate(kids[i]))
    && (forall i, j | 0 <= i < j < |kids| :: ScopesOf(kids[i]) !! ScopesOf(kids[j]))
  }

  // ----- where the scopes of a tree belong -----

  /** A chain from the nearest scope that is not one of template parameters: where definitions land. */
  function Definitions(ts: seq<Table>, p: seq<ScopeId>): seq<ScopeId> {
    if p == [] || p[0] >= |ts| || ts[p[0]].kind != TemplateParameter then p else Definitions(ts, p[1..])
  }

  /** The walk up the parents to that scope, from the head of chain `p`. */
  method DefinitionScope(ts: seq<Table>, top: ScopeId, ghost p: seq<ScopeId>) returns (s: ScopeId)
    requires Sound(ts) && Chain(ts, p) && p[0] == top
    ensures Chain(ts, Definitions(ts, p)) && s == Definitions(ts, p)[0] && ts[s].kind != TemplateParameter
  {
    s := top;
    ghost var i := 0;
    assert p[0..] == p;
    while ts[s].kind == TemplateParameter
      invariant 0 <= i < |p| && s == p[i] && Definitions(ts, p) == Definitions(ts, p[i..])
      decreases |p| - i
    {
      assert i < |p| - 1 && ts[p[i]].parent == Some(p[i + 1]);
      assert p[i..][1..] == p[i + 1..];
      s := ts[s].parent.value;
      i := i + 1;
    }
    assert Chain(ts, p[i..]);
  }

  /** The chain reached from chain `p` through namespaces, by name. */
  function Descend(ts: seq<Table>, p: seq<ScopeId>, names: seq<string>): Option<seq<ScopeId>>
    decreases |names|
  {
    if names == [] then Some(p)
    else if p != [] && p[0] < |ts| && names[0] in ts[p[0]].symbols && ts[p[0]].symbols[names[0]].Namespace?
    then Descend(ts, [ts[p[0]].symbols[names[0]].scope] + p, names[1..])
    else None
  }

  /** Every scope in `t` has the scope around it as its parent, when `t` stands in the scope at the head of
      chain `p`.  Inside a namespace that is the scope its name leads to, however often it is reopened. */
  predicate Lexical(ts: seq<Table>, t: Tree, p: seq<ScopeId>) {
    match t
    case Block(s, kids) => Under(ts, s, p) && LexicalAll(ts, kids, [s] + p)
    case Func(s, body) => Under(ts, s, p) && Lexical(ts, body, [s] + p)
    case Expansion(s, kids) => Under(ts, s, p) && LexicalAll(ts, kids, [s] + p)
    case NamespaceBlock(first, more, kids) =>
      var q := Descend(ts, Definitions(ts, p), [first] + more);
      q.Some? && LexicalAll(ts, kids, q.value)
    case Plain => true
  }

  predicate LexicalAll(ts: seq<Table>, kids: seq<Tree>, p: seq<ScopeId>) {
    forall i | 0 <= i < |kids| :: Lexical(ts, kids[i], p)
  }

  predicate Under(ts: seq<Table>, s: ScopeId, p: seq<ScopeId>) {
    s < |ts| && p != [] && ts[s].parent == Some(p[0])
  }

  /** The scope at the head of each chain, with the scopes around it from the inside out. */
  function ChainsOf(ts: seq<Table>, t: Tree, p: seq<ScopeId>): set<seq<ScopeId>> {
    match t
    case Block(s, kids) => {[s] + p} + ChainsOfAll(ts, kids, [s] + p)
    case Func(s, body) => {[s] + p} + ChainsOf(ts, body, [s] + p)
    case Expansion(s, kids) => {[s] + p} + ChainsOfAll(ts, kids, [s] + p)
    case NamespaceBlock(first, more, kids) =>
      var q := Descend(ts, Definitions(ts, p), [first] + more);
      if q.Some? then ChainsOfAll(ts, kids, q.value) else {}
    case Plain => {}
  }

  function ChainsOfAll(ts: seq<Table>, kids: seq<Tree>, p: seq<ScopeId>): set<seq<ScopeId>> {
    if kids == [] then {} else ChainsOf(ts, kids[0], p) + ChainsOfAll(ts, kids[1..], p)
  }

  // ----- what the walk keeps -----

  /** The world's scope is there, and a namespace is a child of the scope that names it. */
  predicate Sound(ts: seq<Table>) {
    && |ts| > WORLD && ts[WORLD].parent == None && ts[WORLD].kind != TemplateParameter
    && (forall s, n | 0 <= s < |ts| && n in ts[s].symbols && ts[s].symbols[n].Namespace? :: Under(ts, ts[s].symbols[n].scope, [s]))
  }

  predicate NoDefinitions(ts: seq<Table>) {
    forall s, n | 0 <= s < |ts| && n in ts[s].symbols :: ts[s].symbols[n].Namespace?
  }

  /** Nothing that was there has changed: names, scopes and missing parents were added. */
  predicate Later(ts: seq<Table>, us: seq<Table>) {
    && |ts| <= |us|
    && (forall s | 0 <= s < |ts| :: us[s].kind == ts[s].kind && (ts[s].parent.Some? || s == WORLD ==> us[s].parent == ts[s].parent))
    && (forall s, n | 0 <= s < |ts| && n in ts[s].symbols :: n in us[s].symbols && us[s].symbols[n] == ts[s].symbols[n])
  }

  /** The scopes of namespaces are of kind Global, so definitions land in them. */
  predicate NamespacesGlobal(ts: seq<Table>) {
    forall s, n | 0 <= s < |ts| && n in ts[s].symbols && ts[s].symbols[n].Namespace? :: IsGlobal(ts, ts[s].symbols[n].scope)
  }

  predicate IsGlobal(ts: seq<Table>, s: ScopeId) {
    s < |ts| && ts[s].kind == Global
  }

  /** `us` is later, and of the old scopes only those in `scopes` may have been given a parent. */
  predicate Grown(ts: seq<Table>, us: seq<Table>, scopes: set<ScopeId>) {
    && Sound(us) && Later(ts, us) && (NoDefinitions(ts) ==> NoDefinitions(us)) && (NamespacesGlobal(ts) ==> NamespacesGlobal(us))
    && forall s | 0 <= s < |ts| && s !in scopes :: us[s].parent == ts[s].parent
  }

  /** The scope exists, and if it has a parent already it has a whole chain. */
  ghost predicate Placeable(ts: seq<Table>, s: ScopeId) {
    s < |ts| && (ts[s].parent.Some? ==> Rooted(ts, s))
  }

  /** None of the scopes has a parent yet. */
  predicate Unplaced(ts: seq<Table>, scopes: set<ScopeId>) {
    forall s | s in scopes :: s < |ts| && s != WORLD && ts[s].parent.None?
  }

  /** The tables with a namespace of that name in scope `s`: a new and empty one if there is no such name. */
  function WithNamespace(ts: seq<Table>, s: ScopeId, name: string): seq<Table>
    requires s < |ts|
  {
    if name in ts[s].symbols then ts
    else ts[s := ts[s].(symbols := ts[s].symbols[name := Namespace(|ts|)])] + [Table(Global, Some(s), map[])]
  }

  class ParentSetter {
    var tables: seq<Table>
    var stack: seq<ScopeId>

    /** Chain `p` starts at the top of the stack. */
    predicate Valid(p: seq<ScopeId>)
      reads this
    {
      Sound(tables) && stack != [] && Chain(tables, p) && p[0] == stack[|stack| - 1]
    }

    /** Give a scope the top of the stack as its parent, unless it has one. */
    method SetParent(s: ScopeId, ghost p: seq<ScopeId>)
      requires Valid(p) && Placeable(tables, s)
      modifies this`tables
      ensures Valid(p) && Grown(old(tables), tables, {s}) && Rooted(tables, s)
      ensures Unplaced(old(tables), {s}) ==> Under(tables, s, p)
      ensures !Unplaced(old(tables), {s}) ==> tables == old(tables)
    {
      if tables[s].parent.None? && s != WORLD {
        var top := stack[|stack| - 1];
        tables := tables[s := tables[s].(parent := Some(top))];
        ParentAdded(old(tables), tables, s, top);
        LaterChain(old(tables), tables, p);
        Extended(tables, s, p);
      } else {
        WorldRooted(tables);
      }
    }

    /** The nearest scope that is not one of template parameters. */
    method CurrentScope(ghost p: seq<ScopeId>) returns (s: ScopeId)
      requires Valid(p)
      ensures Chain(tables, Definitions(tables, p)) && s == Definitions(tables, p)[0] && tables[s].kind != TemplateParameter
    {
      s := DefinitionScope(tables, stack[|stack| - 1], p);
    }

    /** Find the namespace in the scope, or create it there; a symbol of another kind fails. */
    method DescendIntoNamespace(s: ScopeId, name: string) returns (ns: Option<ScopeId>)
      requires Sound(tables) && s < |tables|
      modifies this`tables
      ensures ns.None? <==> name in old(tables)[s].symbols && !old(tables)[s].symbols[name].Namespace?
      ensures ns.Some? ==> tables == WithNamespace(old(tables), s, name)
      ensures ns.None? ==> tables == old(tables)
      ensures |old(tables)| <= |tables|
      ensures ns.Some? ==> Grown(old(tables), tables, {}) && name in tables[s].symbols && tables[s].symbols[name] == Namespace(ns.value)
      ensures ns.Some? && name !in old(tables)[s].symbols ==>
        ns.value == |old(tables)| && |tables| == ns.value + 1 && tables[ns.value] == Table(Global, Some(s), map[])
    {
      if name in tables[s].symbols {
        var found := tables[s].symbols[name];
        ns := if found.Namespace? then Some(found.scope) else None;
      } else {
        var added := |tables|;
        tables := tables[s := tables[s].(symbols := tables[s].symbols[name := Namespace(added)])] + [Table(Global, Some(s), map[])];
        ns := Some(added);
      }
    }

    method PushNamespaces(first: string, more: seq<string>, ghost p: seq<ScopeId>) returns (ok: bool, ghost q: seq<ScopeId>)
      requires Valid(p)
      modifies this
      ensures ok ==>
        && Valid(q) && Grown(old(tables), tables, {})
        && Descend(tables, Definitions(tables, p), [first] + more) == Some(q)
        && |stack| == |old(stack)| + 1 + |more| && stack[..|old(stack)|] == old(stack)
        && (NamespacesGlobal(old(tables)) ==> Definitions(tables, q) == q)
      ensures NoDefinitions(old(tables)) ==> ok
    {
      hide NamespacesGlobal, IsGlobal, Grown, Chain, Sound, Later, Definitions, Descend, NoDefinitions, WithNamespace;
      var names := [first] + more;
      var current := CurrentScope(p);
      q := Definitions(tables, p);
      ghost var d := q;
      DescentStarts(tables, p);
      assert names[..0] == [];
      for i := 0 to |names|
        invariant Sound(tables) && Chain(tables, p) && Chain(tables, q) && Grown(old(tables), tables, {})
        invariant q != [] && q[0] == current < |tables|
        invariant Descend(tables, d, names[..i]) == Some(q)
        invariant |stack| == |old(stack)| + i && stack[..|old(stack)|] == old(stack) && (i > 0 ==> stack[|stack| - 1] == current)
        invariant i > 0 && NamespacesGlobal(old(tables)) ==> IsGlobal(tables, current)
      {
        ghost var before := tables;
        var ns := DescendIntoNamespace(current, names[i]);
        GrownNames(old(tables), before, {});
        if ns.None? {
          return false, q;
        }
        ghost var none: set<ScopeId> := {};
        GrownTrans(old(tables), before, tables, none, none);
        assert none + none == none;
        NamespaceEntered(before, tables, p, d, names, i, q, ns.value);
        EnteredGlobal(old(tables), tables, current, names[i], ns.value);
        current := ns.value;
        q := [current] + q;
        stack := stack + [current];
      }
      assert names[..|names|] == names;
      GrownDefinitions(old(tables), tables, {}, p);
      if IsGlobal(tables, q[0]) { GlobalHolds(tables, q); }
      ok := true;
    }

    /** A module: its own scope hangs from the world's, and the walk leaves every scope where it belongs. */
    method VisitModule(scope: ScopeId, kids: seq<Tree>) returns (ok: bool)
      requires Sound(tables) && stack == [] && forall s | s in ScopesOf(Block(scope, kids)) :: Placeable(tables, s)
      modifies this
      ensures ok ==> stack == [] && Grown(old(tables), tables, ScopesOf(Block(scope, kids)))
      ensures ok ==> forall s | s in ScopesOf(Block(scope, kids)) :: Rooted(tables, s)
      ensures ok && Unplaced(old(tables), ScopesOf(Block(scope, kids))) && Separate(Block(scope, kids)) ==>
        && Lexical(tables, Block(scope, kids), [WORLD])
        && (forall q | q in ChainsOf(tables, Block(scope, kids), [WORLD]) :: Chain(tables, q))
        && (NamespacesGlobal(old(tables)) ==> Members(tables, Block(scope, kids), [WORLD], [], [WORLD]))
      ensures NoDefinitions(old(tables)) ==> ok
    {
      hide Rooted, Chain, Sound, Later, LexicalAll, SeparateAll, Unplaced, Grown, NoDefinitions, NamespacesGlobal, Members, Placeable, Descend;
      WorldChain(tables);
      stack := [WORLD];
      SetParent(scope, [WORLD]);
      ghost var q := ChainAt(tables, scope, [WORLD]);
      ghost var after := tables;
      UnplacedParts(old(tables), {scope}, ScopesOfAll(kids));
      Elsewhere(old(tables), tables, {scope}, ScopesOfAll(kids));
      GrownNames(old(tables), tables, {scope});
      stack := [scope];
      ok := VisitAll(kids, q);
      stack := [];
      if ok {
        GrownTrans(old(tables), after, tables, {scope}, ScopesOfAll(kids));
        GrownRooted(after, tables, ScopesOfAll(kids), {scope});
        if Unplaced(old(tables), ScopesOf(Block(scope, kids))) && Separate(Block(scope, kids)) {
          UnderStays(after, tables, ScopesOfAll(kids), scope, [WORLD]);
          WorldChain(tables);
          ChainsAreLexical(tables, Block(scope, kids), [WORLD]);
          ModuleMembers(old(tables), tables, ScopesOf(Block(scope, kids)), Block(scope, kids));
        }
      }
    }

    /** One subtree: whatever was pushed is popped, and every scope in it gets a chain: the lexical one, if
        none of them had a parent before. */
    method Visit(t: Tree, ghost p: seq<ScopeId>) returns (ok: bool)
      requires Valid(p) && forall s | s in ScopesOf(t) :: Placeable(tables, s)
      modifies this
      ensures ok ==> Valid(p) && stack == old(stack) && Grown(old(tables), tables, ScopesOf(t))
      ensures ok ==> forall s | s in ScopesOf(t) :: Rooted(tables, s)
      ensures ok && Unplaced(old(tables), ScopesOf(t)) && Separate(t) ==> Lexical(tables, t, p)
      ensures NoDefinitions(old(tables)) ==> ok
      decreases t, 0
    {
      hide Rooted, Chain, Sound, Later, LexicalAll, SeparateAll, Unplaced, Grown, NoDefinitions, Placeable, Descend, Definitions;
      match t
      case Plain =>
        GrownSelf(tables);
        ok := true;
      case Block(s, kids) => ok := VisitIn(s, kids, p);
      case Expansion(s, kids) => ok := VisitIn(s, kids, p);
      case Func(s, body) => ok := VisitFunc(s, body, p);
      case NamespaceBlock(first, more, kids) => ok := VisitNamespace(first, more, kids, p);
    }

    method VisitFunc(s: ScopeId, body: Tree, ghost p: seq<ScopeId>) returns (ok: bool)
      requires Valid(p) && Placeable(tables, s) && forall x | x in ScopesOf(body) :: Placeable(tables, x)
      modifies this
      ensures ok ==> Valid(p) && stack == old(stack) && Grown(old(tables), tables, {s} + ScopesOf(body))
      ensures ok ==> Rooted(tables, s) && forall x | x in ScopesOf(body) :: Rooted(tables, x)
      ensures ok && Unplaced(old(tables), {s} + ScopesOf(body)) && s !in ScopesOf(body) && Separate(body) ==>
        Under(tables, s, p) && Lexical(tables, body, [s] + p)
      ensures NoDefinitions(old(tables)) ==> ok
      decreases body, 1
    {
      hide Rooted, Chain, Sound, Later, Lexical, Separate, Unplaced, Grown, NoDefinitions, Placeable;
      SetParent(s, p);
      ghost var q := ChainAt(tables, s, p);
      ghost var after := tables;
      UnplacedParts(old(tables), {s}, ScopesOf(body));
      Elsewhere(old(tables), tables, {s}, ScopesOf(body));
      GrownNames(old(tables), tables, {s});
      stack := stack + [s];
      ok := Visit(body, q);
      if ok {
        stack := stack[..|stack| - 1];
        GrownTrans(old(tables), after, tables, {s}, ScopesOf(body));
        GrownRooted(after, tables, ScopesOf(body), {s});
        GrownChain(after, tables, ScopesOf(body), p);
        if Under(after, s, p) { UnderStays(after, tables, ScopesOf(body), s, p); }
      }
    }

    method VisitIn(s: ScopeId, kids: seq<Tree>, ghost p: seq<ScopeId>) returns (ok: bool)
      requires Valid(p) && Placeable(tables, s) && forall x | x in ScopesOfAll(kids) :: Placeable(tables, x)
      modifies this
      ensures ok ==> Valid(p) && stack == old(stack) && Grown(old(tables), tables, {s} + ScopesOfAll(kids))
      ensures ok ==> Rooted(tables, s) && forall x | x in ScopesOfAll(kids) :: Rooted(tables, x)
      ensures ok && Unplaced(old(tables), {s} + ScopesOfAll(kids)) && s !in ScopesOfAll(kids) && SeparateAll(kids) ==>
        Under(tables, s, p) && LexicalAll(tables, kids, [s] + p)
      ensures NoDefinitions(old(tables)) ==> ok
      decreases kids, 1
    {
      hide Rooted, Chain, Sound, Later, LexicalAll, SeparateAll, Unplaced, Grown, NoDefinitions, Placeable;
      SetParent(s, p);
      ghost var q := ChainAt(tables, s, p);
      ghost var after := tables;
      UnplacedParts(old(tables), {s}, ScopesOfAll(kids));
      Elsewhere(old(tables), tables, {s}, ScopesOfAll(kids));
      GrownNames(old(tables), tables, {s});
      stack := stack + [s];
      ok := VisitAll(kids, q);
      if ok {
        stack := stack[..|stack| - 1];
        GrownTrans(old(tables), after, tables, {s}, ScopesOfAll(kids));
        GrownRooted(after, tables, ScopesOfAll(kids), {s});
        GrownChain(after, tables, ScopesOfAll(kids), p);
        if Under(after, s, p) { UnderStays(after, tables, ScopesOfAll(kids), s, p); }
      }
    }

    method VisitNamespace(first: string, more: seq<string>, kids: seq<Tree>, ghost p: seq<ScopeId>) returns (ok: bool)
      requires Valid(p) && forall x | x in ScopesOfAll(kids) :: Placeable(tables, x)
      modifies this
      ensures ok ==> Valid(p) && stack == old(stack) && Grown(old(tables), tables, ScopesOfAll(kids))
      ensures ok ==> forall x | x in ScopesOfAll(kids) :: Rooted(tables, x)
      ensures ok && Unplaced(old(tables), ScopesOfAll(kids)) && SeparateAll(kids) ==>
        Lexical(tables, NamespaceBlock(first, more, kids), p)
      ensures NoDefinitions(old(tables)) ==> ok
      decreases kids, 1
    {
      hide Rooted, Chain, Sound, Later, LexicalAll, SeparateAll, Unplaced, Grown, NoDefinitions, Placeable, Descend, Definitions;
      ghost var q;
      ok, q := PushNamespaces(first, more, p);
      ghost var after := tables;
      if ok {
        Elsewhere(old(tables), tables, {}, ScopesOfAll(kids));
        GrownNames(old(tables), tables, {});
        ok := VisitAll(kids, q);
        if ok {
          stack := stack[..|stack| - 1 - |more|];
          GrownTrans(old(tables), after, tables, {}, ScopesOfAll(kids));
          assert {} + ScopesOfAll(kids) == ScopesOfAll(kids);
          GrownChain(old(tables), after, {}, p);
          GrownChain(after, tables, ScopesOfAll(kids), p);
          DescendStays(after, tables, ScopesOfAll(kids), p, [first] + more);
        }
      }
    }

    method VisitAll(kids: seq<Tree>, ghost p: seq<ScopeId>) returns (ok: bool)
      requires Valid(p) && forall s | s in ScopesOfAll(kids) :: Placeable(tables, s)
      modifies this
      ensures ok ==> Valid(p) && stack == old(stack) && Grown(old(tables), tables, ScopesOfAll(kids))
      ensures ok ==> forall s | s in ScopesOfAll(kids) :: Rooted(tables, s)
      ensures ok && Unplaced(old(tables), ScopesOfAll(kids)) && SeparateAll(kids) ==> LexicalAll(tables, kids, p)
      ensures NoDefinitions(old(tables)) ==> ok
      decreases kids, 0
    {
      hide Rooted, Chain, Sound, Later, Lexical, SeparateAll, Unplaced, Grown, NoDefinitions, Placeable, ScopesOfAll;
      ghost var fresh_ := Unplaced(old(tables), ScopesOfAll(kids)) && SeparateAll(kids);
      ok := true;
      GrownSelf(tables);
      NoParts(kids);
      for i := 0 to |kids|
        invariant Valid(p) && stack == old(stack) && Grown(old(tables), tables, ScopesOfAll(kids[..i]))
        invariant forall s | s in ScopesOfAll(kids[..i]) :: Rooted(tables, s)
        invariant forall s | s in ScopesOfAll(kids[i..]) :: Placeable(tables, s)
        invariant fresh_ ==> Unplaced(tables, ScopesOfAll(kids[i..])) && forall j | 0 <= j < i :: Lexical(tables, kids[j], p)
      {
        ghost var before := tables;
        Parts(kids, i);
        UnplacedParts(tables, ScopesOf(kids[i]), ScopesOfAll(kids[i + 1..]));
        ok := Visit(kids[i], p);
        GrownNames(old(tables), before, ScopesOfAll(kids[..i]));
        if !ok {
          return;
        }
        GrownTrans(old(tables), before, tables, ScopesOfAll(kids[..i]), ScopesOf(kids[i]));
        Elsewhere(before, tables, ScopesOf(kids[i]), ScopesOfAll(kids[i + 1..]));
        GrownRooted(before, tables, ScopesOf(kids[i]), ScopesOfAll(kids[..i]));
        if fresh_ {
          Disjoint(kids, i);
          forall j | 0 <= j < i ensures Lexical(tables, kids[j], p) {
            LaterLexical(before, tables, ScopesOf(kids[i]), kids[j], p);
          }
        }
      }
      NoParts(kids);
    }
  }

  // ----- chains as tables grow -----

  lemma WorldChain(ts: seq<Table>)
    requires Sound(ts)
    ensures Chain(ts, [WORLD])
  {
  }

  lemma WorldRooted(ts: seq<Table>)
    requires Sound(ts)
    ensures Rooted(ts, WORLD)
  {
    assert Chain(ts, [WORLD]);
  }

  /** One scope more at the head of a chain. */
  lemma Extended(ts: seq<Table>, s: ScopeId, p: seq<ScopeId>)
    requires Chain(ts, p) && Under(ts, s, p)
    ensures Chain(ts, [s] + p) && Rooted(ts, s)
  {
    var q := [s] + p;
    assert forall i | 0 <= i < |q| - 1 :: ts[q[i]].parent == Some(q[i + 1]);
    assert Chain(ts, q);
  }

  /** The chain of a scope that has one, which is through `p` if the scope is under it. */
  ghost function ChainAt(ts: seq<Table>, s: ScopeId, p: seq<ScopeId>): (q: seq<ScopeId>)
    requires Rooted(ts, s) && Chain(ts, p)
    ensures Chain(ts, q) && q[0] == s && (Under(ts, s, p) ==> q == [s] + p)
  {
    var q :| Chain(ts, q) && q[0] == s;
    if Under(ts, s, p) then
      Extended(ts, s, p);
      [s] + p
    else q
  }

  lemma LaterChain(ts: seq<Table>, us: seq<Table>, p: seq<ScopeId>)
    requires Later(ts, us) && Chain(ts, p)
    ensures Chain(us, p)
  {
  }

  lemma {:induction false} LaterDefinitions(ts: seq<Table>, us: seq<Table>, p: seq<ScopeId>)
    requires Later(ts, us) && forall i | 0 <= i < |p| :: p[i] < |ts|
    ensures Definitions(us, p) == Definitions(ts, p)
    decreases |p|
  {
    if p != [] {
      LaterDefinitions(ts, us, p[1..]);
    }
  }

  lemma {:induction false} LaterDescend(ts: seq<Table>, us: seq<Table>, p: seq<ScopeId>, names: seq<string>)
    requires Later(ts, us) && Descend(ts, p, names).Some?
    ensures Descend(us, p, names) == Descend(ts, p, names)
    decreases |names|
  {
    if names != [] {
      LaterDescend(ts, us, [ts[p[0]].symbols[names[0]].scope] + p, names[1..]);
    }
  }

  lemma {:induction false} DescendOneMore(ts: seq<Table>, p: seq<ScopeId>, names: seq<string>, i: nat, q: seq<ScopeId>)
    requires i < |names| && Descend(ts, p, names[..i]) == Some(q) && q != [] && q[0] < |ts|
    requires names[i] in ts[q[0]].symbols && ts[q[0]].symbols[names[i]].Namespace?
    ensures Descend(ts, p, names[..i + 1]) == Some([ts[q[0]].symbols[names[i]].scope] + q)
    decreases i
  {
    if i == 0 {
      assert names[..1] == [names[0]] && [names[0]][1..] == [];
    } else {
      assert names[..i][1..] == names[1..][..i - 1] && names[..i + 1][1..] == names[1..][..i];
      DescendOneMore(ts, [ts[p[0]].symbols[names[0]].scope] + p, names[1..], i - 1, q);
    }
  }

  /** Through namespaces, a chain stays one. */
  lemma {:induction false} DescendChain(ts: seq<Table>, p: seq<ScopeId>, names: seq<string>)
    requires Sound(ts) && Chain(ts, p) && Descend(ts, p, names).Some?
    ensures Chain(ts, Descend(ts, p, names).value)
    decreases |names|
  {
    if names != [] {
      var c := ts[p[0]].symbols[names[0]].scope;
      assert Under(ts, c, [p[0]]);
      Extended(ts, c, p);
      DescendChain(ts, [c] + p, names[1..]);
    }
  }

  lemma {:induction false} DefinitionsChain(ts: seq<Table>, p: seq<ScopeId>)
    requires Sound(ts) && Chain(ts, p)
    ensures Chain(ts, Definitions(ts, p))
    decreases |p|
  {
    if ts[p[0]].kind == TemplateParameter {
      assert Chain(ts, p[1..]);
      DefinitionsChain(ts, p[1..]);
    }
  }

  lemma {:induction false} LaterLexical(ts: seq<Table>, us: seq<Table>, a: set<ScopeId>, t: Tree, p: seq<ScopeId>)
    requires Sound(ts) && Grown(ts, us, a) && Chain(ts, p) && Lexical(ts, t, p)
    ensures Lexical(us, t, p)
  {
    match t
    case Plain =>
    case Block(s, kids) =>
      Extended(ts, s, p);
      LaterLexicalAll(ts, us, a, kids, [s] + p);
    case Expansion(s, kids) =>
      Extended(ts, s, p);
      LaterLexicalAll(ts, us, a, kids, [s] + p);
    case Func(s, body) =>
      Extended(ts, s, p);
      LaterLexical(ts, us, a, body, [s] + p);
    case NamespaceBlock(first, more, kids) =>
      DescendStays(ts, us, a, p, [first] + more);
      DefinitionsChain(ts, p);
      DescendChain(ts, Definitions(ts, p), [first] + more);
      LaterLexicalAll(ts, us, a, kids, Descend(ts, Definitions(ts, p), [first] + more).value);
  }

  lemma {:induction false} LaterLexicalAll(ts: seq<Table>, us: seq<Table>, a: set<ScopeId>, kids: seq<Tree>, p: seq<ScopeId>)
    requires Sound(ts) && Grown(ts, us, a) && Chain(ts, p) && LexicalAll(ts, kids, p)
    ensures LexicalAll(us, kids, p)
  {
    forall i | 0 <= i < |kids| ensures Lexical(us, kids[i], p) {
      LaterLexical(ts, us, a, kids[i], p);
    }
  }

  lemma DescendStays(ts: seq<Table>, us: seq<Table>, a: set<ScopeId>, p: seq<ScopeId>, names: seq<string>)
    requires Grown(ts, us, a) && Chain(ts, p) && Descend(ts, Definitions(ts, p), names).Some?
    ensures Descend(us, Definitions(us, p), names) == Descend(ts, Definitions(ts, p), names)
  {
    LaterDefinitions(ts, us, p);
    LaterDescend(ts, us, Definitions(ts, p), names);
  }

  /** Where every scope is under the scope around it, the chain of parents of each scope is the lexical one:
      a look-up from it finds the nearest definition around it. */
  lemma {:induction false} ChainsAreLexical(ts: seq<Table>, t: Tree, p: seq<ScopeId>)
    requires Sound(ts) && Chain(ts, p) && Lexical(ts, t, p)
    ensures forall q | q in ChainsOf(ts, t, p) :: Chain(ts, q)
  {
    match t
    case Plain =>
    case Block(s, kids) =>
      Extended(ts, s, p);
      AllChainsAreLexical(ts, kids, [s] + p);
    case Expansion(s, kids) =>
      Extended(ts, s, p);
      AllChainsAreLexical(ts, kids, [s] + p);
    case Func(s, body) =>
      Extended(ts, s, p);
      ChainsAreLexical(ts, body, [s] + p);
    case NamespaceBlock(first, more, kids) =>
      DefinitionsChain(ts, p);
      DescendChain(ts, Definitions(ts, p), [first] + more);
      AllChainsAreLexical(ts, kids, Descend(ts, Definitions(ts, p), [first] + more).value);
  }

  lemma {:induction false} AllChainsAreLexical(ts: seq<Table>, kids: seq<Tree>, p: seq<ScopeId>)
    requires Sound(ts) && Chain(ts, p) && LexicalAll(ts, kids, p)
    ensures forall q | q in ChainsOfAll(ts, kids, p) :: Chain(ts, q)
  {
    if kids != [] {
      ChainsAreLexical(ts, kids[0], p);
      AllChainsAreLexical(ts, kids[1..], p);
    }
  }

  // ----- members of namespaces -----

  /** Every namespace in `t`, which stands at chain `p`, is reached by name from the chain `d` through the
      namespaces around it: `path` are their names, and they lead to where definitions at `p` land.  A scope of
      template parameters in between changes nothing; any other scope starts anew. */
  predicate Members(ts: seq<Table>, t: Tree, d: seq<ScopeId>, path: seq<string>, p: seq<ScopeId>) {
    match t
    case Block(s, kids) => if Passed(ts, s) then MembersAll(ts, kids, d, path, [s] + p) else MembersAll(ts, kids, [s] + p, [], [s] + p)
    case Expansion(s, kids) => if Passed(ts, s) then MembersAll(ts, kids, d, path, [s] + p) else MembersAll(ts, kids, [s] + p, [], [s] + p)
    case Func(s, body) => if Passed(ts, s) then Members(ts, body, d, path, [s] + p) else Members(ts, body, [s] + p, [], [s] + p)
    case NamespaceBlock(first, more, kids) =>
      var q := Descend(ts, d, path + ([first] + more));
      q.Some? && q == Descend(ts, Definitions(ts, p), [first] + more) && MembersAll(ts, kids, d, path + ([first] + more), q.value)
    case Plain => true
  }

  predicate MembersAll(ts: seq<Table>, kids: seq<Tree>, d: seq<ScopeId>, path: seq<string>, p: seq<ScopeId>) {
    forall i | 0 <= i < |kids| :: Members(ts, kids[i], d, path, p)
  }

  predicate Passed(ts: seq<Table>, s: ScopeId) {
    s < |ts| && ts[s].kind == TemplateParameter
  }

  lemma {:induction false} DescendAppend(ts: seq<Table>, d: seq<ScopeId>, a: seq<string>, b: seq<string>)
    requires Descend(ts, d, a).Some?
    ensures Descend(ts, d, a + b) == Descend(ts, Descend(ts, d, a).value, b)
    decreases |a|
  {
    if a == [] {
      assert a + b == b;
    } else {
      assert (a + b)[0] == a[0] && (a + b)[1..] == a[1..] + b;
      DescendAppend(ts, [ts[d[0]].symbols[a[0]].scope] + d, a[1..], b);
    }
  }

  /** Inside namespaces definitions land in them. */
  lemma {:induction false} DescendedDefinitions(ts: seq<Table>, d: seq<ScopeId>, names: seq<string>)
    requires NamespacesGlobal(ts) && Descend(ts, d, names).Some? && (names == [] ==> Definitions(ts, d) == d)
    ensures Definitions(ts, Descend(ts, d, names).value) == Descend(ts, d, names).value
    decreases |names|
  {
    if names != [] {
      var s := ts[d[0]].symbols[names[0]].scope;
      assert IsGlobal(ts, s);
      GlobalHolds(ts, [s] + d);
      DescendedDefinitions(ts, [s] + d, names[1..]);
    }
  }

  lemma DefinitionsPass(ts: seq<Table>, s: ScopeId, p: seq<ScopeId>)
    requires s < |ts|
    ensures Definitions(ts, [s] + p) == if Passed(ts, s) then Definitions(ts, p) else [s] + p
  {
    assert ([s] + p)[1..] == p;
  }

  /** Where scopes are lexical and namespaces global, namespaces inside namespaces are their members. */
  lemma {:induction false} NestedMembers(ts: seq<Table>, t: Tree, d: seq<ScopeId>, path: seq<string>, p: seq<ScopeId>)
    requires NamespacesGlobal(ts) && Lexical(ts, t, p) && Descend(ts, d, path) == Some(Definitions(ts, p))
    ensures Members(ts, t, d, path, p)
    decreases t, 0
  {
    match t
    case Plain =>
    case Block(s, kids) => KidsMembers(ts, kids, d, path, s, p);
    case Expansion(s, kids) => KidsMembers(ts, kids, d, path, s, p);
    case Func(s, body) =>
      DefinitionsPass(ts, s, p);
      if Passed(ts, s) { NestedMembers(ts, body, d, path, [s] + p); } else { NestedMembers(ts, body, [s] + p, [], [s] + p); }
    case NamespaceBlock(first, more, kids) =>
      var names := [first] + more;
      DescendAppend(ts, d, path, names);
      var q := Descend(ts, Definitions(ts, p), names).value;
      DescendedDefinitions(ts, Definitions(ts, p), names);
      AllNestedMembers(ts, kids, d, path + names, q);
  }

  lemma {:induction false} KidsMembers(ts: seq<Table>, kids: seq<Tree>, d: seq<ScopeId>, path: seq<string>, s: ScopeId, p: seq<ScopeId>)
    requires NamespacesGlobal(ts) && s < |ts| && LexicalAll(ts, kids, [s] + p) && Descend(ts, d, path) == Some(Definitions(ts, p))
    ensures if Passed(ts, s) then MembersAll(ts, kids, d, path, [s] + p) else MembersAll(ts, kids, [s] + p, [], [s] + p)
    decreases kids, 1
  {
    DefinitionsPass(ts, s, p);
    if Passed(ts, s) { AllNestedMembers(ts, kids, d, path, [s] + p); } else { AllNestedMembers(ts, kids, [s] + p, [], [s] + p); }
  }

  lemma {:induction false} AllNestedMembers(ts: seq<Table>, kids: seq<Tree>, d: seq<ScopeId>, path: seq<string>, p: seq<ScopeId>)
    requires NamespacesGlobal(ts) && LexicalAll(ts, kids, p) && Descend(ts, d, path) == Some(Definitions(ts, p))
    ensures MembersAll(ts, kids, d, path, p)
    decreases kids, 0
  {
    forall i | 0 <= i < |kids| ensures Members(ts, kids[i], d, path, p) {
      NestedMembers(ts, kids[i], d, path, p);
    }
  }

  lemma ModuleMembers(ts: seq<Table>, us: seq<Table>, a: set<ScopeId>, t: Tree)
    requires Grown(ts, us, a) && Lexical(us, t, [WORLD])
    ensures NamespacesGlobal(ts) ==> Members(us, t, [WORLD], [], [WORLD])
  {
    hide Members, Lexical, NamespacesGlobal, Later;
    assert us[WORLD].kind != TemplateParameter && Definitions(us, [WORLD]) == [WORLD];
    if NamespacesGlobal(ts) { NestedMembers(us, t, [WORLD], [], [WORLD]); }
  }

  /** Definitions land in the nearest scope that is not one of template parameters. */
  lemma {:induction false} DefinitionsNearest(ts: seq<Table>, p: seq<ScopeId>, i: nat)
    requires i < |p| && (forall j | 0 <= j <= i :: p[j] < |ts|) && ts[p[i]].kind != TemplateParameter
    requires forall j | 0 <= j < i :: ts[p[j]].kind == TemplateParameter
    ensures Definitions(ts, p) == p[i..]
    decreases i
  {
    if i > 0 {
      DefinitionsNearest(ts, p[1..], i - 1);
      assert p[1..][i - 1..] == p[i..];
    }
  }

  // ----- tables as the walk goes on -----

  lemma DescentStarts(ts: seq<Table>, p: seq<ScopeId>)
    requires Sound(ts) && Chain(ts, p)
    ensures Grown(ts, ts, {}) && Descend(ts, Definitions(ts, p), []) == Some(Definitions(ts, p))
    ensures Definitions(ts, p) != [] && Definitions(ts, p)[0] < |ts|
  {
    DefinitionsChain(ts, p);
  }

  lemma EnteredGlobal(ts: seq<Table>, us: seq<Table>, s: ScopeId, name: string, ns: ScopeId)
    requires Grown(ts, us, {}) && s < |us| && name in us[s].symbols && us[s].symbols[name] == Namespace(ns)
    ensures NamespacesGlobal(ts) ==> IsGlobal(us, ns)
  {
  }

  /** Definitions in a global scope land there. */
  lemma GlobalHolds(ts: seq<Table>, q: seq<ScopeId>)
    requires q != [] && IsGlobal(ts, q[0])
    ensures Definitions(ts, q) == q
  {
  }

  /** One namespace further down. */
  lemma NamespaceEntered(ts: seq<Table>, us: seq<Table>, p: seq<ScopeId>, d: seq<ScopeId>, names: seq<string>, i: nat, q: seq<ScopeId>,
      ns: ScopeId)
    requires Grown(ts, us, {}) && Chain(ts, p) && Chain(ts, q) && i < |names| && Descend(ts, d, names[..i]) == Some(q)
    requires names[i] in us[q[0]].symbols && us[q[0]].symbols[names[i]] == Namespace(ns)
    ensures Sound(us) && Chain(us, p) && Chain(us, [ns] + q) && Descend(us, d, names[..i + 1]) == Some([ns] + q) && ns < |us|
  {
    LaterChain(ts, us, p);
    LaterChain(ts, us, q);
    LaterDescend(ts, us, d, names[..i]);
    DescendOneMore(us, d, names, i, q);
    assert Under(us, ns, [q[0]]);
    Extended(us, ns, q);
  }

  lemma GrownDefinitions(ts: seq<Table>, us: seq<Table>, a: set<ScopeId>, p: seq<ScopeId>)
    requires Grown(ts, us, a) && Chain(ts, p)
    ensures Definitions(us, p) == Definitions(ts, p)
  {
    LaterDefinitions(ts, us, p);
  }

  lemma GrownSelf(ts: seq<Table>)
    requires Sound(ts)
    ensures Grown(ts, ts, {})
  {
  }

  lemma GrownTrans(ts: seq<Table>, us: seq<Table>, vs: seq<Table>, a: set<ScopeId>, b: set<ScopeId>)
    requires Grown(ts, us, a) && Grown(us, vs, b)
    ensures Grown(ts, vs, a + b)
  {
    hide NoDefinitions, Sound;
  }

  lemma GrownChain(ts: seq<Table>, us: seq<Table>, a: set<ScopeId>, p: seq<ScopeId>)
    requires Grown(ts, us, a) && Chain(ts, p)
    ensures Chain(us, p)
  {
    LaterChain(ts, us, p);
  }

  lemma GrownRooted(ts: seq<Table>, us: seq<Table>, a: set<ScopeId>, b: set<ScopeId>)
    requires Grown(ts, us, a) && forall s | s in b :: Rooted(ts, s)
    ensures forall s | s in b :: Rooted(us, s)
  {
    forall s | s in b ensures Rooted(us, s) {
      var p :| Chain(ts, p) && p[0] == s;
      LaterChain(ts, us, p);
    }
  }

  lemma UnderStays(ts: seq<Table>, us: seq<Table>, a: set<ScopeId>, s: ScopeId, p: seq<ScopeId>)
    requires Grown(ts, us, a) && Under(ts, s, p)
    ensures Under(us, s, p)
  {
  }

  lemma GrownNames(ts: seq<Table>, us: seq<Table>, a: set<ScopeId>)
    requires Grown(ts, us, a)
    ensures NoDefinitions(ts) ==> NoDefinitions(us)
  {
  }

  lemma UnplacedParts(ts: seq<Table>, a: set<ScopeId>, b: set<ScopeId>)
    ensures Unplaced(ts, a + b) <==> Unplaced(ts, a) && Unplaced(ts, b)
  {
  }

  /** What the placing of the scopes in `a` means for those in `b`. */
  lemma Elsewhere(ts: seq<Table>, us: seq<Table>, a: set<ScopeId>, b: set<ScopeId>)
    requires Grown(ts, us, a) && (forall s | s in a :: Rooted(us, s)) && forall s | s in b :: Placeable(ts, s)
    ensures forall s | s in b :: Placeable(us, s)
    ensures Unplaced(ts, b) && a !! b ==> Unplaced(us, b)
  {
    forall s | s in b && s !in a && us[s].parent.Some? ensures Rooted(us, s) {
      GrownRooted(ts, us, a, {s});
    }
  }

  /** A scope without a parent is on no chain but the world's, so giving it one breaks none. */
  lemma ParentAdded(ts: seq<Table>, us: seq<Table>, s: ScopeId, parent: ScopeId)
    requires Sound(ts) && s < |ts| && s != WORLD && ts[s].parent.None? && us == ts[s := ts[s].(parent := Some(parent))]
    ensures Grown(ts, us, {s})
  {
  }

  // ----- the scopes of a list of trees -----

  lemma {:induction false} ScopesOfSplit(kids: seq<Tree>, i: nat)
    requires i <= |kids|
    ensures ScopesOfAll(kids) == ScopesOfAll(kids[..i]) + ScopesOfAll(kids[i..])
  {
    if i == 0 {
      assert kids[..0] == [] && kids[0..] == kids;
    } else {
      ScopesOfSplit(kids[1..], i - 1);
      assert kids[..i][1..] == kids[1..][..i - 1] && kids[1..][i - 1..] == kids[i..];
    }
  }

  lemma Parts(kids: seq<Tree>, i: nat)
    requires i < |kids|
    ensures ScopesOfAll(kids[..i + 1]) == ScopesOfAll(kids[..i]) + ScopesOf(kids[i])
    ensures ScopesOfAll(kids[i..]) == ScopesOf(kids[i]) + ScopesOfAll(kids[i + 1..])
  {
    ScopesOfSplit(kids[..i + 1], i);
    assert kids[..i + 1][..i] == kids[..i] && kids[..i + 1][i..] == [kids[i]] && [kids[i]][1..] == [];
    assert kids[i..][1..] == kids[i + 1..];
  }

  lemma NoParts(kids: seq<Tree>)
    ensures ScopesOfAll(kids[..0]) == {} && kids[0..] == kids && kids[..|kids|] == kids
  {
  }

  lemma {:induction false} Disjoint(kids: seq<Tree>, i: nat)
    requires SeparateAll(kids) && i < |kids|
    ensures Separate(kids[i]) && ScopesOf(kids[i]) !! ScopesOfAll(kids[i + 1..])
  {
    DisjointFrom(kids, i, i + 1);
  }

  lemma {:induction false} DisjointFrom(kids: seq<Tree>, i: nat, j: nat)
    requires SeparateAll(kids) && i < j <= |kids|
    ensures ScopesOf(kids[i]) !! ScopesOfAll(kids[j..])
    decreases |kids| - j
  {
    if j < |kids| {
      DisjointFrom(kids, i, j + 1);
      assert kids[j..][1..] == kids[j + 1..] && kids[j..][0] == kids[j];
    }
  }
}
