/** Looking up a qualified name: its first part through the parents, the others through namespaces. */
module QualifiedNames {
  import opened Common
  import opened Scopes

  datatype SearchError =
    | SymbolNotDefined
    | NamespaceDoesNotExist
    | IdentifierIsNotNamespace
    | ChildNamespaceDoesNotExist
    | MemberOfNamespaceIsNotNamespace
    | NamespaceMemberDoesNotExist

  /** The symbol, or what is wrong with which part of the name. */
  datatype Search = Found(symbol: Symbol) | Failed(error: SearchError, part: nat)

  function Qualified(ts: seq<Table>, p: seq<ScopeId>, names: seq<string>): Search
    requires names != []
  {
    match Nearest(ts, p, names[0])
    case None => Failed(if |names| == 1 then SymbolNotDefined else NamespaceDoesNotExist, 0)
    case Some(symbol) =>
      if |names| == 1 then Found(symbol)
      else if !symbol.Namespace? then Failed(IdentifierIsNotNamespace, 0)
      else Inside(ts, symbol.scope, names, 1)
  }

  /** From part `k` on, in the scope `s` of a namespace. */
  function Inside(ts: seq<Table>, s: ScopeId, names: seq<string>, k: nat): Search
    requires k < |names|
    decreases |names| - k
  {
    if s < |ts| && names[k] in ts[s].symbols then
      var symbol := ts[s].symbols[names[k]];
      if k == |names| - 1 then Found(symbol)
      else if !symbol.Namespace? then Failed(MemberOfNamespaceIsNotNamespace, k)
      else Inside(ts, symbol.scope, names, k + 1)
    else Failed(if k == |names| - 1 then NamespaceMemberDoesNotExist else ChildNamespaceDoesNotExist, k)
  }

  method FindQualifiedSymbol(ts: seq<Table>, s: ScopeId, names: seq<string>, ghost p: seq<ScopeId>) returns (r: Search)
    requires Sound(ts) && Chain(ts, p) && p[0] == s && names != []
    ensures r == Qualified(ts, p, names)
  {
    var first := FindInScopeOrParents(ts, s, names[0], p);
    if |names| == 1 {
      return if first.Some? then Found(first.value) else Failed(SymbolNotDefined, 0);
    }
    if first.None? {
      return Failed(NamespaceDoesNotExist, 0);
    }
    if !first.value.Namespace? {
      return Failed(IdentifierIsNotNamespace, 0);
    }
    NearestIsSound(ts, p, names[0]);
    var current: ScopeId := first.value.scope;
    for k: nat := 1 to |names| - 1
      invariant 0 <= current < |ts| && Inside(ts, current, names, k) == Qualified(ts, p, names)
    {
      if names[k] !in ts[current].symbols {
        return Failed(ChildNamespaceDoesNotExist, k);
      }
      var symbol := ts[current].symbols[names[k]];
      if !symbol.Namespace? {
        return Failed(MemberOfNamespaceIsNotNamespace, k);
      }
      assert Under(ts, symbol.scope, [current]);
      current := symbol.scope;
    }
    var last := |names| - 1;
    r := if names[last] in ts[current].symbols then Found(ts[current].symbols[names[last]]) else Failed(NamespaceMemberDoesNotExist, last);
  }

  lemma {:induction false} NearestIsSound(ts: seq<Table>, p: seq<ScopeId>, name: string)
    requires Sound(ts)
    ensures var f := Nearest(ts, p, name); f.Some? && f.value.Namespace? ==> f.value.scope < |ts|
    decreases p
  {
    if p != [] && p[0] < |ts| {
      if name in ts[p[0]].symbols {
        assert ts[p[0]].symbols[name].Namespace? ==> Under(ts, ts[p[0]].symbols[name].scope, [p[0]]);
      } else {
        NearestIsSound(ts, p[1..], name);
      }
    }
  }

  lemma {:induction false} InsideDescends(ts: seq<Table>, p: seq<ScopeId>, names: seq<string>, k: nat)
    requires k < |names| && p != []
    ensures var d, last := Descend(ts, p, names[k..|names| - 1]), names[|names| - 1];
            Inside(ts, p[0], names, k).Found? <==> d.Some? && d.value != [] && d.value[0] < |ts| && last in ts[d.value[0]].symbols
    ensures var d, last := Descend(ts, p, names[k..|names| - 1]), names[|names| - 1];
            Inside(ts, p[0], names, k).Found? ==> Inside(ts, p[0], names, k).symbol == ts[d.value[0]].symbols[last]
    decreases |names| - k
  {
    var middle := names[k..|names| - 1];
    if k < |names| - 1 {
      assert middle[0] == names[k] && middle[1..] == names[k + 1..|names| - 1];
      if p[0] < |ts| && names[k] in ts[p[0]].symbols && ts[p[0]].symbols[names[k]].Namespace? {
        InsideDescends(ts, [ts[p[0]].symbols[names[k]].scope] + p, names, k + 1);
      }
    }
  }

  /** Whatever is in a namespace is found by its qualified name, from every scope from which the first
      part is not hidden by a nearer definition. */
  lemma MembersAreFound(ts: seq<Table>, p: seq<ScopeId>, names: seq<string>, q: seq<ScopeId>, name: string, from: seq<ScopeId>)
    requires p != [] && p[0] < |ts| && names != [] && Descend(ts, p, names) == Some(q)
    requires q != [] && q[0] < |ts| && name in ts[q[0]].symbols
    requires names[0] in ts[p[0]].symbols && Nearest(ts, from, names[0]) == Some(ts[p[0]].symbols[names[0]])
    ensures Qualified(ts, from, names + [name]) == Found(ts[q[0]].symbols[name])
  {
    var whole := names + [name];
    assert whole[1..|whole| - 1] == names[1..];
    InsideDescends(ts, [ts[p[0]].symbols[names[0]].scope] + p, whole, 1);
  }

  /** A namespace in a namespace is found by its qualified name, `A::B`, from every scope from which the first
      part is not hidden by a nearer definition. */
  lemma NestedAreFound(ts: seq<Table>, d: seq<ScopeId>, path: seq<string>, first: string, more: seq<string>, kids: seq<Tree>,
      p: seq<ScopeId>, from: seq<ScopeId>)
    requires path != [] && d != [] && d[0] < |ts| && Members(ts, NamespaceBlock(first, more, kids), d, path, p)
    requires path[0] in ts[d[0]].symbols && Nearest(ts, from, path[0]) == Some(ts[d[0]].symbols[path[0]])
    ensures var names := path + ([first] + more); var q := Descend(ts, d, names);
      q.Some? && q.value != [] && Qualified(ts, from, names) == Found(Namespace(q.value[0]))
  {
    hide MembersAll;
    var names := path + ([first] + more);
    var n := |names| - 1;
    var front, last := names[..n], names[n];
    assert names == front + [last] && names[0] == path[0] == front[0];
    DescendFront(ts, d, front, [last]);
    var q := Descend(ts, d, front).value;
    DescendAppend(ts, d, front, [last]);
    LastStep(ts, q, last);
    MembersAreFound(ts, d, front, q, last, from);
  }

  lemma LastStep(ts: seq<Table>, q: seq<ScopeId>, name: string)
    requires Descend(ts, q, [name]).Some?
    ensures q != [] && q[0] < |ts| && name in ts[q[0]].symbols && ts[q[0]].symbols[name].Namespace?
    ensures Descend(ts, q, [name]) == Some([ts[q[0]].symbols[name].scope] + q)
  {
    assert [name][1..] == [];
  }

  lemma {:induction false} DescendFront(ts: seq<Table>, d: seq<ScopeId>, a: seq<string>, b: seq<string>)
    requires Descend(ts, d, a + b).Some?
    ensures Descend(ts, d, a).Some?
    decreases |a|
  {
    if a != [] {
      assert (a + b)[0] == a[0] && (a + b)[1..] == a[1..] + b;
      DescendFront(ts, [ts[d[0]].symbols[a[0]].scope] + d, a[1..], b);
    }
  }

  /** The part that is blamed is the first at fault: what stands before it names a namespace, and with
      it nothing, or something that is none. */
  lemma {:induction false} BlamesTheFirst(ts: seq<Table>, p: seq<ScopeId>, names: seq<string>)
    requires names != [] && Qualified(ts, p, names).Failed?
    ensures var k := Qualified(ts, p, names).part;
      && k < |names|
      && (k > 0 ==> IsNamespace(Qualified(ts, p, names[..k])))
      && !IsNamespace(Qualified(ts, p, names[..k + 1]))
      && (Qualified(ts, p, names[..k + 1]).Found? <==>
            Qualified(ts, p, names).error in {IdentifierIsNotNamespace, MemberOfNamespaceIsNotNamespace})
  {
    var first := Nearest(ts, p, names[0]);
    assert names[..1][0] == names[0];
    if |names| > 1 && first.Some? && first.value.Namespace? {
      InsideBlames(ts, p, first.value.scope, names, 1);
    }
  }

  predicate IsNamespace(r: Search) {
    r.Found? && r.symbol.Namespace?
  }

  lemma {:induction false} InsideBlames(ts: seq<Table>, p: seq<ScopeId>, s: ScopeId, names: seq<string>, k: nat)
    requires 0 < k < |names| && Inside(ts, s, names, k).Failed?
    requires forall j | k <= j <= |names| && k < |names[..j]| :: Qualified(ts, p, names[..j]) == Inside(ts, s, names[..j], k)
    requires IsNamespace(Qualified(ts, p, names[..k]))
    ensures var b := Inside(ts, s, names, k).part;
      && k <= b < |names|
      && IsNamespace(Qualified(ts, p, names[..b]))
      && !IsNamespace(Qualified(ts, p, names[..b + 1]))
      && (Qualified(ts, p, names[..b + 1]).Found? <==> Inside(ts, s, names, k).error in {IdentifierIsNotNamespace, MemberOfNamespaceIsNotNamespace})
    decreases |names| - k
  {
    assert Qualified(ts, p, names[..k + 1]) == Inside(ts, s, names[..k + 1], k);
    if s < |ts| && names[k] in ts[s].symbols && ts[s].symbols[names[k]].Namespace? && k < |names| - 1 {
      InsideBlames(ts, p, ts[s].symbols[names[k]].scope, names, k + 1);
    }
  }

  /** The error for part `k` of `n`, when there is something else of its name, or nothing. */
  function Kind(k: nat, n: nat, found: bool): SearchError {
    if k == 0 then (if found then IdentifierIsNotNamespace else if n == 1 then SymbolNotDefined else NamespaceDoesNotExist)
    else if found then MemberOfNamespaceIsNotNamespace
    else if k + 1 == n then NamespaceMemberDoesNotExist
    else ChildNamespaceDoesNotExist
  }

  /** Which error there is follows from the part that is blamed and whether there is a symbol of its name. */
  lemma {:induction false} ErrorKinds(ts: seq<Table>, p: seq<ScopeId>, names: seq<string>)
    requires names != [] && Qualified(ts, p, names).Failed?
    ensures var r := Qualified(ts, p, names);
      r.part < |names| && r.error == Kind(r.part, |names|, Qualified(ts, p, names[..r.part + 1]).Found?)
  {
    BlamesTheFirst(ts, p, names);
    var first := Nearest(ts, p, names[0]);
    if |names| > 1 && first.Some? && first.value.Namespace? {
      InsideKinds(ts, first.value.scope, names, 1);
    }
  }

  lemma {:induction false} InsideKinds(ts: seq<Table>, s: ScopeId, names: seq<string>, k: nat)
    requires 0 < k < |names| && Inside(ts, s, names, k).Failed?
    ensures var b, e := Inside(ts, s, names, k).part, Inside(ts, s, names, k).error;
      && k <= b < |names|
      && e in {MemberOfNamespaceIsNotNamespace, NamespaceMemberDoesNotExist, ChildNamespaceDoesNotExist}
      && (e == NamespaceMemberDoesNotExist ==> b == |names| - 1) && (e == ChildNamespaceDoesNotExist ==> b < |names| - 1)
    decreases |names| - k
  {
    if s < |ts| && names[k] in ts[s].symbols && ts[s].symbols[names[k]].Namespace? && k < |names| - 1 {
      InsideKinds(ts, ts[s].symbols[names[k]].scope, names, k + 1);
    }
  }
}
