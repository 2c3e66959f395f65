/** The cast pass as the source writes it: a visitor that rewrites nodes in place.  A node knows
    the tree it stands for (`tree`); every visit is proved to do to it what `CastPass` says. */
module CastNodes {
  import opened Common
  import opened Types
  import opened Tree
  import opened Casts
  import opened CastTypes
  import opened CastErrors

  /** What a node holds besides its children. */
  datatype Label =
    | Leaf(e: Expr)
    | BinaryOf(op: BinOp)
    | CastOf(kind: CastKind, toType: Prim)
    | IfOf(hasElse: bool)
    | WhileOf
    | AssertOf(line: nat)
    | CompoundOf

  /** May a node with this label have `n` children? */
  predicate Arity(l: Label, n: nat) {
    match l
    case Leaf(e) => IsLeaf(e) && n == 0
    case BinaryOf(_) => n == 2
    case CastOf(_, _) => n == 1
    case IfOf(hasElse) => n == if hasElse then 3 else 2
    case WhileOf => n == 2
    case AssertOf(_) => n == 1
    case CompoundOf => true
  }

  function Build(l: Label, ts: seq<Expr>): Expr
    requires Arity(l, |ts|)
  {
    match l
    case Leaf(e) => e
    case BinaryOf(op) => Binary(op, ts[0], ts[1])
    case CastOf(kind, t) => Cast(kind, t, ts[0])
    case IfOf(hasElse) => If(ts[0], ts[1], if hasElse then Some(ts[2]) else None)
    case WhileOf => While(ts[0], ts[1])
    case AssertOf(line) => Assert(line, ts[0])
    case CompoundOf => Compound(ts)
  }

  function Size(e: Expr): nat
    decreases e, 1
  {
    match e
    case Binary(_, l, r) => 1 + Size(l) + Size(r)
    case Cast(_, _, v) => 1 + Size(v)
    case If(cond, thn, els) => 1 + Size(cond) + Size(thn) + if els.Some? then 1 + Size(els.value) else 0
    case While(cond, body) => 2 + Size(cond) + Size(body)
    case Assert(_, cond) => 1 + Size(cond)
    case Compound(es) => 1 + SizeAll(es)
    case _ => 1
  }

  function SizeAll(es: seq<Expr>): nat
    decreases es, 0
  {
    if es == [] then 0 else Size(es[0]) + SizeAll(es[1..])
  }

  lemma {:induction false} SizeMember(es: seq<Expr>, i: nat)
    requires i < |es|
    ensures Size(es[i]) <= SizeAll(es)
  {
    if i > 0 {
      assert es[1..][i - 1] == es[i];
      SizeMember(es[1..], i - 1);
    }
  }

  lemma KidSmaller(l: Label, ts: seq<Expr>, i: nat)
    requires Arity(l, |ts|) && i < |ts|
    ensures Size(ts[i]) < Size(Build(l, ts))
  {
    if l.CompoundOf? { SizeMember(ts, i); }
  }

  class ExprNode {
    var head: Label
    var kids: seq<ExprNode>
    ghost var Repr: set<ExprNode>
    ghost var tree: Expr

    ghost predicate Valid()
      reads this, Repr
      decreases Repr
    {
      && this in Repr
      && (forall k | k in kids :: k in Repr && k.Repr <= Repr && this !in k.Repr && k.Valid())
      && (forall i, j | 0 <= i < j < |kids| :: kids[i].Repr !! kids[j].Repr)
      && Arity(head, |kids|)
      && tree == Build(head, Trees(kids))
    }

    /** A new implicit cast around `value`. */
    constructor CreateImplicit(value: ExprNode, t: Prim)
      requires value.Valid()
      ensures Valid() && fresh(Repr - value.Repr) && tree == Implicitly(t, value.tree) && this !in value.Repr
          && value.Repr <= Repr
    {
      head := CastOf(Implicit, t);
      kids := [value];
      Repr := {this} + value.Repr;
      tree := Implicitly(t, value.tree);
      new;
      assert Trees(kids) == [value.tree];
    }

    lemma KidsReady()
      requires Valid()
      ensures this in Repr && Arity(head, |kids|) && tree == Build(head, Trees(kids))
      ensures forall i | 0 <= i < |kids| :: kids[i].Valid() && kids[i] in Repr && kids[i].Repr < Repr && Size(kids[i].tree) < Size(tree)
    {
      hide Size, Trees;
      forall i | 0 <= i < |kids| ensures Size(kids[i].tree) < Size(tree) {
        KidSmaller(head, Trees(kids), i);
      }
    }

    /** The type of the node as it stands now; `None` when asking fails a debug assertion. */
    method ExprType() returns (t: Option<Prim>)
      requires Valid()
      ensures t == TypeOf(tree)
      decreases Size(tree)
    {
      hide Valid, Size, Trees;
      KidsReady();
      match head
      case Leaf(e) => t := TypeOf(e);
      case BinaryOf(op) =>
        if IsComparison(op) {
          t := Some(Bool);
        } else {
          var r := kids[1].ExprType();
          var l := kids[0].ExprType();
          t := if r.Some? && l == r then r else None;
        }
      case CastOf(_, to) => t := Some(to);
      case IfOf(hasElse) =>
        if !hasElse {
          t := Some(Void);
        } else {
          var a := kids[1].ExprType();
          var b := kids[2].ExprType();
          t := if a.None? || b.None? then None else if a == b then a else Some(Void);
        }
      case WhileOf => t := Some(Void);
      case AssertOf(_) => t := Some(Void);
      case CompoundOf =>
        if |kids| == 0 {
          t := None;
        } else {
          t := kids[|kids| - 1].ExprType();
        }
    }

    /** Put an implicit cast to `t` around a child, in place. */
    method WrapKid(i: nat, t: Prim)
      requires Valid() && i < |kids|
      modifies this
      ensures Valid() && fresh(Repr - old(Repr)) && head == old(head) && |kids| == old(|kids|)
      ensures Trees(kids) == old(Trees(kids))[i := Implicitly(t, old(kids[i].tree))]
    {
      hide Trees, Build, Arity, Size;
      var c := new ExprNode.CreateImplicit(kids[i], t);
      kids := kids[i := c];
      Repr := Repr + c.Repr;
      tree := Build(head, Trees(kids));
    }

    /** Make the child a bool if it can be made one; the source does this in four places. */
    method CastCondition(i: nat) returns (errors: Option<nat>)
      requires Valid() && i < |kids|
      modifies this
      ensures errors.None? <==> Casts.CastCondition(old(kids[i].tree)).Crash?
      ensures errors.Some? ==>
        && Valid() && fresh(Repr - old(Repr)) && head == old(head) && |kids| == old(|kids|)
        && Casts.CastCondition(old(kids[i].tree)) == Passed(kids[i].tree, errors.value)
        && Trees(kids) == old(Trees(kids))[i := kids[i].tree]
    {
      hide Valid, Trees, Build, TypeOf, CanImplicitCast;
      KidsReady();
      var t := kids[i].ExprType();
      if t.None? {
        return None;
      }
      errors := Some(0);
      if t != Some(Bool) {
        if CanImplicitCast(t.value, Bool) {
          WrapKid(i, Bool);
        } else {
          errors := Some(1);
        }
      }
    }

    method VisitedBinary(op: BinOp) returns (errors: Option<nat>)
      requires Valid() && head == BinaryOf(op)
      modifies this
      ensures errors.None? <==> old(CastOperands(op, kids[0].tree, kids[1].tree)).Crash?
      ensures errors.Some? ==>
        && Valid() && fresh(Repr - old(Repr))
        && old(CastOperands(op, kids[0].tree, kids[1].tree)) == Passed(tree, errors.value)
        && errors.value == old(if op == Assign && !Fits(TypeOf(kids[0].tree), TypeOf(kids[1].tree)) then 1 else 0)
    {
      hide Valid, Trees, TypeOf, CanImplicitCast, Fits;
      KidsReady();
      ghost var l, r := kids[0].tree, kids[1].tree;
      OperandsExactly(op, l, r);
      var tl := kids[0].ExprType();
      if tl.None? {
        return None;
      }
      if IsLogical(op) {
        if tl != Some(Bool) {
          WrapKid(0, Bool);
          KidsReady();
        }
        var tr := kids[1].ExprType();
        if tr.None? {
          return None;
        }
        if tr != Some(Bool) {
          WrapKid(1, Bool);
          KidsReady();
        }
        return Some(0);
      }
      var tr := kids[1].ExprType();
      if tr.None? {
        return None;
      }
      if tl == tr {
        return Some(0);
      }
      if CanImplicitCast(tl.value, tr.value) && op != Assign {
        WrapKid(0, tr.value);
      } else if CanImplicitCast(tr.value, tl.value) {
        WrapKid(1, tl.value);
      } else {
        return Some(1);
      }
      KidsReady();
      errors := Some(0);
    }

    /** The branches of an `if` with an `else`, its condition being done. */
    method VisitedBranches() returns (errors: Option<nat>)
      requires Valid() && head == IfOf(true)
      modifies this
      ensures errors.None? <==> old(CastBranches(kids[0].tree, kids[1].tree, kids[2].tree)).Crash?
      ensures errors.Some? ==>
        && Valid() && fresh(Repr - old(Repr))
        && old(CastBranches(kids[0].tree, kids[1].tree, kids[2].tree)) == Passed(tree, errors.value)
    {
      hide Valid, Trees, TypeOf, CanImplicitCast;
      KidsReady();
      var tt := kids[1].ExprType();
      var te := kids[2].ExprType();
      if tt.None? || te.None? {
        return None;
      }
      if tt == te {
        return Some(0);
      }
      if CanImplicitCast(te.value, tt.value) {
        WrapKid(2, tt.value);
      } else if CanImplicitCast(tt.value, te.value) {
        WrapKid(1, te.value);
      } else {
        return Some(1);
      }
      KidsReady();
      errors := Some(0);
    }

    /** Take in what has become of a child. */
    ghost method Refresh(i: nat)
      requires i < |kids| && this in Repr && Arity(head, |kids|)
      requires forall j | 0 <= j < |kids| :: kids[j].Valid() && this !in kids[j].Repr && (j != i ==> kids[j] in Repr && kids[j].Repr <= Repr)
      requires forall j, k | 0 <= j < k < |kids| :: kids[j].Repr !! kids[k].Repr
      modifies this`Repr, this`tree
      ensures Valid() && Repr == old(Repr) + kids[i].Repr
    {
      hide Build, Arity, Trees;
      Repr := Repr + kids[i].Repr;
      tree := Build(head, Trees(kids));
    }

    /** Visit a child and put this node back in order. */
    method VisitKid(i: nat, ghost n: nat) returns (errors: Option<nat>)
      requires Valid() && i < |kids| && Size(kids[i].tree) < n
      modifies Repr
      ensures errors.None? <==> CastPass(old(kids[i].tree)).Crash?
      ensures errors.Some? ==>
        && Valid() && fresh(Repr - old(Repr)) && head == old(head) && kids == old(kids)
        && CastPass(old(kids[i].tree)) == Passed(kids[i].tree, errors.value)
        && Trees(kids) == old(Trees(kids))[i := kids[i].tree]
      decreases n, 0
    {
      hide CastPass, Size, Build, Arity, Trees;
      errors := kids[i].Visit(n - 1);
      if errors.Some? {
        Refresh(i);
      }
    }

    /** Children first, then the node; a loop's condition is looked at before its children. */
    method Visit(ghost n: nat) returns (errors: Option<nat>)
      requires Valid() && Size(tree) <= n
      modifies Repr
      ensures errors.None? <==> CastPass(old(tree)).Crash?
      ensures errors.Some? ==> Valid() && fresh(Repr - old(Repr)) && CastPass(old(tree)) == Passed(tree, errors.value)
      decreases n, 2
    {
      hide Valid, Size, Trees, CastPass;
      KidsReady();
      match head
      case Leaf(e) => LeafPasses(e); return Some(0);
      case BinaryOf(op) => errors := VisitBinary(op, n);
      case CastOf(kind, t) =>
        CastPasses(kind, t, kids[0].tree);
        errors := VisitKid(0, n);
        if errors.Some? { KidsReady(); }
      case IfOf(hasElse) => errors := VisitIf(hasElse, n);
      case WhileOf => errors := VisitWhile(n);
      case AssertOf(line) =>
        AssertPasses(line, kids[0].tree);
        errors := VisitKid(0, n);
        if errors.Some? {
          KidsReady();
          var more := CastCondition(0);
          if more.Some? { KidsReady(); }
          errors := Sum(errors, more);
        }
      case CompoundOf => errors := VisitCompound(n);
    }

    method VisitBinary(op: BinOp, ghost n: nat) returns (errors: Option<nat>)
      requires Valid() && Size(tree) <= n && head == BinaryOf(op)
      modifies Repr
      ensures errors.None? <==> CastPass(old(tree)).Crash?
      ensures errors.Some? ==> Valid() && fresh(Repr - old(Repr)) && CastPass(old(tree)) == Passed(tree, errors.value)
      decreases n, 1
    {
      hide Valid, Size, Trees, CastPass, CastOperands;
      KidsReady();
      BinaryPasses(op, kids[0].tree, kids[1].tree);
      errors := VisitKid(0, n);
      if errors.Some? {
        KidsReady();
        var more := VisitKid(1, n);
        errors := Sum(errors, more);
      }
      if errors.Some? {
        KidsReady();
        var more := VisitedBinary(op);
        errors := Sum(errors, more);
      }
    }

    method VisitIf(hasElse: bool, ghost n: nat) returns (errors: Option<nat>)
      requires Valid() && Size(tree) <= n && head == IfOf(hasElse)
      modifies Repr
      ensures errors.None? <==> CastPass(old(tree)).Crash?
      ensures errors.Some? ==> Valid() && fresh(Repr - old(Repr)) && CastPass(old(tree)) == Passed(tree, errors.value)
      decreases n, 1
    {
      hide Valid, Size, Trees, CastPass, FinishIf;
      KidsReady();
      IfPasses(kids[0].tree, kids[1].tree, if hasElse then Some(kids[2].tree) else None);
      errors := VisitKid(0, n);
      if errors.Some? {
        KidsReady();
        var more := VisitKid(1, n);
        errors := Sum(errors, more);
      }
      if errors.Some? && hasElse {
        KidsReady();
        var more := VisitKid(2, n);
        errors := Sum(errors, more);
      }
      if errors.Some? {
        KidsReady();
        var more := VisitedIf(hasElse);
        errors := Sum(errors, more);
      }
    }

    method VisitedIf(hasElse: bool) returns (errors: Option<nat>)
      requires Valid() && head == IfOf(hasElse)
      modifies this
      ensures errors.None? <==> old(FinishIf(kids[0].tree, kids[1].tree, if hasElse then Some(kids[2].tree) else None)).Crash?
      ensures errors.Some? ==>
        && Valid() && fresh(Repr - old(Repr))
        && old(FinishIf(kids[0].tree, kids[1].tree, if hasElse then Some(kids[2].tree) else None)) == Passed(tree, errors.value)
    {
      hide Valid, Size, Trees, CastBranches;
      KidsReady();
      errors := CastCondition(0);
      if errors.Some? {
        KidsReady();
        if hasElse {
          var more := VisitedBranches();
          errors := Sum(errors, more);
        }
      }
    }

    method VisitWhile(ghost n: nat) returns (errors: Option<nat>)
      requires Valid() && Size(tree) <= n && head == WhileOf
      modifies Repr
      ensures errors.None? <==> CastPass(old(tree)).Crash?
      ensures errors.Some? ==> Valid() && fresh(Repr - old(Repr)) && CastPass(old(tree)) == Passed(tree, errors.value)
      decreases n, 1
    {
      hide Valid, Size, Trees, CastPass;
      KidsReady();
      WhilePasses(kids[0].tree, kids[1].tree, n);
      errors := CastCondition(0);
      if errors.Some? {
        var more := VisitKid(0, n);
        errors := Sum(errors, more);
      }
      if errors.Some? {
        var more := VisitKid(1, n);
        errors := Sum(errors, more);
      }
      if errors.Some? {
        KidsReady();
      }
    }

    method VisitCompound(ghost n: nat) returns (errors: Option<nat>)
      requires Valid() && Size(tree) <= n && head == CompoundOf
      modifies Repr
      ensures errors.None? <==> CastPass(old(tree)).Crash?
      ensures errors.Some? ==> Valid() && fresh(Repr - old(Repr)) && CastPass(old(tree)) == Passed(tree, errors.value)
      decreases n, 1
    {
      hide Valid, Size, Trees, CastPass, CastAll, Extend;
      KidsReady();
      ghost var ts := Trees(kids);
      CompoundPasses(ts, n);
      assert ts[0..] == ts;
      ExtendNothing(CastAll(ts));
      errors := Some(0);
      ghost var done: seq<Expr> := [];
      var k := 0;
      while k < |kids|
        invariant 0 <= k <= |kids| == |ts| && |done| == k && Valid() && head == CompoundOf
        invariant kids == old(kids) && fresh(Repr - old(Repr)) && errors.Some?
        invariant forall i | 0 <= i < k :: kids[i].tree == done[i]
        invariant forall i | k <= i < |kids| :: kids[i].tree == ts[i]
        invariant CastAll(ts) == Extend(done, errors.value, CastAll(ts[k..]))
      {
        CastAllStep(ts, k);
        ghost var sofar := errors.value;
        ghost var before := Trees(kids);
        var more := VisitKid(k, n);
        errors := Sum(errors, more);
        ExtendTwice(done, sofar, CastPass(ts[k]), CastAll(ts[k + 1..]));
        if errors.None? {
          return;
        }
        assert forall i | 0 <= i < |kids| && i != k :: kids[i].tree == before[i];
        done := done + [kids[k].tree];
        k := k + 1;
      }
      assert ts[k..] == [];
      CastAllNone(done, errors.value);
      KidsReady();
      assert Trees(kids) == done;
    }
  }

  ghost function Trees(kids: seq<ExprNode>): (ts: seq<Expr>)
    reads kids
    ensures |ts| == |kids| && forall i | 0 <= i < |kids| :: ts[i] == kids[i].tree
  {
    if kids == [] then [] else [kids[0].tree] + Trees(kids[1..])
  }

  /** The pass over a function: its body, and the implicit return. */
  method VisitFunction(body: ExprNode, ret: Prim) returns (newBody: ExprNode, errors: Option<nat>)
    requires body.Valid()
    modifies body.Repr
    ensures errors.None? <==> CastFunction(old(body.tree), ret).Crash?
    ensures errors.Some? ==> newBody.Valid() && CastFunction(old(body.tree), ret) == Passed(newBody.tree, errors.value)
    ensures errors.Some? <==> Passes(old(body.tree)) && (ret != Void ==> Settled(old(body.tree)))
    ensures errors.Some? ==> (errors.value == 0 <==>
      AssignmentsFit(old(body.tree)) && (ret != Void ==> PType(old(body.tree)).Some? && Rank(PType(old(body.tree)).value) <= Rank(ret)))
  {
    hide CastPass, Size, Passes, Settled, AssignmentsFit, PType, Rank;
    FunctionErrorsExactly(body.tree, ret);
    newBody := body;
    errors := body.Visit(Size(body.tree));
    if errors.None? || ret == Void {
      return;
    }
    var t := body.ExprType();
    if t.None? {
      return body, None;
    }
    if t != Some(ret) {
      if CanImplicitCast(t.value, ret) {
        newBody := new ExprNode.CreateImplicit(body, ret);
      } else {
        errors := Some(errors.value + 1);
      }
    }
  }

  function Sum(a: Option<nat>, b: Option<nat>): Option<nat> {
    if a.Some? && b.Some? then Some(a.value + b.value) else None
  }

  // ----- loops and compounds: what the pass does to one, and that its parts are smaller -----

  /** A condition that is cast is visited through its new cast. */
  lemma WhilePasses(cond: Expr, body: Expr, n: nat)
    requires Size(While(cond, body)) <= n
    ensures CastPass(While(cond, body)) == CastWhile(cond, body)
    ensures Size(Implicitly(Bool, cond)) < n && Size(cond) < n && Size(body) < n
    ensures CastPass(Implicitly(Bool, cond)) == if CastPass(cond).Crash? then Crash else Passed(Implicitly(Bool, CastPass(cond).tree), CastPass(cond).errors)
  {
    hide CastWhile;
  }

  /** What has been rewritten so far, in front of the rest. */
  function Extend(done: seq<Expr>, errors: nat, rest: Option<(seq<Expr>, nat)>): Option<(seq<Expr>, nat)> {
    if rest.None? then None else Some((done + rest.value.0, errors + rest.value.1))
  }

  lemma CompoundPasses(ts: seq<Expr>, n: nat)
    requires Size(Compound(ts)) <= n
    ensures CastPass(Compound(ts)) == if CastAll(ts).None? then Crash else Passed(Compound(CastAll(ts).value.0), CastAll(ts).value.1)
    ensures forall i | 0 <= i < |ts| :: Size(ts[i]) < n
  {
    hide CastAll;
    forall i | 0 <= i < |ts| ensures Size(ts[i]) < n {
      SizeMember(ts, i);
    }
  }

  lemma CastAllStep(ts: seq<Expr>, k: nat)
    requires k < |ts|
    ensures CastAll(ts[k..])
         == if CastPass(ts[k]).Crash? then None else Extend([CastPass(ts[k]).tree], CastPass(ts[k]).errors, CastAll(ts[k + 1..]))
  {
    hide CastPass;
    assert ts[k..][1..] == ts[k + 1..];
  }

  lemma CastAllNone(done: seq<Expr>, n: nat)
    ensures Extend(done, n, CastAll([])) == Some((done, n))
  {
    assert done + [] == done;
  }

  lemma ExtendNothing(rest: Option<(seq<Expr>, nat)>)
    ensures Extend([], 0, rest) == rest
  {
    if rest.Some? { assert [] + rest.value.0 == rest.value.0; }
  }

  lemma ExtendTwice(done: seq<Expr>, n: nat, p: Passed, rest: Option<(seq<Expr>, nat)>)
    ensures Extend(done, n, None) == None
    ensures p.Passed? ==> Extend(done, n, Extend([p.tree], p.errors, rest)) == Extend(done + [p.tree], n + p.errors, rest)
  {
    if p.Passed? && rest.Some? { assert done + ([p.tree] + rest.value.0) == done + [p.tree] + rest.value.0; }
  }
}
