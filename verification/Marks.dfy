/** Write marks after parsing: copying by template expansion, inserting casts, and the pass that
    marks field accesses once every other pass is done. */
module Marks {
  import opened Common
  import opened Tokens
  import opened Grammar
  import opened Ast
  import opened Build

  datatype ExpansionKind = Named | Anonymous

  // ----- copying a template body -----

  /** The copy an expansion makes. A variable keeps its mark and a field access loses it; a generic
      class stays one when a named template is expanded, and becomes a class otherwise. */
  function Copied(n: Node, k: ExpansionKind): Node {
    match n
    case UnaryExpr(op, v) => UnaryExpr(op, Copied(v, k))
    case BinaryExpr(op, l, r) => BinaryExpr(op, Copied(l, k), Copied(r, k))
    case CompoundExpr(s, es) => CompoundExpr(s, CopiedAll(es, k))
    case CastExpr(t, v) => CastExpr(t, Copied(v, k))
    case IfExpr(c, t, e) => IfExpr(Copied(c, k), Copied(t, k), if e.Some? then Some(Copied(e.value, k)) else None)
    case WhileExpr(c, b) => WhileExpr(Copied(c, k), Copied(b, k))
    case FuncDef(id, t, ps, b) => FuncDef(id, t, ps, Copied(b, k))
    case ClassDef(id, b) => ClassDef(id, Copied(b, k))
    case GenericClass(_, id, b) => if k == Named then n else ClassDef(id, Copied(b, k))
    case AssertExpr(c) => AssertExpr(Copied(c, k))
    case NamespaceExpr(name, es) => NamespaceExpr(name, CopiedAll(es, k))
    case NamedTemplate(id, ps, es) => NamedTemplate(id, ps, CopiedAll(es, k))
    case DotExpr(v, m, _) => DotExpr(Copied(v, k), m, false)
    case FuncCall(i, f, args) => FuncCall(if i.Some? then Some(Copied(i.value, k)) else None, Copied(f, k), CopiedAll(args, k))
    case _ => n
  }

  function CopiedAll(ns: seq<Node>, k: ExpansionKind): (r: seq<Node>)
    ensures |r| == |ns| && forall i | 0 <= i < |ns| :: r[i] == Copied(ns[i], k)
  {
    if ns == [] then [] else [Copied(ns[0], k)] + CopiedAll(ns[1..], k)
  }

  /** A copy of a copy, and so on: expansions inside expanded bodies. */
  function CopiedThrough(n: Node, ks: seq<ExpansionKind>): Node
    decreases |ks|
  {
    if ks == [] then n else CopiedThrough(Copied(n, ks[0]), ks[1..])
  }

  // ----- inserting casts -----

  /** `m` is `n` with casts put around some operands, never around the target of an assignment. */
  predicate WithCasts(n: Node, m: Node)
    decreases m
  {
    || Same(n, m)
    || (m.CastExpr? && WithCasts(n, m.value))
  }

  /** The same form, with casts inside it. */
  predicate Same(n: Node, m: Node)
    decreases m, 0
  {
    match m
    case UnaryExpr(op, v) => n.UnaryExpr? && n.op == op && WithCasts(n.value, v)
    case BinaryExpr(op, l, r) =>
      n.BinaryExpr? && n.op == op && WithCasts(n.right, r) && (if op == OpAssign then Same(n.left, l) else WithCasts(n.left, l))
    case CompoundExpr(s, es) => n.CompoundExpr? && n.storage == s && WithCastsAll(n.es, es)
    case CastExpr(t, v) => n.CastExpr? && n.ty == t && WithCasts(n.value, v)
    case IfExpr(c, t, e) =>
      && n.IfExpr? && WithCasts(n.cond, c) && WithCasts(n.thn, t)
      && (if e.Some? then n.els.Some? && WithCasts(n.els.value, e.value) else n.els.None?)
    case WhileExpr(c, b) => n.WhileExpr? && WithCasts(n.cond, c) && WithCasts(n.body, b)
    case FuncDef(id, t, ps, b) => n.FuncDef? && n.id == id && n.ret == t && n.parameters == ps && WithCasts(n.body, b)
    case ClassDef(id, b) => n.ClassDef? && n.id == id && WithCasts(n.body, b)
    case AssertExpr(c) => n.AssertExpr? && WithCasts(n.cond, c)
    case NamespaceExpr(name, es) => n.NamespaceExpr? && n.name == name && WithCastsAll(n.es, es)
    case DotExpr(v, member, isWrite) => n.DotExpr? && n.member == member && n.isWrite == isWrite && WithCasts(n.value, v)
    case FuncCall(i, f, args) =>
      && n.FuncCall? && Same(n.callee, f) && WithCastsAll(n.arguments, args)
      && (if i.Some? then n.instance.Some? && WithCasts(n.instance.value, i.value) else n.instance.None?)
    case _ => n == m
  }

  predicate WithCastsAll(ns: seq<Node>, ms: seq<Node>)
    decreases ms
  {
    |ns| == |ms| && forall i | 0 <= i < |ms| :: WithCasts(ns[i], ms[i])
  }

  // ----- marking field accesses -----

  /** The target of an assignment that is a field access is marked when its assignment has been
      visited. The bodies of named templates and of generic classes are never visited. */
  function MarkDots(n: Node): Node {
    match n
    case UnaryExpr(op, v) => UnaryExpr(op, MarkDots(v))
    case BinaryExpr(op, l, r) => BinaryExpr(op, if op == OpAssign then MarkDot(MarkDots(l)) else MarkDots(l), MarkDots(r))
    case CompoundExpr(s, es) => CompoundExpr(s, MarkAll(es))
    case CastExpr(t, v) => CastExpr(t, MarkDots(v))
    case IfExpr(c, t, e) => IfExpr(MarkDots(c), MarkDots(t), if e.Some? then Some(MarkDots(e.value)) else None)
    case WhileExpr(c, b) => WhileExpr(MarkDots(c), MarkDots(b))
    case FuncDef(id, t, ps, b) => FuncDef(id, t, ps, MarkDots(b))
    case ClassDef(id, b) => ClassDef(id, MarkDots(b))
    case AssertExpr(c) => AssertExpr(MarkDots(c))
    case NamespaceExpr(name, es) => NamespaceExpr(name, MarkAll(es))
    case DotExpr(v, m, isWrite) => DotExpr(MarkDots(v), m, isWrite)
    case FuncCall(i, f, args) => FuncCall(if i.Some? then Some(MarkDots(i.value)) else None, MarkDots(f), MarkAll(args))
    case _ => n
  }

  function MarkDot(n: Node): Node {
    if n.DotExpr? then n.(isWrite := true) else n
  }

  function MarkAll(ns: seq<Node>): (r: seq<Node>)
    ensures |r| == |ns| && forall i | 0 <= i < |ns| :: r[i] == MarkDots(ns[i])
  {
    if ns == [] then [] else [MarkDots(ns[0])] + MarkAll(ns[1..])
  }

  // ----- what the check on assignments accepts, and what the emitter relies on -----

  predicate CanWrite(n: Node) {
    n.VariableRef? || n.VariableDecl? || n.DotExpr? || n.MethodRef?
  }

  /** Every assignment that the passes visit has a target that can be written. */
  predicate Assignable(n: Node) {
    match n
    case UnaryExpr(_, v) => Assignable(v)
    case BinaryExpr(op, l, r) => Assignable(l) && Assignable(r) && (op == OpAssign ==> CanWrite(l))
    case CompoundExpr(_, es) => AllAssignable(es)
    case CastExpr(_, v) => Assignable(v)
    case IfExpr(c, t, e) => Assignable(c) && Assignable(t) && (e.Some? ==> Assignable(e.value))
    case WhileExpr(c, b) => Assignable(c) && Assignable(b)
    case FuncDef(_, _, _, b) => Assignable(b)
    case ClassDef(_, b) => Assignable(b)
    case AssertExpr(c) => Assignable(c)
    case NamespaceExpr(_, es) => AllAssignable(es)
    case DotExpr(v, _, _) => Assignable(v)
    case FuncCall(i, f, args) =>
      (i.Some? ==> Assignable(i.value)) && Assignable(f) && AllAssignable(args)
    case _ => true
  }

  predicate AllAssignable(ns: seq<Node>) {
    forall i | 0 <= i < |ns| :: Assignable(ns[i])
  }

  /** The mark of a place the emitter stores to. */
  predicate Written(n: Node) {
    match n
    case VariableRef(_, access) => access == Write
    case VariableDecl(_, _, access) => access == Write
    case DotExpr(_, _, isWrite) => isWrite
    case _ => false
  }

  /** Every assignment has a marked target, and no other variable or field access is marked. */
  predicate FullyMarked(n: Node) {
    match n
    case UnaryExpr(_, v) => FullyMarked(v)
    case BinaryExpr(op, l, r) =>
      FullyMarked(r) && if op == OpAssign then Written(l) && (l.DotExpr? ==> FullyMarked(l.value)) else FullyMarked(l)
    case CompoundExpr(_, es) => AllFullyMarked(es)
    case CastExpr(_, v) => FullyMarked(v)
    case IfExpr(c, t, e) => FullyMarked(c) && FullyMarked(t) && (e.Some? ==> FullyMarked(e.value))
    case WhileExpr(c, b) => FullyMarked(c) && FullyMarked(b)
    case FuncDef(_, _, _, b) => FullyMarked(b)
    case ClassDef(_, b) => FullyMarked(b)
    case AssertExpr(c) => FullyMarked(c)
    case NamespaceExpr(_, es) => AllFullyMarked(es)
    case DotExpr(v, _, isWrite) => !isWrite && FullyMarked(v)
    case VariableRef(_, access) => access == Read
    case VariableDecl(_, _, access) => access == Read
    case FuncCall(i, f, args) =>
      && (if i.Some? then FullyMarked(i.value) && f.MethodRef? else FullyMarked(f))
      && AllFullyMarked(args)
    case MethodRef(_) => false
    case _ => true
  }

  predicate AllFullyMarked(ns: seq<Node>) {
    forall i | 0 <= i < |ns| :: FullyMarked(ns[i])
  }

  // ----- proofs -----

  predicate OpensScope(n: Node) {
    n.CompoundExpr? || n.FuncDef? || n.ClassDef? || n.GenericClass? || n.NamespaceExpr?
  }

  lemma CopyShape(n: Node, k: ExpansionKind)
    ensures IsVariable(Copied(n, k)) == IsVariable(n) && Copied(n, k).MethodRef? == n.MethodRef?
    ensures IsVariable(n) ==> Copied(n, k) == n
  {
    hide CopiedAll;
  }

  lemma {:induction false} CopyKeepsMarks(n: Node, k: ExpansionKind)
    requires MarksExact(n)
    ensures MarksExact(Copied(n, k))
    decreases n, 1
  {
    hide AllMarks, CopiedAll, IsVariable;
    if OpensScope(n) {
      CopyOfScopeKeepsMarks(n, k);
      return;
    }
    match n
    case UnaryExpr(_, v) => CopyKeepsMarks(v, k);
    case BinaryExpr(op, l, r) =>
      CopyShape(l, k);
      CopyKeepsMarks(r, k);
      if !(op == OpAssign && IsVariable(l)) { CopyKeepsMarks(l, k); }
    case CastExpr(_, v) => CopyKeepsMarks(v, k);
    case IfExpr(c, t, e) =>
      CopyKeepsMarks(c, k);
      CopyKeepsMarks(t, k);
      if e.Some? { CopyKeepsMarks(e.value, k); }
    case WhileExpr(c, b) => CopyKeepsMarks(c, k); CopyKeepsMarks(b, k);
    case AssertExpr(c) => CopyKeepsMarks(c, k);
    case NamedTemplate(_, _, es) => CopyAllKeepsMarks(es, k);
    case DotExpr(v, _, _) => CopyKeepsMarks(v, k);
    case FuncCall(i, f, args) =>
      CopyShape(f, k);
      if i.Some? { CopyKeepsMarks(i.value, k); } else { CopyKeepsMarks(f, k); }
      CopyAllKeepsMarks(args, k);
    case _ =>
  }

  lemma {:induction false} CopyOfScopeKeepsMarks(n: Node, k: ExpansionKind)
    requires MarksExact(n) && OpensScope(n)
    ensures MarksExact(Copied(n, k)) && OpensScope(Copied(n, k))
    decreases n, 0
  {
    hide AllMarks, CopiedAll;
    match n
    case CompoundExpr(_, es) => CopyAllKeepsMarks(es, k);
    case FuncDef(_, _, _, b) => CopyKeepsMarks(b, k);
    case ClassDef(_, b) => CopyKeepsMarks(b, k);
    case GenericClass(_, _, b) => CopyKeepsMarks(b, k);
    case NamespaceExpr(_, es) => CopyAllKeepsMarks(es, k);
  }

  lemma {:induction false} CopyAllKeepsMarks(ns: seq<Node>, k: ExpansionKind)
    requires AllMarks(ns)
    ensures AllMarks(CopiedAll(ns, k))
    decreases ns
  {
    forall i | 0 <= i < |ns| ensures MarksExact(CopiedAll(ns, k)[i]) {
      CopyKeepsMarks(ns[i], k);
    }
  }

  lemma {:induction false} CopiesKeepMarks(n: Node, ks: seq<ExpansionKind>)
    requires MarksExact(n)
    ensures MarksExact(CopiedThrough(n, ks))
    decreases |ks|
  {
    if ks != [] {
      CopyKeepsMarks(n, ks[0]);
      CopiesKeepMarks(Copied(n, ks[0]), ks[1..]);
    }
  }

  predicate NoGenericClass(n: Node) {
    match n
    case UnaryExpr(_, v) => NoGenericClass(v)
    case BinaryExpr(_, l, r) => NoGenericClass(l) && NoGenericClass(r)
    case CompoundExpr(_, es) => NoGenericClasses(es)
    case CastExpr(_, v) => NoGenericClass(v)
    case IfExpr(c, t, e) => NoGenericClass(c) && NoGenericClass(t) && (e.Some? ==> NoGenericClass(e.value))
    case WhileExpr(c, b) => NoGenericClass(c) && NoGenericClass(b)
    case FuncDef(_, _, _, b) => NoGenericClass(b)
    case ClassDef(_, b) => NoGenericClass(b)
    case GenericClass(_, _, _) => false
    case AssertExpr(c) => NoGenericClass(c)
    case NamespaceExpr(_, es) => NoGenericClasses(es)
    case NamedTemplate(_, _, es) => NoGenericClasses(es)
    case DotExpr(v, _, _) => NoGenericClass(v)
    case FuncCall(i, f, args) => (i.Some? ==> NoGenericClass(i.value)) && NoGenericClass(f) && NoGenericClasses(args)
    case _ => true
  }

  predicate NoGenericClasses(ns: seq<Node>) {
    forall i | 0 <= i < |ns| :: NoGenericClass(ns[i])
  }

  /** A copy is what was parsed, but for generic classes in copies that are not made for a named template. */
  lemma {:induction false} CopyIsTheSame(n: Node, k: ExpansionKind)
    requires MarksExact(n) && (k == Named || NoGenericClass(n))
    ensures Copied(n, k) == n
    decreases n, 1
  {
    hide AllMarks, NoGenericClasses, CopiedAll;
    if OpensScope(n) {
      CopyOfScopeIsTheSame(n, k);
      return;
    }
    match n
    case UnaryExpr(_, v) => CopyIsTheSame(v, k);
    case BinaryExpr(op, l, r) =>
      CopyIsTheSame(r, k);
      if !(op == OpAssign && IsVariable(l)) { CopyIsTheSame(l, k); }
    case CastExpr(_, v) => CopyIsTheSame(v, k);
    case IfExpr(c, t, e) =>
      CopyIsTheSame(c, k);
      CopyIsTheSame(t, k);
      if e.Some? { CopyIsTheSame(e.value, k); }
    case WhileExpr(c, b) => CopyIsTheSame(c, k); CopyIsTheSame(b, k);
    case AssertExpr(c) => CopyIsTheSame(c, k);
    case NamedTemplate(_, _, es) => CopiesAreTheSame(es, k);
    case DotExpr(v, _, _) => CopyIsTheSame(v, k);
    case FuncCall(i, f, args) =>
      if i.Some? { CopyIsTheSame(i.value, k); } else { CopyIsTheSame(f, k); }
      CopiesAreTheSame(args, k);
    case _ =>
  }

  lemma {:induction false} CopyOfScopeIsTheSame(n: Node, k: ExpansionKind)
    requires MarksExact(n) && (k == Named || NoGenericClass(n)) && OpensScope(n)
    ensures Copied(n, k) == n
    decreases n, 0
  {
    hide AllMarks, NoGenericClasses, CopiedAll;
    match n
    case CompoundExpr(_, es) => CopiesAreTheSame(es, k);
    case FuncDef(_, _, _, b) => CopyIsTheSame(b, k);
    case ClassDef(_, b) => CopyIsTheSame(b, k);
    case GenericClass(_, _, _) =>
    case NamespaceExpr(_, es) => CopiesAreTheSame(es, k);
  }

  lemma {:induction false} CopiesAreTheSame(ns: seq<Node>, k: ExpansionKind)
    requires AllMarks(ns) && (k == Named || NoGenericClasses(ns))
    ensures CopiedAll(ns, k) == ns
    decreases ns
  {
    forall i | 0 <= i < |ns| ensures CopiedAll(ns, k)[i] == ns[i] {
      CopyIsTheSame(ns[i], k);
    }
  }

  /** Expanding a named template copies what was parsed as it was. */
  lemma NamedCopyIsTheSame(n: Node)
    requires MarksExact(n)
    ensures Copied(n, Named) == n
  {
    CopyIsTheSame(n, Named);
  }

  /** Marking field accesses changes nothing but their marks. */
  lemma {:induction false} OnlyMarksChange(n: Node)
    ensures Copied(MarkDots(n), Named) == Copied(n, Named)
    decreases n, 1
  {
    hide CopiedAll, MarkAll;
    if OpensScope(n) {
      OnlyMarksChangeInScope(n);
      return;
    }
    match n
    case UnaryExpr(_, v) => OnlyMarksChange(v);
    case BinaryExpr(op, l, r) =>
      OnlyMarksChange(l);
      OnlyMarksChange(r);
      MarkDotUnseen(MarkDots(l));
    case CastExpr(_, v) => OnlyMarksChange(v);
    case IfExpr(c, t, e) =>
      OnlyMarksChange(c);
      OnlyMarksChange(t);
      if e.Some? { OnlyMarksChange(e.value); }
    case WhileExpr(c, b) => OnlyMarksChange(c); OnlyMarksChange(b);
    case AssertExpr(c) => OnlyMarksChange(c);
    case DotExpr(v, _, _) => OnlyMarksChange(v);
    case FuncCall(i, f, args) =>
      if i.Some? { OnlyMarksChange(i.value); }
      OnlyMarksChange(f);
      OnlyMarksChangeInAll(args);
    case _ =>
  }

  lemma MarkDotUnseen(n: Node)
    ensures Copied(MarkDot(n), Named) == Copied(n, Named)
  {
  }

  lemma {:induction false} OnlyMarksChangeInScope(n: Node)
    requires OpensScope(n)
    ensures Copied(MarkDots(n), Named) == Copied(n, Named)
    decreases n, 0
  {
    hide CopiedAll, MarkAll;
    match n
    case CompoundExpr(_, es) => OnlyMarksChangeInAll(es);
    case FuncDef(_, _, _, b) => OnlyMarksChange(b);
    case ClassDef(_, b) => OnlyMarksChange(b);
    case GenericClass(_, _, _) =>
    case NamespaceExpr(_, es) => OnlyMarksChangeInAll(es);
  }

  lemma {:induction false} OnlyMarksChangeInAll(ns: seq<Node>)
    ensures CopiedAll(MarkAll(ns), Named) == CopiedAll(ns, Named)
    decreases ns
  {
    forall i | 0 <= i < |ns| ensures CopiedAll(MarkAll(ns), Named)[i] == CopiedAll(ns, Named)[i] {
      OnlyMarksChange(ns[i]);
    }
  }

  lemma {:induction false} CastsKeepMarks(n: Node, m: Node)
    requires MarksExact(n) && WithCasts(n, m)
    ensures MarksExact(m)
    decreases m
  {
    if Same(n, m) {
      SameKeepsMarks(n, m);
    } else {
      CastsKeepMarks(n, m.value);
    }
  }

  lemma {:induction false} SameKeepsMarks(n: Node, m: Node)
    requires MarksExact(n) && Same(n, m)
    ensures MarksExact(m)
    decreases m, 0
  {
    match m
    case UnaryExpr(_, v) => CastsKeepMarks(n.value, v);
    case BinaryExpr(op, l, r) =>
      CastsKeepMarks(n.right, r);
      if op == OpAssign {
        if !IsVariable(n.left) { SameKeepsMarks(n.left, l); }
      } else {
        CastsKeepMarks(n.left, l);
      }
    case CompoundExpr(_, es) => AllCastsKeepMarks(n.es, es);
    case CastExpr(_, v) => CastsKeepMarks(n.value, v);
    case IfExpr(c, t, e) =>
      CastsKeepMarks(n.cond, c);
      CastsKeepMarks(n.thn, t);
      if e.Some? { CastsKeepMarks(n.els.value, e.value); }
    case WhileExpr(c, b) => CastsKeepMarks(n.cond, c); CastsKeepMarks(n.body, b);
    case FuncDef(_, _, _, b) => CastsKeepMarks(n.body, b);
    case ClassDef(_, b) => CastsKeepMarks(n.body, b);
    case AssertExpr(c) => CastsKeepMarks(n.cond, c);
    case NamespaceExpr(_, es) => AllCastsKeepMarks(n.es, es);
    case DotExpr(v, _, _) => CastsKeepMarks(n.value, v);
    case FuncCall(i, f, args) =>
      if i.Some? { CastsKeepMarks(n.instance.value, i.value); } else { SameKeepsMarks(n.callee, f); }
      AllCastsKeepMarks(n.arguments, args);
    case _ =>
  }

  lemma {:induction false} AllCastsKeepMarks(ns: seq<Node>, ms: seq<Node>)
    requires AllMarks(ns) && WithCastsAll(ns, ms)
    ensures AllMarks(ms)
    decreases ms
  {
    forall i | 0 <= i < |ms| ensures MarksExact(ms[i]) {
      CastsKeepMarks(ns[i], ms[i]);
    }
  }

  lemma MarkedTarget(l: Node)
    requires if IsVariable(l) then l.access == Write else MarksExact(l) && (FullyMarked(MarkDots(l)) <==> Assignable(l))
    ensures (Written(MarkDot(MarkDots(l))) && (l.DotExpr? ==> FullyMarked(MarkDots(l).value))) <==> (Assignable(l) && CanWrite(l))
  {
    hide AllFullyMarked, AllAssignable, AllMarks, MarkAll;
  }

  lemma MarkedBinary(op: Kind, l: Node, r: Node)
    requires MarksExact(BinaryExpr(op, l, r))
    requires FullyMarked(MarkDots(r)) <==> Assignable(r)
    requires !(op == OpAssign && IsVariable(l)) ==> (FullyMarked(MarkDots(l)) <==> Assignable(l))
    ensures FullyMarked(MarkDots(BinaryExpr(op, l, r))) <==> Assignable(BinaryExpr(op, l, r))
  {
    hide AllFullyMarked, AllAssignable, AllMarks, MarkAll, CanWrite;
    if op == OpAssign { MarkedTarget(l); }
  }

  lemma MarkedCall(i: Option<Node>, f: Node, args: seq<Node>)
    requires MarksExact(FuncCall(i, f, args))
    requires if i.Some? then FullyMarked(MarkDots(i.value)) <==> Assignable(i.value) else FullyMarked(MarkDots(f)) <==> Assignable(f)
    requires AllFullyMarked(MarkAll(args)) <==> AllAssignable(args)
    ensures FullyMarked(MarkDots(FuncCall(i, f, args))) <==> Assignable(FuncCall(i, f, args))
  {
    hide AllFullyMarked, AllAssignable, AllMarks, MarkAll;
  }

  /** Where parsing has marked the variables, the last pass marks the rest, exactly when every
      assignment has been accepted. */
  lemma {:induction false} MarkedExactlyWhenAssignable(n: Node)
    requires MarksExact(n)
    ensures FullyMarked(MarkDots(n)) <==> Assignable(n)
    decreases n, 1
  {
    hide AllFullyMarked, AllAssignable, AllMarks, MarkAll, Written, CanWrite;
    if OpensScope(n) {
      MarkedScope(n);
      return;
    }
    match n
    case UnaryExpr(_, v) => MarkedExactlyWhenAssignable(v);
    case BinaryExpr(op, l, r) =>
      MarkedExactlyWhenAssignable(r);
      if !(op == OpAssign && IsVariable(l)) { MarkedExactlyWhenAssignable(l); }
      MarkedBinary(op, l, r);
    case CastExpr(_, v) => MarkedExactlyWhenAssignable(v);
    case IfExpr(c, t, e) =>
      MarkedExactlyWhenAssignable(c);
      MarkedExactlyWhenAssignable(t);
      if e.Some? { MarkedExactlyWhenAssignable(e.value); }
    case WhileExpr(c, b) => MarkedExactlyWhenAssignable(c); MarkedExactlyWhenAssignable(b);
    case AssertExpr(c) => MarkedExactlyWhenAssignable(c);
    case DotExpr(v, _, _) => MarkedExactlyWhenAssignable(v);
    case FuncCall(i, f, args) =>
      if i.Some? { MarkedExactlyWhenAssignable(i.value); } else { MarkedExactlyWhenAssignable(f); }
      AllMarkedExactlyWhenAssignable(args);
      MarkedCall(i, f, args);
    case _ =>
  }

  lemma {:induction false} MarkedScope(n: Node)
    requires MarksExact(n) && OpensScope(n)
    ensures FullyMarked(MarkDots(n)) <==> Assignable(n)
    decreases n, 0
  {
    hide AllFullyMarked, AllAssignable, AllMarks, MarkAll, Written, CanWrite;
    match n
    case CompoundExpr(_, es) => AllMarkedExactlyWhenAssignable(es);
    case FuncDef(_, _, _, b) => MarkedExactlyWhenAssignable(b);
    case ClassDef(_, b) => MarkedExactlyWhenAssignable(b);
    case GenericClass(_, _, _) =>
    case NamespaceExpr(_, es) => AllMarkedExactlyWhenAssignable(es);
  }

  lemma {:induction false} AllMarkedExactlyWhenAssignable(ns: seq<Node>)
    requires AllMarks(ns)
    ensures AllFullyMarked(MarkAll(ns)) <==> AllAssignable(ns)
    decreases ns
  {
    forall i | 0 <= i < |ns| ensures FullyMarked(MarkAll(ns)[i]) <==> Assignable(ns[i]) {
      MarkedExactlyWhenAssignable(ns[i]);
    }
    assert forall i | 0 <= i < |ns| :: Assignable(ns[i]) ==> FullyMarked(MarkAll(ns)[i]);
  }

  /** From the tokens to the emitter: whatever was copied on the way and wherever casts were put,
      the marks are right exactly when the check on assignments passes. */
  lemma {:induction false} MarksReachTheEmitter(c: Cst, s: Storage, ks: seq<ExpansionKind>, m: Node)
    requires WithCasts(CopiedThrough(NodeOf(c, s), ks), m)
    ensures FullyMarked(MarkDots(m)) <==> Assignable(m)
  {
    ParsedMarks(c, s);
    CopiesKeepMarks(NodeOf(c, s), ks);
    CastsKeepMarks(CopiedThrough(NodeOf(c, s), ks), m);
    MarkedExactlyWhenAssignable(m);
  }
}
