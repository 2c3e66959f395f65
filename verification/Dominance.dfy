/** Definitions dominate uses in emitted code: the proof carries, for each block, blocks that lie on every
    path to it, and for each register the place of its definition. */
module Dominance {
  import opened Common
  import opened Types
  import opened Tree
  import opened Values
  import opened Eval
  import opened Machine
  import opened Emitter
  import opened EmitterFrame
  import opened Runs
  import opened Functions
  import opened WellFormed

  datatype Proof = Proof(doms: seq<set<BlockId>>, defs: seq<(BlockId, nat)>)

  /** Register `r` is defined before instruction `k` of block `b`. */
  predicate Seen(c: Proof, r: RegId, b: BlockId, k: nat) {
    r < |c.defs| && b < |c.doms| && if c.defs[r].0 == b then c.defs[r].1 < k else c.defs[r].0 in c.doms[b]
  }

  predicate OperandSeen(c: Proof, o: Operand, b: BlockId, k: nat) {
    o.Reg? ==> Seen(c, o.id, b, k)
  }

  predicate EdgeOk(c: Proof, a: BlockId, b: BlockId) {
    a < |c.doms| && b < |c.doms| && c.doms[b] <= c.doms[a] + {b}
  }

  predicate InstrSeen(s: Builder, c: Proof, i: Instr, b: BlockId, k: nat) {
    && (forall j | 0 <= j < |UsesOf(i)| :: OperandSeen(c, UsesOf(i)[j], b, k))
    && (i.Phi? ==> forall j | 0 <= j < |i.incoming| :: SourceSeen(s, c, i.incoming[j]))
  }

  predicate SourceSeen(s: Builder, c: Proof, source: (Operand, BlockId)) {
    source.1 < |s.blocks| && OperandSeen(c, source.0, source.1, |s.blocks[source.1].instrs|)
  }

  predicate TermSeen(s: Builder, c: Proof, b: BlockId)
    requires b < |s.blocks|
  {
    && (forall j | 0 <= j < |UsesOfTerm(s.blocks[b].term)| :: OperandSeen(c, UsesOfTerm(s.blocks[b].term)[j], b, |s.blocks[b].instrs|))
    && forall x | x in Targets(s.blocks[b].term) :: EdgeOk(c, b, x)
  }

  predicate DefHolds(s: Builder, c: Proof, r: RegId) {
    r < |c.defs| && c.defs[r].0 < |s.blocks| && c.defs[r].1 < |s.blocks[c.defs[r].0].instrs|
    && DefOf(s.blocks[c.defs[r].0].instrs[c.defs[r].1]) == Some(r)
  }

  /** The proof fits the function under construction. */
  predicate Holds(s: Builder, c: Proof) {
    && |c.doms| == |s.blocks| && |c.defs| == s.nextReg && s.cur < |s.blocks| && c.doms[0] == {0}
    && (forall b | 0 <= b < |s.blocks| :: b in c.doms[b])
    && (forall r | 0 <= r < s.nextReg :: DefHolds(s, c, r))
    && (forall b, k | 0 <= b < |s.blocks| && 0 <= k < |s.blocks[b].instrs| :: InstrSeen(s, c, s.blocks[b].instrs[k], b, k))
    && (forall b | 0 <= b < |s.blocks| :: TermSeen(s, c, b))
  }

  /** The value can be read where the next instruction goes. */
  predicate Available(s: Builder, c: Proof, v: Option<Operand>) {
    v.Some? ==> s.cur < |s.blocks| && OperandSeen(c, v.value, s.cur, |s.blocks[s.cur].instrs|)
  }

  // ----- what the proof shows -----

  lemma {:induction false} OnEveryPath(s: Builder, c: Proof, p: seq<BlockId>, d: BlockId)
    requires Holds(s, c) && Path(s.blocks, p) && d in c.doms[p[|p| - 1]]
    ensures d in p
    decreases |p|
  {
    var n := |p| - 1;
    if n > 0 {
      assert TermSeen(s, c, p[n - 1]) && p[n] in Targets(s.blocks[p[n - 1]].term);
      assert EdgeOk(c, p[n - 1], p[n]);
      if d != p[n] {
        var q := p[..n];
        assert Path(s.blocks, q) && q[|q| - 1] == p[n - 1];
        OnEveryPath(s, c, q, d);
      }
    }
  }

  lemma SeenDefined(s: Builder, c: Proof, o: Operand, b: BlockId, k: nat)
    requires Holds(s, c) && b < |s.blocks| && OperandSeen(c, o, b, k)
    ensures OperandDefined(s.blocks, o, b, k)
  {
    if o.Reg? {
      var g, d, j := s.blocks, c.defs[o.id].0, c.defs[o.id].1;
      assert DefHolds(s, c, o.id);
      if d != b {
        forall p | Path(g, p) && p[|p| - 1] == b ensures d in p {
          OnEveryPath(s, c, p, d);
        }
      }
      assert DefOf(g[d].instrs[j]) == Some(o.id);
    }
  }

  lemma HoldsDominated(s: Builder, c: Proof)
    requires Holds(s, c)
    ensures UsesDominated(s.blocks)
  {
    hide Defined, UsesOf, UsesOfTerm, Seen;
    var g := s.blocks;
    forall b, k, j | 0 <= b < |g| && 0 <= k < |g[b].instrs| && 0 <= j < |UsesOf(g[b].instrs[k])|
      ensures OperandDefined(g, UsesOf(g[b].instrs[k])[j], b, k)
    {
      assert InstrSeen(s, c, g[b].instrs[k], b, k);
      SeenDefined(s, c, UsesOf(g[b].instrs[k])[j], b, k);
    }
    forall b, j | 0 <= b < |g| && 0 <= j < |UsesOfTerm(g[b].term)|
      ensures OperandDefined(g, UsesOfTerm(g[b].term)[j], b, |g[b].instrs|)
    {
      assert TermSeen(s, c, b);
      SeenDefined(s, c, UsesOfTerm(g[b].term)[j], b, |g[b].instrs|);
    }
    forall b, k, j | 0 <= b < |g| && 0 <= k < |g[b].instrs| && g[b].instrs[k].Phi? && 0 <= j < |g[b].instrs[k].incoming|
      ensures PhiUseDefined(g, g[b].instrs[k].incoming[j])
    {
      var source := g[b].instrs[k].incoming[j];
      assert InstrSeen(s, c, g[b].instrs[k], b, k) && SourceSeen(s, c, source);
      SeenDefined(s, c, source.0, source.1, |g[source.1].instrs|);
    }
  }

  // ----- one step of the builder at a time -----

  /** `c2` goes on from `c`, and what could be read before can be read now. */
  predicate Follows(s: Builder, c: Proof, t: Builder, c2: Proof) {
    && Holds(s, c) && Holds(t, c2) && c.doms <= c2.doms && c.defs <= c2.defs && c.doms[s.cur] <= c2.doms[t.cur]
    && forall b | 0 <= b < |s.blocks| :: |s.blocks[b].instrs| <= |t.blocks[b].instrs|
  }

  lemma FollowsSelf(s: Builder, c: Proof)
    requires Holds(s, c)
    ensures Follows(s, c, s, c)
  {
    hide Holds;
  }

  lemma FollowsTrans(s: Builder, c: Proof, t: Builder, c2: Proof, u: Builder, c3: Proof)
    requires Follows(s, c, t, c2) && Follows(t, c2, u, c3)
    ensures Follows(s, c, u, c3)
  {
    hide DefHolds, InstrSeen, TermSeen;
  }

  /** What could be read stays readable. */
  lemma StaysAvailable(s: Builder, c: Proof, t: Builder, c2: Proof, v: Option<Operand>)
    requires Follows(s, c, t, c2) && Available(s, c, v)
    ensures Available(t, c2, v)
  {
    hide InstrSeen, TermSeen;
    if v.Some? && v.value.Reg? {
      assert DefHolds(t, c2, v.value.id);
    }
  }

  lemma AppendFollows(s: Builder, c: Proof, i: Instr)
    requires Holds(s, c) && DefOf(i).None? && InstrSeen(s, c, i, s.cur, |Cur(s).instrs|)
    ensures Follows(s, c, Append(s, i), c)
  {
    hide DefOf, UsesOf, Seen;
    var t, n := Append(s, i), |Cur(s).instrs|;
    forall b, k | 0 <= b < |t.blocks| && 0 <= k < |t.blocks[b].instrs| ensures InstrSeen(t, c, t.blocks[b].instrs[k], b, k) {
      if b == s.cur && k == n { StillSeen(s, c, t, c, i, b, k); } else { StillSeen(s, c, t, c, s.blocks[b].instrs[k], b, k); }
    }
    forall b | 0 <= b < |t.blocks| ensures TermSeen(t, c, b) {
      TermStillSeen(s, c, t, c, b);
    }
    forall r | 0 <= r < s.nextReg ensures DefHolds(t, c, r) {
      assert DefHolds(s, c, r);
    }
  }

  /** The blocks have only grown, and so has the proof. */
  predicate Longer(s: Builder, c: Proof, t: Builder, c2: Proof) {
    && |c.doms| == |s.blocks| <= |t.blocks| && c.doms <= c2.doms && c.defs <= c2.defs
    && forall b | 0 <= b < |s.blocks| :: |s.blocks[b].instrs| <= |t.blocks[b].instrs|
  }

  lemma StillSeen(s: Builder, c: Proof, t: Builder, c2: Proof, i: Instr, b: BlockId, k: nat)
    requires Longer(s, c, t, c2) && InstrSeen(s, c, i, b, k)
    ensures InstrSeen(t, c2, i, b, k)
  {
    hide UsesOf;
    if i.Phi? {
      forall j | 0 <= j < |i.incoming| ensures SourceSeen(t, c2, i.incoming[j]) {
        assert SourceSeen(s, c, i.incoming[j]);
      }
    }
  }

  lemma TermStillSeen(s: Builder, c: Proof, t: Builder, c2: Proof, b: BlockId)
    requires Longer(s, c, t, c2) && b < |s.blocks| && TermSeen(s, c, b) && t.blocks[b].term == s.blocks[b].term
    ensures TermSeen(t, c2, b)
  {
    hide UsesOfTerm, Targets;
    forall x | x in Targets(t.blocks[b].term) ensures EdgeOk(c2, b, x) {
      assert EdgeOk(c, b, x);
    }
  }

  /** The proof after one more register has been defined. */
  function Defining(s: Builder, c: Proof): Proof {
    c.(defs := c.defs + [(s.cur, |Cur(s).instrs|)])
  }

  lemma LastSeen(c: Proof, b: BlockId, k: nat)
    requires |c.defs| > 0 && c.defs[|c.defs| - 1] == (b, k) && b < |c.doms|
    ensures Seen(c, |c.defs| - 1, b, k + 1)
  {
  }

  lemma DefineFollows(s: Builder, c: Proof, i: Instr)
    requires Holds(s, c) && DefOf(i) == Some(s.nextReg) && InstrSeen(s, c, i, s.cur, |Cur(s).instrs|)
    ensures Follows(s, c, AppendReg(s, i), Defining(s, c))
    ensures Available(AppendReg(s, i), Defining(s, c), Some(Fresh(s)))
  {
    hide DefOf, UsesOf, Seen, InstrSeen, TermSeen;
    var t, c2, n := AppendReg(s, i), Defining(s, c), |Cur(s).instrs|;
    forall b, k | 0 <= b < |t.blocks| && 0 <= k < |t.blocks[b].instrs| ensures InstrSeen(t, c2, t.blocks[b].instrs[k], b, k) {
      if b == s.cur && k == n { StillSeen(s, c, t, c2, i, b, k); } else { StillSeen(s, c, t, c2, s.blocks[b].instrs[k], b, k); }
    }
    forall b | 0 <= b < |t.blocks| ensures TermSeen(t, c2, b) {
      TermStillSeen(s, c, t, c2, b);
    }
    forall r | 0 <= r < t.nextReg ensures DefHolds(t, c2, r) {
      if r < s.nextReg { assert DefHolds(s, c, r); }
    }
    LastSeen(c2, s.cur, n);
  }

  /** New blocks are reached through the insertion block only. */
  function Creating(s: Builder, c: Proof, n: nat): Proof
    requires s.cur < |c.doms|
  {
    c.(doms := c.doms + seq(n, i requires 0 <= i < n => c.doms[s.cur] + {|c.doms| + i}))
  }

  lemma CreateFollows(s: Builder, c: Proof, n: nat)
    requires Holds(s, c)
    ensures Follows(s, c, Create(s, n), Creating(s, c, n))
    ensures forall b | |s.blocks| <= b < |s.blocks| + n :: Creating(s, c, n).doms[b] == c.doms[s.cur] + {b}
  {
    hide UsesOf, Seen, InstrSeen;
    var t, c2 := Create(s, n), Creating(s, c, n);
    forall b, k | 0 <= b < |t.blocks| && 0 <= k < |t.blocks[b].instrs| ensures InstrSeen(t, c2, t.blocks[b].instrs[k], b, k) {
      StillSeen(s, c, t, c2, s.blocks[b].instrs[k], b, k);
    }
    forall b | 0 <= b < |t.blocks| ensures TermSeen(t, c2, b) {
      if b < |s.blocks| { TermStillSeen(s, c, t, c2, b); }
    }
    forall r | 0 <= r < t.nextReg ensures DefHolds(t, c2, r) {
      assert DefHolds(s, c, r);
    }
  }

  /** A branch to blocks that have no more dominators than the insertion block. */
  lemma BranchHolds(s: Builder, c: Proof, t: Term, b: BlockId)
    requires Holds(s, c) && b < |s.blocks| && forall x | x in Targets(t) :: EdgeOk(c, s.cur, x)
    requires forall j | 0 <= j < |UsesOfTerm(t)| :: OperandSeen(c, UsesOfTerm(t)[j], s.cur, |Cur(s).instrs|)
    ensures Holds(Branch(s, t, b), c) && Longer(s, c, Branch(s, t, b), c)
  {
    hide UsesOf, UsesOfTerm, Seen, InstrSeen;
    var u := Branch(s, t, b);
    forall a, k | 0 <= a < |u.blocks| && 0 <= k < |u.blocks[a].instrs| ensures InstrSeen(u, c, u.blocks[a].instrs[k], a, k) {
      StillSeen(s, c, u, c, s.blocks[a].instrs[k], a, k);
    }
    forall a | 0 <= a < |u.blocks| ensures TermSeen(u, c, a) {
      if a != s.cur { TermStillSeen(s, c, u, c, a); }
    }
    forall r | 0 <= r < u.nextReg ensures DefHolds(u, c, r) {
      assert DefHolds(s, c, r);
    }
  }

  /** Block `b` was created when `s.cur` was the insertion block. */
  predicate CreatedAt(s: Builder, c: Proof, c2: Proof, b: BlockId) {
    s.cur < |c.doms| && b < |c2.doms| && c2.doms[b] == c.doms[s.cur] + {b}
  }

  lemma HoldsSize(s: Builder, c: Proof)
    requires Holds(s, c)
    ensures s.cur < |c.doms| == |s.blocks|
  {
  }

  lemma CreateAll(s: Builder, c: Proof, n: nat) returns (c2: Proof)
    requires Holds(s, c)
    ensures Follows(s, c, Create(s, n), c2) && Create(s, n).cur == s.cur
    ensures forall b | |s.blocks| <= b < |s.blocks| + n :: CreatedAt(s, c, c2, b)
  {
    hide Holds;
    HoldsSize(s, c);
    c2 := Creating(s, c, n);
    CreateFollows(s, c, n);
  }

  lemma StillCreated(s: Builder, c: Proof, t: Builder, c2: Proof, u: Builder, c3: Proof, b: BlockId)
    requires CreatedAt(s, c, c2, b) && Follows(t, c2, u, c3)
    ensures CreatedAt(s, c, c3, b)
  {
    hide Holds;
  }

  /** Going on in a block created at `s`. */
  lemma BranchFollows(s: Builder, c: Proof, u: Builder, cu: Proof, t: Term, b: BlockId)
    requires Follows(s, c, u, cu) && CreatedAt(s, c, cu, b) && forall x | x in Targets(t) :: CreatedAt(s, c, cu, x)
    requires forall j | 0 <= j < |UsesOfTerm(t)| :: Available(u, cu, Some(UsesOfTerm(t)[j]))
    ensures Follows(s, c, Branch(u, t, b), cu) && Longer(u, cu, Branch(u, t, b), cu) && Branch(u, t, b).cur == b
  {
    hide InstrSeen, TermSeen, DefHolds, Seen, UsesOfTerm;
    BranchHolds(u, cu, t, b);
  }

  /** A value stays seen at the end of its block. */
  lemma SourceStays(s: Builder, c: Proof, v: Option<Operand>, t: Builder, c2: Proof)
    requires Holds(s, c) && Available(s, c, v) && Longer(s, c, t, c2)
    ensures SourceSeen(t, c2, (Get(v), s.cur))
  {
    hide InstrSeen, TermSeen, DefHolds;
  }

  lemma LongerFollows(s: Builder, c: Proof, t: Builder, c2: Proof)
    requires Follows(s, c, t, c2)
    ensures Longer(s, c, t, c2)
  {
    hide InstrSeen, TermSeen, DefHolds;
  }

  lemma LongerTrans(s: Builder, c: Proof, t: Builder, c2: Proof, u: Builder, c3: Proof)
    requires Longer(s, c, t, c2) && Longer(t, c2, u, c3)
    ensures Longer(s, c, u, c3)
  {
  }

  lemma GetAvailable(s: Builder, c: Proof, v: Option<Operand>)
    requires Holds(s, c) && Available(s, c, v)
    ensures Available(s, c, Some(Get(v)))
  {
    hide InstrSeen, TermSeen, DefHolds;
  }

  // ----- emission -----

  lemma {:induction false} EmitDominated(s: Builder, c: Proof, e: Expr) returns (c2: Proof)
    requires Holds(s, c) && Emittable(e) && LogicalOk(e)
    ensures Follows(s, c, Emit(s, e).st, c2) && Available(Emit(s, e).st, c2, Emit(s, e).val)
    decreases e, 4
  {
    hide Holds, Follows, InstrSeen, TypeOf, OpcodeFor;
    c2 := c;
    FollowsSelf(s, c);
    NothingAvailable(s, c);
    match e
    case Var(sym, _) =>
      c2 := Defining(s, c);
      LoadSeen(s, c, sym);
      DefineFollows(s, c, Load(s.nextReg, Addr(sym)));
    case Binary(op, l, r) =>
      if IsLogical(op) { c2 := LogicalDominated(s, c, op, l, r); }
      else { c2 := ArithmeticDominated(s, c, op, l, r); }
    case Cast(_, t, v) => c2 := CastDominated(s, c, t, v);
    case If(cond, thn, els) => c2 := IfDominated(s, c, cond, thn, els);
    case While(cond, body) => c2 := WhileDominated(s, c, cond, body);
    case Assert(line, cond) =>
      c2 := EmitDominated(s, c, cond);
      c2 := AssertDominated(s, c, Emit(s, cond), c2, line);
    case Compound(es) => c2 := SeqDominated(s, c, es, None);
    case LitInt(n) => ConstAvailable(s, c, IntV(n));
    case LitFloat(f) => ConstAvailable(s, c, FloatV(f));
    case LitBool(b) => ConstAvailable(s, c, BoolV(b));
  }

  lemma ConstAvailable(s: Builder, c: Proof, v: Value)
    requires Holds(s, c)
    ensures Available(s, c, Some(Const(v)))
  {
  }

  lemma LoadSeen(s: Builder, c: Proof, sym: Sym)
    ensures InstrSeen(s, c, Load(s.nextReg, Addr(sym)), s.cur, |Cur(s).instrs|)
  {
  }

  /** An instruction that is not a phi and reads available operands. */
  lemma UsesSeen(s: Builder, c: Proof, i: Instr)
    requires Holds(s, c) && !i.Phi? && forall j | 0 <= j < |UsesOf(i)| :: Available(s, c, Some(UsesOf(i)[j]))
    ensures InstrSeen(s, c, i, s.cur, |Cur(s).instrs|)
  {
    hide UsesOf, TermSeen, DefHolds, Seen;
  }

  lemma {:induction false} CastDominated(s: Builder, c: Proof, t: Prim, v: Expr) returns (c2: Proof)
    requires Holds(s, c) && Emittable(v) && LogicalOk(v) && TypeOf(v).Some? && CastSupported(TypeOf(v).value, t)
    ensures var x := EmitCast(Emit(s, v), TypeOf(v), t); Follows(s, c, x.st, c2) && Available(x.st, c2, x.val)
    decreases v, 5
  {
    hide Holds, Follows, Available, InstrSeen, Emittable, LogicalOk, TypeOf, Emit;
    c2 := EmitDominated(s, c, v);
    var x := Emit(s, v);
    if TypeOf(v) != Some(t) {
      FollowsHolds(s, c, x.st, c2);
      GetAvailable(x.st, c2, x.val);
      var i := Conv(x.st.nextReg, ConvFor(TypeOf(v).value, t), Get(x.val));
      UsesSeen(x.st, c2, i);
      DefineFollows(x.st, c2, i);
      FollowsTrans(s, c, x.st, c2, AppendReg(x.st, i), Defining(x.st, c2));
      c2 := Defining(x.st, c2);
    }
  }

  lemma FollowsHolds(s: Builder, c: Proof, t: Builder, c2: Proof)
    requires Follows(s, c, t, c2)
    ensures Holds(s, c) && Holds(t, c2)
  {
  }

  lemma {:induction false} ArithmeticDominated(s: Builder, c: Proof, op: BinOp, l: Expr, r: Expr) returns (c2: Proof)
    requires Holds(s, c) && Emittable(Binary(op, l, r)) && LogicalOk(Binary(op, l, r)) && !IsLogical(op)
    ensures var x := Emit(s, Binary(op, l, r)); Follows(s, c, x.st, c2) && Available(x.st, c2, x.val)
    decreases Binary(op, l, r), 2
  {
    hide Holds, Follows, Available, InstrSeen, TypeOf, OpcodeFor;
    var c1 := EmitDominated(s, c, r);
    var x := Emit(s, r);
    FollowsHolds(s, c, x.st, c1);
    if op == Assign {
      c2 := c1;
      GetAvailable(x.st, c1, x.val);
      AddressAvailable(x.st, c1, l.sym);
      StoreDominated(s, c, x, c1, l.sym);
    } else {
      c2 := EmitDominated(x.st, c1, l);
      var y := Emit(x.st, l);
      StaysAvailable(x.st, c1, y.st, c2, x.val);
      FollowsTrans(s, c, x.st, c1, y.st, c2);
      FollowsHolds(s, c, y.st, c2);
      GetAvailable(y.st, c2, x.val);
      GetAvailable(y.st, c2, y.val);
      var code := if TypeOf(r).Some? && OpcodeFor(TypeOf(r).value, op).Some? then OpcodeFor(TypeOf(r).value, op).value else AddI;
      var i := Op2(y.st.nextReg, code, Get(y.val), Get(x.val));
      UsesSeen(y.st, c2, i);
      DefineFollows(y.st, c2, i);
      FollowsTrans(s, c, y.st, c2, AppendReg(y.st, i), Defining(y.st, c2));
      c2 := Defining(y.st, c2);
    }
  }

  lemma AddressAvailable(s: Builder, c: Proof, sym: Sym)
    requires Holds(s, c)
    ensures Available(s, c, Some(Addr(sym)))
  {
  }

  lemma StoreDominated(s: Builder, c: Proof, x: Emission, c1: Proof, sym: Sym)
    requires Follows(s, c, x.st, c1) && Available(x.st, c1, x.val)
    ensures var t := Append(x.st, Store(Get(x.val), Addr(sym))); Follows(s, c, t, c1) && Available(t, c1, x.val)
  {
    hide Holds, Follows, Available, InstrSeen;
    var i := Store(Get(x.val), Addr(sym));
    FollowsHolds(s, c, x.st, c1);
    GetAvailable(x.st, c1, x.val);
    AddressAvailable(x.st, c1, sym);
    UsesSeen(x.st, c1, i);
    AppendFollows(x.st, c1, i);
    StaysAvailable(x.st, c1, Append(x.st, i), c1, x.val);
    FollowsTrans(s, c, x.st, c1, Append(x.st, i), c1);
  }

  lemma {:induction false} SeqDominated(s: Builder, c: Proof, es: seq<Expr>, last: Option<Operand>) returns (c2: Proof)
    requires Holds(s, c) && Available(s, c, last) && forall i | 0 <= i < |es| :: Emittable(es[i]) && LogicalOk(es[i])
    ensures var x := EmitSeq(s, es, last); Follows(s, c, x.st, c2) && Available(x.st, c2, x.val)
    decreases es, 0
  {
    hide Holds, Follows, Available, Emittable, LogicalOk, Emit;
    c2 := c;
    FollowsSelf(s, c);
    if es != [] {
      var c1 := EmitDominated(s, c, es[0]);
      var x := Emit(s, es[0]);
      var last1 := if x.val.Some? then x.val else last;
      FollowsHolds(s, c, x.st, c1);
      StaysAvailable(s, c, x.st, c1, last);
      c2 := SeqDominated(x.st, c1, es[1..], last1);
      FollowsTrans(s, c, x.st, c1, EmitSeq(x.st, es[1..], last1).st, c2);
    }
  }

  // ----- forms with blocks of their own -----

  lemma {:induction false} StraightCur(s: Builder, e: Expr)
    requires Straight(e)
    ensures Emit(s, e).st.cur == s.cur
    decreases e, 1
  {
    match e
    case Binary(op, l, r) =>
      StraightCur(s, r);
      StraightCur(Emit(s, r).st, l);
    case Cast(_, _, v) => StraightCur(s, v);
    case Compound(es) => StraightSeqCur(s, es, None);
    case _ =>
  }

  lemma {:induction false} StraightSeqCur(s: Builder, es: seq<Expr>, last: Option<Operand>)
    requires forall i | 0 <= i < |es| :: Straight(es[i])
    ensures EmitSeq(s, es, last).st.cur == s.cur
    decreases es, 0
  {
    if es != [] {
      StraightCur(s, es[0]);
      var x := Emit(s, es[0]);
      StraightSeqCur(x.st, es[1..], if x.val.Some? then x.val else last);
    }
  }

  lemma PhiSeen(s: Builder, c: Proof, dst: RegId, u: (Operand, BlockId), v: (Operand, BlockId), b: BlockId, k: nat)
    requires SourceSeen(s, c, u) && SourceSeen(s, c, v)
    ensures InstrSeen(s, c, Phi(dst, [u, v]), b, k)
  {
    hide SourceSeen;
  }

  lemma ConstSeen(s: Builder, c: Proof, v: Value, b: BlockId)
    requires b < |s.blocks|
    ensures SourceSeen(s, c, (Const(v), b))
  {
  }

  lemma LogicalTerm(op: BinOp, v: Operand, rBlock: BlockId, endBlock: BlockId)
    ensures var t := LogicalBranch(op, v, rBlock, endBlock); Targets(t) == {rBlock, endBlock} && UsesOfTerm(t) == [v]
  {
  }

  lemma LongerSize(s: Builder, c: Proof, t: Builder, c2: Proof)
    requires Follows(s, c, t, c2)
    ensures |s.blocks| <= |t.blocks| && s.cur < |s.blocks|
  {
  }

  lemma {:induction false} LogicalDominated(s: Builder, c: Proof, op: BinOp, l: Expr, r: Expr) returns (c2: Proof)
    requires Holds(s, c) && Emittable(Binary(op, l, r)) && LogicalOk(Binary(op, l, r)) && IsLogical(op)
    ensures var x := EmitLogical(s, op, l, r); Follows(s, c, x.st, c2) && Available(x.st, c2, x.val)
    decreases Binary(op, l, r), 2
  {
    hide Holds, Follows, Available, InstrSeen, SourceSeen, CreatedAt, Longer, Emit, Create, Branch, LogicalBranch, AppendReg, UsesOfTerm, Targets;
    var rBlock, endBlock, s0 := |s.blocks|, |s.blocks| + 1, Create(s, 2);
    var c0 := CreateAll(s, c, 2);
    FollowsHolds(s, c, s0, c0);
    var cx := EmitDominated(s0, c0, l);
    var x := Emit(s0, l);
    var t := LogicalBranch(op, Get(x.val), rBlock, endBlock);
    StillCreated(s, c, s0, c0, x.st, cx, rBlock);
    StillCreated(s, c, s0, c0, x.st, cx, endBlock);
    FollowsTrans(s, c, s0, c0, x.st, cx);
    FollowsHolds(s, c, x.st, cx);
    GetAvailable(x.st, cx, x.val);
    LogicalTerm(op, Get(x.val), rBlock, endBlock);
    BranchFollows(s, c, x.st, cx, t, rBlock);
    var s2 := Branch(x.st, t, rBlock);
    FollowsHolds(s, c, s2, cx);
    var cy := EmitDominated(s2, cx, r);
    var y := Emit(s2, r);
    StillCreated(s, c, s2, cx, y.st, cy, endBlock);
    FollowsTrans(s, c, s2, cx, y.st, cy);
    FollowsHolds(s, c, y.st, cy);
    JumpTerm(endBlock);
    BranchFollows(s, c, y.st, cy, Br(endBlock), endBlock);
    var s4 := Branch(y.st, Br(endBlock), endBlock);
    FollowsHolds(s, c, s4, cy);
    LongerSize(s, c, s4, cy);
    SourceStays(y.st, cy, y.val, s4, cy);
    StraightCur(s2, r);
    ConstSeen(s4, cy, BoolV(op == LOr), s.cur);
    var phi := LogicalPhi(op, s4.nextReg, s.cur, Get(y.val), rBlock);
    PhiSeen(s4, cy, s4.nextReg, (Const(BoolV(op == LOr)), s.cur), (Get(y.val), rBlock), s4.cur, |Cur(s4).instrs|);
    DefineFollows(s4, cy, phi);
    c2 := Defining(s4, cy);
    FollowsTrans(s, c, s4, cy, AppendReg(s4, phi), c2);
  }

  lemma JumpTerm(b: BlockId)
    ensures Targets(Br(b)) == {b} && UsesOfTerm(Br(b)) == []
  {
  }

  lemma CondTerm(v: Operand, y: BlockId, n: BlockId)
    ensures Targets(CondBr(v, y, n)) == {y, n} && UsesOfTerm(CondBr(v, y, n)) == [v]
  {
  }

  lemma {:induction false} IfDominated(s: Builder, c: Proof, cond: Expr, thn: Expr, els: Option<Expr>) returns (c2: Proof)
    requires Holds(s, c) && Emittable(If(cond, thn, els)) && LogicalOk(If(cond, thn, els))
    ensures var x := EmitIf(s, cond, thn, els); Follows(s, c, x.st, c2) && Available(x.st, c2, x.val)
    decreases If(cond, thn, els), 2
  {
    hide Holds, Follows, Available, InstrSeen, SourceSeen, CreatedAt, Longer, Emit, Create, Branch, AppendReg, UsesOfTerm, Targets, TypeOf;
    var cb := EmitDominated(s, c, cond);
    var b := Emit(s, cond);
    FollowsHolds(s, c, b.st, cb);
    var thenBlock, elseBlock, endBlock, s0 := |b.st.blocks|, |b.st.blocks| + 1, |b.st.blocks| + 2, Create(b.st, 3);
    var c0 := CreateAll(b.st, cb, 3);
    FollowsHolds(b.st, cb, s0, c0);
    StaysAvailable(b.st, cb, s0, c0, b.val);
    GetAvailable(s0, c0, b.val);
    CondTerm(Get(b.val), thenBlock, elseBlock);
    var t := CondBr(Get(b.val), thenBlock, elseBlock);
    BranchFollows(b.st, cb, s0, c0, t, thenBlock);
    var s1 := Branch(s0, t, thenBlock);
    FollowsHolds(b.st, cb, s1, c0);
    var cx := EmitDominated(s1, c0, thn);
    var x := Emit(s1, thn);
    StillCreated(b.st, cb, s1, c0, x.st, cx, elseBlock);
    StillCreated(b.st, cb, s1, c0, x.st, cx, endBlock);
    FollowsTrans(b.st, cb, s1, c0, x.st, cx);
    FollowsHolds(b.st, cb, x.st, cx);
    JumpTerm(endBlock);
    BranchFollows(b.st, cb, x.st, cx, Br(endBlock), elseBlock);
    var s3 := Branch(x.st, Br(endBlock), elseBlock);
    FollowsHolds(b.st, cb, s3, cx);
    var cy, y := cx, Emission(s3, None);
    FollowsSelf(s3, cx);
    NothingAvailable(s3, cx);
    if els.Some? {
      cy := EmitDominated(s3, cx, els.value);
      y := Emit(s3, els.value);
    }
    StillCreated(b.st, cb, s3, cx, y.st, cy, endBlock);
    FollowsTrans(b.st, cb, s3, cx, y.st, cy);
    FollowsHolds(b.st, cb, y.st, cy);
    BranchFollows(b.st, cb, y.st, cy, Br(endBlock), endBlock);
    var s5 := Branch(y.st, Br(endBlock), endBlock);
    FollowsTrans(s, c, b.st, cb, s5, cy);
    FollowsHolds(s, c, s5, cy);
    LongerFollows(s3, cx, y.st, cy);
    LongerTrans(x.st, cx, s3, cx, y.st, cy);
    LongerTrans(x.st, cx, y.st, cy, s5, cy);
    SourceStays(x.st, cx, x.val, s5, cy);
    SourceStays(y.st, cy, y.val, s5, cy);
    NothingAvailable(s5, cy);
    c2 := cy;
    if Valued(If(cond, thn, els)) {
      var phi := Phi(s5.nextReg, [(Get(x.val), x.st.cur), (Get(y.val), y.st.cur)]);
      PhiSeen(s5, cy, s5.nextReg, (Get(x.val), x.st.cur), (Get(y.val), y.st.cur), s5.cur, |Cur(s5).instrs|);
      DefineFollows(s5, cy, phi);
      c2 := Defining(s5, cy);
      FollowsTrans(s, c, s5, cy, AppendReg(s5, phi), c2);
    }
  }

  lemma NothingAvailable(s: Builder, c: Proof)
    ensures Available(s, c, None)
  {
  }

  lemma {:induction false} WhileDominated(s: Builder, c: Proof, cond: Expr, body: Expr) returns (c2: Proof)
    requires Holds(s, c) && Emittable(While(cond, body)) && LogicalOk(While(cond, body))
    ensures var x := EmitWhile(s, cond, body); Follows(s, c, x.st, c2) && Available(x.st, c2, x.val)
    decreases While(cond, body), 2
  {
    hide Holds, Follows, Available, InstrSeen, CreatedAt, Longer, Emit, Create, Branch, UsesOfTerm, Targets, TypeOf;
    var condBlock, bodyBlock, endBlock, s0 := |s.blocks|, |s.blocks| + 1, |s.blocks| + 2, Create(s, 3);
    var c0 := CreateAll(s, c, 3);
    FollowsHolds(s, c, s0, c0);
    JumpTerm(condBlock);
    BranchFollows(s, c, s0, c0, Br(condBlock), condBlock);
    var s1 := Branch(s0, Br(condBlock), condBlock);
    FollowsHolds(s, c, s1, c0);
    var cb := EmitDominated(s1, c0, cond);
    var b := Emit(s1, cond);
    StillCreated(s, c, s1, c0, b.st, cb, condBlock);
    StillCreated(s, c, s1, c0, b.st, cb, bodyBlock);
    StillCreated(s, c, s1, c0, b.st, cb, endBlock);
    FollowsTrans(s, c, s1, c0, b.st, cb);
    FollowsHolds(s, c, b.st, cb);
    GetAvailable(b.st, cb, b.val);
    CondTerm(Get(b.val), bodyBlock, endBlock);
    var t := CondBr(Get(b.val), bodyBlock, endBlock);
    BranchFollows(s, c, b.st, cb, t, bodyBlock);
    var s3 := Branch(b.st, t, bodyBlock);
    FollowsHolds(s, c, s3, cb);
    c2 := EmitDominated(s3, cb, body);
    var x := Emit(s3, body);
    StillCreated(s, c, s3, cb, x.st, c2, condBlock);
    StillCreated(s, c, s3, cb, x.st, c2, endBlock);
    FollowsTrans(s, c, s3, cb, x.st, c2);
    FollowsHolds(s, c, x.st, c2);
    BranchFollows(s, c, x.st, c2, Br(condBlock), endBlock);
    NothingAvailable(Branch(x.st, Br(condBlock), endBlock), c2);
  }

  lemma AssertDominated(s: Builder, c: Proof, b: Emission, cb: Proof, line: nat) returns (c2: Proof)
    requires Follows(s, c, b.st, cb) && Available(b.st, cb, b.val)
    ensures var x := EmitAssert(b, line); Follows(s, c, x.st, c2) && Available(x.st, c2, x.val)
  {
    hide Holds, Follows, Available, InstrSeen, CreatedAt, Longer, Create, Branch, Append, UsesOfTerm, Targets;
    var passBlock, failBlock, endBlock, s0 := |b.st.blocks|, |b.st.blocks| + 1, |b.st.blocks| + 2, Create(b.st, 3);
    FollowsHolds(s, c, b.st, cb);
    var c0 := CreateAll(b.st, cb, 3);
    FollowsHolds(b.st, cb, s0, c0);
    StaysAvailable(b.st, cb, s0, c0, b.val);
    GetAvailable(s0, c0, b.val);
    CondTerm(Get(b.val), passBlock, failBlock);
    var t := CondBr(Get(b.val), passBlock, failBlock);
    BranchFollows(b.st, cb, s0, c0, t, passBlock);
    var s1 := Branch(s0, t, passBlock);
    CallFollows(b.st, cb, s1, c0, CallAssertPass);
    var s2 := Append(s1, CallAssertPass);
    JumpTerm(endBlock);
    BranchFollows(b.st, cb, s2, c0, Br(endBlock), failBlock);
    var s3 := Branch(s2, Br(endBlock), failBlock);
    CallFollows(b.st, cb, s3, c0, CallAssertFail(line));
    var s4 := Append(s3, CallAssertFail(line));
    BranchFollows(b.st, cb, s4, c0, Br(endBlock), endBlock);
    FollowsTrans(s, c, b.st, cb, Branch(s4, Br(endBlock), endBlock), c0);
    NothingAvailable(Branch(s4, Br(endBlock), endBlock), c0);
    c2 := c0;
  }

  /** A call of the runtime reads no registers. */
  lemma CallFollows(s: Builder, c: Proof, t: Builder, c2: Proof, i: Instr)
    requires Follows(s, c, t, c2) && (i.CallAssertPass? || i.CallAssertFail?)
    ensures Follows(s, c, Append(t, i), c2)
  {
    hide Holds, Follows, Append, InstrSeen;
    FollowsHolds(s, c, t, c2);
    UsesSeen(t, c2, i);
    AppendFollows(t, c2, i);
    FollowsTrans(s, c, t, c2, Append(t, i), c2);
  }

  // ----- the whole function -----

  lemma BeginHolds()
    ensures Holds(BEGIN, Proof([{0}], []))
  {
  }

  lemma DefStays(s: Builder, c: Proof, t: Builder, r: RegId)
    requires DefHolds(s, c, r) && |t.blocks| == |s.blocks| && forall b | 0 <= b < |s.blocks| :: t.blocks[b].instrs == s.blocks[b].instrs
    ensures DefHolds(t, c, r)
  {
  }

  lemma ReturnHolds(x: Emission, c: Proof, ret: Prim)
    requires Holds(x.st, c) && Available(x.st, c, x.val)
    ensures Holds(Terminate(x.st, Return(x, ret)), c)
  {
    hide InstrSeen, DefHolds, Seen, UsesOf;
    var s, t := x.st, Return(x, ret);
    var u := Terminate(s, t);
    GetAvailable(s, c, x.val);
    forall a, k | 0 <= a < |u.blocks| && 0 <= k < |u.blocks[a].instrs| ensures InstrSeen(u, c, u.blocks[a].instrs[k], a, k) {
      StillSeen(s, c, u, c, s.blocks[a].instrs[k], a, k);
    }
    forall a | 0 <= a < |u.blocks| ensures TermSeen(u, c, a) {
      if a != s.cur { TermStillSeen(s, c, u, c, a); }
    }
    forall r | 0 <= r < u.nextReg ensures DefHolds(u, c, r) {
      DefStays(s, c, u, r);
    }
  }

  /** In the code emitted for a function whose logical operators have plain operands every definition
      dominates its uses. */
  lemma FunctionDominated(body: Expr, ret: Prim)
    requires Emittable(body) && LogicalOk(body)
    ensures UsesDominated(EmitFunction(body, ret).blocks)
  {
    hide Holds, Follows, Available, UsesDominated, Emittable, LogicalOk, Emit, Terminate, Return;
    BeginHolds();
    var c := EmitDominated(BEGIN, Proof([{0}], []), body);
    var x := Emit(BEGIN, body);
    FollowsHolds(BEGIN, Proof([{0}], []), x.st, c);
    ReturnHolds(x, c, ret);
    HoldsDominated(EmitFunction(body, ret), c);
  }
}
