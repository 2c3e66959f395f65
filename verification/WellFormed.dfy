/** What the module verifier checks of an emitted function, and exactly when emission passes. */
module WellFormed {
  import opened Common
  import opened Types
  import opened Tree
  import opened Values
  import opened Eval
  import opened Machine
  import opened Emitter
  import opened EmitterFrame
  import opened Runs
  import opened Simulation
  import opened Functions

  // ----- the checks -----

  function Preds(g: Code, b: BlockId): set<BlockId> {
    set a | 0 <= a < |g| && b in Targets(g[a].term)
  }

  function Sources(incoming: seq<(Operand, BlockId)>): seq<BlockId> {
    seq(|incoming|, i requires 0 <= i < |incoming| => incoming[i].1)
  }

  predicate Distinct(ids: seq<BlockId>) {
    forall i, j | 0 <= i < j < |ids| :: ids[i] != ids[j]
  }

  /** One entry for each predecessor. */
  ghost predicate PhiMatches(i: Instr, preds: set<BlockId>) {
    i.Phi? ==> Distinct(Sources(i.incoming)) && (forall b: BlockId :: b in Sources(i.incoming) <==> b in preds)
  }

  ghost predicate PhisOk(g: Code) {
    forall b, k | 0 <= b < |g| && 0 <= k < |g[b].instrs| :: PhiMatches(g[b].instrs[k], Preds(g, b))
  }

  function DefOf(i: Instr): Option<RegId> {
    match i
    case Load(dst, _) => Some(dst)
    case Op2(dst, _, _, _) => Some(dst)
    case Conv(dst, _, _) => Some(dst)
    case Phi(dst, _) => Some(dst)
    case _ => None
  }

  /** A register below `n` is defined by one instruction only, and a phi stands first in its block. */
  predicate DefsOk(g: Code, n: RegId) {
    && (forall b, k | 0 <= b < |g| && 0 <= k < |g[b].instrs| :: (g[b].instrs[k].Phi? ==> k == 0)
                                                             && (DefOf(g[b].instrs[k]).Some? ==> DefOf(g[b].instrs[k]).value < n))
    && (forall b, k, b2, k2 | 0 <= b < |g| && 0 <= k < |g[b].instrs| && 0 <= b2 < |g| && 0 <= k2 < |g[b2].instrs|
                              && DefOf(g[b].instrs[k]).Some?
                              && DefOf(g[b].instrs[k]) == DefOf(g[b2].instrs[k2]) :: b == b2 && k == k2)
  }

  ghost predicate TargetsExist(g: Code) {
    forall b, to | 0 <= b < |g| && to in Targets(g[b].term) :: to < |g|
  }

  /** A path from the first block. */
  predicate Path(g: Code, p: seq<BlockId>) {
    && p != [] && p[0] == 0 && (forall i | 0 <= i < |p| :: p[i] < |g|)
    && forall i | 0 <= i < |p| - 1 :: p[i + 1] in Targets(g[p[i]].term)
  }

  /** Control does not come to `b` without having been in `d`. */
  ghost predicate Dominates(g: Code, d: BlockId, b: BlockId) {
    forall p | Path(g, p) && p[|p| - 1] == b :: d in p
  }

  /** Register `r` has a value whenever control is before instruction `k` of block `b`. */
  ghost predicate Defined(g: Code, r: RegId, b: BlockId, k: nat) {
    exists d, j | 0 <= d < |g| && 0 <= j < |g[d].instrs| ::
      DefOf(g[d].instrs[j]) == Some(r) && if d == b then j < k else Dominates(g, d, b)
  }

  /** The operands an instruction reads where it stands. */
  function UsesOf(i: Instr): seq<Operand> {
    match i
    case Load(_, p) => [p]
    case Store(v, p) => [v, p]
    case Op2(_, _, a, b) => [a, b]
    case Conv(_, _, a) => [a]
    case _ => []
  }

  function UsesOfTerm(t: Term): seq<Operand> {
    match t
    case CondBr(c, _, _) => [c]
    case Ret(Some(v)) => [v]
    case _ => []
  }

  ghost predicate OperandDefined(g: Code, o: Operand, b: BlockId, k: nat) {
    o.Reg? ==> Defined(g, o.id, b, k)
  }

  /** Definitions dominate uses; a phi reads its operands at the ends of the blocks they come from. */
  ghost predicate UsesDominated(g: Code) {
    && (forall b, k, j | 0 <= b < |g| && 0 <= k < |g[b].instrs| && 0 <= j < |UsesOf(g[b].instrs[k])| ::
          OperandDefined(g, UsesOf(g[b].instrs[k])[j], b, k))
    && (forall b, j | 0 <= b < |g| && 0 <= j < |UsesOfTerm(g[b].term)| ::
          OperandDefined(g, UsesOfTerm(g[b].term)[j], b, |g[b].instrs|))
    && (forall b, k, j | 0 <= b < |g| && 0 <= k < |g[b].instrs| && g[b].instrs[k].Phi? && 0 <= j < |g[b].instrs[k].incoming| ::
          PhiUseDefined(g, g[b].instrs[k].incoming[j]))
  }

  ghost predicate PhiUseDefined(g: Code, source: (Operand, BlockId)) {
    source.1 < |g| && OperandDefined(g, source.0, source.1, |g[source.1].instrs|)
  }

  /** The structural checks of the module verifier on one function. */
  ghost predicate Structured(f: Builder) {
    && Distinct(f.order) && (forall b: BlockId :: b in f.order <==> b < |f.blocks|)
    && (forall b | 0 <= b < |f.blocks| :: !f.blocks[b].term.Open?)
    && TargetsExist(f.blocks) && Preds(f.blocks, 0) == {}
    && DefsOk(f.blocks, f.nextReg) && PhisOk(f.blocks)
  }

  /** What the module verifier checks of one function. */
  ghost predicate Verified(f: Builder) {
    Structured(f) && UsesDominated(f.blocks)
  }

  // ----- the invariant of a function under construction -----

  /** `pending` are the blocks created but not yet appended. */
  ghost predicate Building(s: Builder, pending: set<BlockId>) {
    && Ready(s) && s.cur !in pending
    && (forall h | h in pending :: h < |s.blocks| && s.blocks[h] == EMPTY_BLOCK)
    && Distinct(s.order) && (forall b: BlockId :: b in s.order <==> b < |s.blocks| && b !in pending)
    && (forall b | 0 <= b < |s.blocks| && b !in pending && b != s.cur :: !s.blocks[b].term.Open?)
    && TargetsExist(s.blocks) && DefsOk(s.blocks, s.nextReg)
  }

  lemma CreateBuilding(s: Builder, h: set<BlockId>, n: nat, more: set<BlockId>)
    requires Building(s, h) && forall b: BlockId :: b in more <==> |s.blocks| <= b < |s.blocks| + n
    ensures Building(Create(s, n), h + more)
  {
  }

  lemma BranchBuilding(s: Builder, h: set<BlockId>, t: Term, b: BlockId)
    requires Building(s, h) && b in h && !t.Open? && forall to | to in Targets(t) :: to < |s.blocks|
    ensures Building(Branch(s, t, b), h - {b})
  {
  }

  lemma AppendBuilding(s: Builder, h: set<BlockId>, i: Instr)
    requires Building(s, h) && !i.Phi? && DefOf(i).None?
    ensures Building(Append(s, i), h)
  {
  }

  lemma AppendRegDefs(s: Builder, i: Instr)
    requires Ready(s) && DefsOk(s.blocks, s.nextReg) && (i.Phi? ==> Cur(s).instrs == []) && DefOf(i) == Some(s.nextReg)
    ensures DefsOk(AppendReg(s, i).blocks, s.nextReg + 1)
  {
    hide DefOf;
    var g, t := s.blocks, AppendReg(s, i).blocks;
    forall b, k | 0 <= b < |t| && 0 <= k < |t[b].instrs|
      ensures if b == s.cur && k == |g[b].instrs| then t[b].instrs[k] == i else k < |g[b].instrs| && t[b].instrs[k] == g[b].instrs[k] {
    }
  }

  lemma AppendRegBuilding(s: Builder, h: set<BlockId>, i: Instr)
    requires Building(s, h) && (i.Phi? ==> Cur(s).instrs == []) && DefOf(i) == Some(s.nextReg)
    ensures Building(AppendReg(s, i), h)
  {
    hide DefsOk;
    AppendRegDefs(s, i);
  }

  // ----- straight code stays in its block, other code leaves it -----

  lemma {:induction false} LeavesBlock(s: Builder, e: Expr)
    requires Ready(s) && Emittable(e)
    ensures Emit(s, e).st.cur == s.cur <==> Straight(e)
    decreases e, 1
  {
    if Straight(e) {
      StraightStays(s, e);
    } else {
      EmitKeeps(s, e);
      match e
      case Binary(op, l, r) =>
        if !IsLogical(op) {
          EmitKeeps(s, r);
          LeavesBlock(s, r);
          if op != Assign {
            EmitKeeps(Emit(s, r).st, l);
            LeavesBlock(Emit(s, r).st, l);
          }
        }
      case Cast(_, _, v) => LeavesBlock(s, v);
      case If(cond, thn, els) => EmitKeeps(s, cond);
      case Assert(_, cond) => EmitKeeps(s, cond);
      case Compound(es) => LeavesBlockSeq(s, es, None);
      case _ =>
    }
  }

  lemma {:induction false} LeavesBlockSeq(s: Builder, es: seq<Expr>, last: Option<Operand>)
    requires Ready(s) && (forall i | 0 <= i < |es| :: Emittable(es[i])) && exists i | 0 <= i < |es| :: !Straight(es[i])
    ensures EmitSeq(s, es, last).st.cur != s.cur
    decreases es, 0
  {
    EmitKeeps(s, es[0]);
    LeavesBlock(s, es[0]);
    var x := Emit(s, es[0]);
    var last1 := if x.val.Some? then x.val else last;
    SeqFrame(x.st, es[1..], last1);
    if Straight(es[0]) {
      var i :| 0 <= i < |es| && !Straight(es[i]);
      assert es[1..][i - 1] == es[i];
      LeavesBlockSeq(x.st, es[1..], last1);
    }
  }

  lemma {:induction false} SeqFrame(s: Builder, es: seq<Expr>, last: Option<Operand>)
    requires Ready(s) && forall i | 0 <= i < |es| :: Emittable(es[i])
    ensures Keeps(s, EmitSeq(s, es, last).st) && Ready(EmitSeq(s, es, last).st)
    decreases es
  {
    if es == [] {
      KeepsSelf(s);
    } else {
      EmitKeeps(s, es[0]);
      var x := Emit(s, es[0]);
      var last1 := if x.val.Some? then x.val else last;
      SeqFrame(x.st, es[1..], last1);
      KeepsTrans(s, x.st, EmitSeq(x.st, es[1..], last1).st);
    }
  }

  // ----- edges and phis -----

  predicate PhiFree(s: Builder, b: BlockId) {
    b < |s.blocks| ==> forall k | 0 <= k < |s.blocks[b].instrs| :: !s.blocks[b].instrs[k].Phi?
  }

  /** From `s` to `t` no edge was added to a block of `s`, no phi to a block that had none, and
      the phis are right if they were and what was added is (`ok`). */
  ghost predicate Grown(s: Builder, t: Builder, ok: bool) {
    && |s.blocks| <= |t.blocks|
    && (forall b | 0 <= b < |s.blocks| :: Preds(t.blocks, b) == Preds(s.blocks, b))
    && (forall b | 0 <= b < |s.blocks| && PhiFree(s, b) :: PhiFree(t, b))
    && (PhisOk(t.blocks) <==> PhisOk(s.blocks) && ok)
  }

  lemma GrownSelf(s: Builder)
    ensures Grown(s, s, true)
  {
  }

  lemma GrownTrans(s: Builder, t: Builder, u: Builder, ok1: bool, ok2: bool)
    requires Grown(s, t, ok1) && Grown(t, u, ok2)
    ensures Grown(s, u, ok1 && ok2)
  {
    hide PhisOk, Preds, PhiFree;
  }

  lemma GrownPreds(s: Builder, t: Builder, ok: bool, b: BlockId)
    requires Grown(s, t, ok) && b < |s.blocks|
    ensures Preds(t.blocks, b) == Preds(s.blocks, b) && (PhiFree(s, b) ==> PhiFree(t, b)) && b < |t.blocks|
  {
    hide PhisOk, Preds, PhiFree;
  }

  lemma CreateGrown(s: Builder, n: nat)
    requires TargetsExist(s.blocks)
    ensures Grown(s, Create(s, n), true)
    ensures forall b | |s.blocks| <= b < |s.blocks| + n :: Preds(Create(s, n).blocks, b) == {}
  {
    hide PhiMatches;
    var t := Create(s, n);
    forall b | 0 <= b < |s.blocks| ensures Preds(t.blocks, b) == Preds(s.blocks, b) {
    }
    assert forall b | 0 <= b < |s.blocks| :: t.blocks[b] == s.blocks[b];
  }

  lemma AppendGrown(s: Builder, i: Instr)
    requires Ready(s) && !i.Phi?
    ensures Grown(s, Append(s, i), true) && Grown(s, AppendReg(s, i), true)
  {
    hide PhiMatches;
    var t := Append(s, i);
    forall b | 0 <= b < |s.blocks| ensures Preds(t.blocks, b) == Preds(s.blocks, b) {
    }
    NonPhiMatches(i);
    forall b, k | 0 <= b < |t.blocks| && 0 <= k < |t.blocks[b].instrs|
      ensures t.blocks[b].instrs[k] == if k < |s.blocks[b].instrs| then s.blocks[b].instrs[k] else i {
    }
    assert forall b, k | 0 <= b < |s.blocks| && 0 <= k < |s.blocks[b].instrs| :: t.blocks[b].instrs[k] == s.blocks[b].instrs[k];
  }

  lemma NonPhiMatches(i: Instr)
    requires !i.Phi?
    ensures forall p: set<BlockId> :: PhiMatches(i, p)
  {
  }

  lemma BranchPreds(s: Builder, t: Term, b: BlockId)
    requires Ready(s)
    ensures |Branch(s, t, b).blocks| == |s.blocks|
    ensures forall x: BlockId :: Preds(Branch(s, t, b).blocks, x) == if x in Targets(t) then Preds(s.blocks, x) + {s.cur} else Preds(s.blocks, x)
    ensures forall x: BlockId :: PhiFree(Branch(s, t, b), x) == PhiFree(s, x)
  {
    var u := Branch(s, t, b);
    assert forall x | 0 <= x < |s.blocks| :: u.blocks[x].instrs == s.blocks[x].instrs;
    forall x: BlockId ensures Preds(u.blocks, x) == if x in Targets(t) then Preds(s.blocks, x) + {s.cur} else Preds(s.blocks, x) {
      forall a: nat | a < |s.blocks| ensures a in Preds(u.blocks, x) <==> a in Preds(s.blocks, x) || (a == s.cur && x in Targets(t)) {
      }
    }
  }

  lemma BranchGrown(s: Builder, u: Builder, t: Term, b: BlockId, ok: bool)
    requires Ready(u) && Grown(s, u, ok) && forall x | x in Targets(t) :: |s.blocks| <= x && PhiFree(u, x)
    ensures Grown(s, Branch(u, t, b), ok)
  {
    hide Preds, PhiFree;
    BranchPreds(u, t, b);
    BranchPhis(u, t, b);
  }

  lemma BranchPhis(u: Builder, t: Term, b: BlockId)
    requires Ready(u) && forall x | x in Targets(t) :: PhiFree(u, x)
    ensures PhisOk(Branch(u, t, b).blocks) <==> PhisOk(u.blocks)
  {
    hide Preds;
    var v := Branch(u, t, b);
    BranchPreds(u, t, b);
    forall x, k | 0 <= x < |u.blocks| && 0 <= k < |u.blocks[x].instrs|
      ensures v.blocks[x].instrs == u.blocks[x].instrs
           && (PhiMatches(v.blocks[x].instrs[k], Preds(v.blocks, x)) <==> PhiMatches(u.blocks[x].instrs[k], Preds(u.blocks, x))) {
    }
  }

  lemma PhiGrown(s: Builder, u: Builder, phi: Instr, ok: bool)
    requires Ready(u) && Grown(s, u, ok) && |s.blocks| <= u.cur && Cur(u).instrs == []
    ensures Grown(s, AppendReg(u, phi), ok && PhiMatches(phi, Preds(u.blocks, u.cur)))
  {
    hide PhiMatches;
    var v := AppendReg(u, phi);
    forall b | 0 <= b < |u.blocks| ensures Preds(v.blocks, b) == Preds(u.blocks, b) {
    }
    assert v.blocks[u.cur].instrs == [phi];
    assert forall b | 0 <= b < |u.blocks| && b != u.cur :: v.blocks[b] == u.blocks[b];
    if PhisOk(v.blocks) {
      forall b, k | 0 <= b < |u.blocks| && 0 <= k < |u.blocks[b].instrs|
        ensures PhiMatches(u.blocks[b].instrs[k], Preds(u.blocks, b)) {
        assert PhiMatches(v.blocks[b].instrs[k], Preds(v.blocks, b));
      }
      assert PhiMatches(v.blocks[u.cur].instrs[0], Preds(v.blocks, u.cur));
    }
  }
}
