/** The levels of the binary operators, as lists of operators, and what they mean for parsing. */
module Levels {
  import opened Common
  import opened Tokens
  import opened Grammar
  import opened Parse
  import opened ParseCorrect
  import opened Parens
  import opened Guarding
  import opened Ast
  import opened Build
  import opened FormNodes

  /** From the loosest to the tightest. */
  const LEVELS: seq<set<Kind>> := [
    {OpAssign}, {OpLOr}, {OpLAnd}, {OpEq, OpNeq}, {OpGt, OpLt, OpGte, OpLte}, {OpAdd, OpSub}, {OpMul, OpDiv}]

  /** `b` stands on a higher level than `a`. */
  ghost predicate Higher(b: Kind, a: Kind) {
    exists i, j :: 0 <= i < j < |LEVELS| && a in LEVELS[i] && b in LEVELS[j]
  }

  /** The levels hold the binary operators. */
  lemma LevelsHoldOperators(k: Kind)
    ensures IsBinary(k) <==> exists i :: 0 <= i < |LEVELS| && k in LEVELS[i]
  {
    if IsBinary(k) { assert k in LEVELS[LevelOf(k)]; }
  }

  function LevelOf(k: Kind): (i: nat)
    requires IsBinary(k)
    ensures i < |LEVELS| && k in LEVELS[i]
  {
    if k in LEVELS[0] then 0
    else if k in LEVELS[1] then 1
    else if k in LEVELS[2] then 2
    else if k in LEVELS[3] then 3
    else if k in LEVELS[4] then 4
    else if k in LEVELS[5] then 5
    else 6
  }

  lemma OneLevel(k: Kind, i: nat)
    requires i < |LEVELS| && k in LEVELS[i]
    ensures IsBinary(k) && i == LevelOf(k)
  {
  }

  lemma HigherLevel(b: Kind, a: Kind)
    requires IsBinary(a) && IsBinary(b)
    ensures Higher(b, a) <==> LevelOf(a) < LevelOf(b)
  {
    hide LevelOf;
    if Higher(b, a) {
      var i, j :| 0 <= i < j < |LEVELS| && a in LEVELS[i] && b in LEVELS[j];
      OneLevel(a, i);
      OneLevel(b, j);
    }
  }

  /** Precedences are in the order of the levels; members and calls are above all of them. */
  lemma PrecedenceFollowsLevels(a: Kind, b: Kind)
    requires IsBinary(a) && IsBinary(b)
    ensures KindPrecedence(a) < KindPrecedence(b) <==> LevelOf(a) < LevelOf(b)
    ensures 0 < KindPrecedence(a) < KindPrecedence(OpDot) == KindPrecedence(OpenParen)
  {
    var i, j := LevelOf(a), LevelOf(b);
    LevelPrecedence(a);
    LevelPrecedence(b);
  }

  function PrecedenceAt(i: nat): int {
    match i
    case 0 => 1
    case 1 => 2
    case 2 => 3
    case 3 => 7
    case 4 => 8
    case 5 => 10
    case _ => 11
  }

  lemma LevelPrecedence(k: Kind)
    requires IsBinary(k)
    ensures KindPrecedence(k) == PrecedenceAt(LevelOf(k)) && LevelOf(k) <= 6
  {
  }

  // ----- operands -----

  /** What may come after an operand. */
  predicate AfterOperand(next: Option<Token>) {
    next.Some? ==> next.value.Sym? && (IsBinary(next.value.kind) || next.value.kind in {OpDot, OpenParen})
  }

  /** A form without operators of its own that ends by itself. */
  ghost predicate IsOperand(c: Cst) {
    c.Prefix? && forall p, next | AfterOperand(next) :: BoundSpine(p, c, next)
  }

  function Name(id: string): Cst {
    Prefix(Id(id), [Rep([]), Skipped([])])
  }

  lemma LiteralOperand(t: Token)
    requires t.IntLit? || t.FloatLit? || t.BoolLit?
    ensures IsOperand(Prefix(t, []))
  {
  }

  lemma NameOperand(id: string)
    ensures IsOperand(Name(id))
  {
    var items, ps := [QUALIFIED, Either(OpDef, [TypeRef], [])], [Rep([]), Skipped([])];
    assert items[1..] == [Either(OpDef, [TypeRef], [])] && ps[1..] == [Skipped([])];
    forall p, next | AfterOperand(next) ensures BoundSpine(p, Name(id), next) {
      assert Fits([], [], next) && FlattenAll([]) == [];
      assert FlattenAll([Skipped([])]) == [] by { FlattenOne(Skipped([])); }
      assert FitsOne(items[1], ps[1], next);
      assert Fits(items[1..], ps[1..], next);
      assert FitsOne(items[0], ps[0], next);
      assert Fits(items, ps, next);
    }
  }

  lemma ParenOperand(c: Cst)
    requires Bound(0, c, CLOSE)
    ensures IsOperand(Paren(c))
  {
    hide Bound, BoundSpine;
    forall p, next | AfterOperand(next) ensures BoundSpine(p, Paren(c), next) {
      ParenBound(p, c, next);
    }
  }

  // ----- how operators group -----

  /** `x op1 y op2 z` is `x op1 (y op2 z)`. */
  ghost predicate RightFirst(op1: Kind, op2: Kind) {
    Higher(op2, op1) || (op1 == OpAssign && op2 == OpAssign)
  }

  function Apply(l: Cst, op: Kind, r: Cst): Cst {
    Infix(l, Sym(op), [Sub(r)])
  }

  lemma ApplyFlat(l: Cst, op: Kind, r: Cst)
    ensures Flatten(Apply(l, op, r)) == Flatten(l) + [Sym(op)] + Flatten(r)
  {
    hide Flatten;
    FlattenOne(Sub(r));
    FlattenInfix(l, Sym(op), [Sub(r)]);
  }

  lemma FlattenInfix(l: Cst, op: Token, ps: seq<Part>)
    ensures Flatten(Infix(l, op, ps)) == Flatten(l) + [op] + FlattenAll(ps)
  {
  }

  lemma ApplyBound(p: int, l: Cst, op: Kind, r: Cst, next: Option<Token>)
    requires IsBinary(op) && p < KindPrecedence(op) && BoundSpine(p, l, Some(Sym(op))) && Bound(RightPrecedence(op), r, next)
    ensures BoundSpine(p, Apply(l, op, r), next)
  {
    hide Bound, KindPrecedence, InfixForm, IsBinary, RightPrecedence;
    BinaryForm(op);
    var items, ps := [SubExpr(RightPrecedence(op))], [Sub(r)];
    assert items[1..] == [] && ps[1..] == [] && FlattenAll([]) == [];
    assert FitsOne(items[0], ps[0], next);
    assert Fits(items, ps, next);
  }

  lemma OperandBound(p: int, c: Cst, next: Option<Token>)
    requires IsOperand(c) && AfterOperand(next)
    ensures BoundSpine(p, c, next) && (Stops(p, next) ==> Bound(p, c, next))
  {
    hide BoundSpine;
  }

  /** The two ways to read two operators in a row. */
  lemma RightBound(x: Cst, op1: Kind, y: Cst, op2: Kind, z: Cst)
    requires IsOperand(x) && IsOperand(y) && IsOperand(z) && IsBinary(op1) && IsBinary(op2) && KindPrecedence(op2) > RightPrecedence(op1)
    ensures Bound(0, Apply(x, op1, Apply(y, op2, z)), None)
  {
    hide BoundSpine, IsOperand, IsBinary, KindPrecedence;
    BinaryForm(op1);
    BinaryForm(op2);
    OperandBound(0, x, Some(Sym(op1)));
    OperandBound(RightPrecedence(op1), y, Some(Sym(op2)));
    OperandBound(RightPrecedence(op2), z, None);
    ApplyBound(RightPrecedence(op1), y, op2, z, None);
    ApplyBound(0, x, op1, Apply(y, op2, z), None);
  }

  lemma LeftBound(x: Cst, op1: Kind, y: Cst, op2: Kind, z: Cst)
    requires IsOperand(x) && IsOperand(y) && IsOperand(z) && IsBinary(op1) && IsBinary(op2) && KindPrecedence(op2) <= RightPrecedence(op1)
    ensures Bound(0, Apply(Apply(x, op1, y), op2, z), None)
  {
    hide BoundSpine, IsOperand, IsBinary, KindPrecedence;
    BinaryForm(op1);
    BinaryForm(op2);
    OperandBound(0, x, Some(Sym(op1)));
    OperandBound(RightPrecedence(op1), y, Some(Sym(op2)));
    OperandBound(RightPrecedence(op2), z, None);
    ApplyBound(0, x, op1, y, Some(Sym(op2)));
    ApplyBound(0, Apply(x, op1, y), op2, z, None);
  }

  /** Of two operators in a row the right one is applied first exactly when it is on a higher level, or both
      assign; whatever the operands are. */
  lemma Grouping(x: Cst, op1: Kind, y: Cst, op2: Kind, z: Cst)
    requires IsOperand(x) && IsOperand(y) && IsOperand(z) && IsBinary(op1) && IsBinary(op2)
    ensures ParseExpr(0, Flatten(x) + [Sym(op1)] + Flatten(y) + [Sym(op2)] + Flatten(z))
         == Ok(if RightFirst(op1, op2) then Apply(x, op1, Apply(y, op2, z)) else Apply(Apply(x, op1, y), op2, z), [])
  {
    hide Bound, IsOperand, Flatten, ParseExpr, KindPrecedence, LevelOf, Higher, Apply;
    HigherLevel(op2, op1);
    PrecedenceFollowsLevels(op1, op2);
    BinaryForm(op1);
    BinaryForm(op2);
    AssignAlone(op1);
    AssignAlone(op2);
    if RightFirst(op1, op2) {
      RightBound(x, op1, y, op2, z);
      RightFlat(x, op1, y, op2, z);
      ParsedWhole(Apply(x, op1, Apply(y, op2, z)));
    } else {
      LeftBound(x, op1, y, op2, z);
      LeftFlat(x, op1, y, op2, z);
      ParsedWhole(Apply(Apply(x, op1, y), op2, z));
    }
  }

  lemma ParsedWhole(c: Cst)
    requires Bound(0, c, None)
    ensures ParseExpr(0, Flatten(c)) == Ok(c, [])
  {
    hide Bound, Flatten, ParseExpr;
    CompleteExpr(0, c, []);
    assert Flatten(c) + [] == Flatten(c);
  }

  lemma RightFlat(x: Cst, op1: Kind, y: Cst, op2: Kind, z: Cst)
    ensures Flatten(Apply(x, op1, Apply(y, op2, z))) == Flatten(x) + [Sym(op1)] + Flatten(y) + [Sym(op2)] + Flatten(z)
  {
    hide Flatten, Apply;
    ApplyFlat(x, op1, Apply(y, op2, z));
    ApplyFlat(y, op2, z);
  }

  lemma LeftFlat(x: Cst, op1: Kind, y: Cst, op2: Kind, z: Cst)
    ensures Flatten(Apply(Apply(x, op1, y), op2, z)) == Flatten(x) + [Sym(op1)] + Flatten(y) + [Sym(op2)] + Flatten(z)
  {
    hide Flatten, Apply;
    ApplyFlat(Apply(x, op1, y), op2, z);
    ApplyFlat(x, op1, y);
  }

  lemma AssignAlone(k: Kind)
    requires IsBinary(k)
    ensures KindPrecedence(k) >= 1 && (KindPrecedence(k) == 1 <==> k == OpAssign)
  {
  }

  /** Members and calls are taken before any operator around them. */
  lemma MembersFirst(x: Cst, op: Kind, y: Cst, k: Kind, ps: seq<Part>)
    requires IsOperand(x) && IsOperand(y) && IsBinary(op) && k in {OpDot, OpenParen} && Fits(InfixForm(Sym(k)).value, ps, None)
    ensures ParseExpr(0, Flatten(x) + [Sym(op)] + Flatten(y) + [Sym(k)] + FlattenAll(ps))
         == Ok(Apply(x, op, Infix(y, Sym(k), ps)), [])
  {
    hide IsOperand, Flatten, ParseExpr, KindPrecedence, BoundSpine, FlattenAll, Fits;
    var member := Infix(y, Sym(k), ps);
    var ts := Flatten(x) + [Sym(op)] + Flatten(y) + [Sym(k)] + FlattenAll(ps);
    PrecedenceFollowsLevels(op, op);
    BinaryForm(op);
    OperandBound(0, x, Some(Sym(op)));
    OperandBound(RightPrecedence(op), y, Some(Sym(k)));
    MemberBound(RightPrecedence(op), y, k, ps);
    ApplyBound(0, x, op, member, None);
    ApplyFlat(x, op, member);
    FlattenInfix(y, Sym(k), ps);
    assert Flatten(Apply(x, op, member)) == ts;
    ParsedWhole(Apply(x, op, member));
  }

  lemma MemberBound(p: int, y: Cst, k: Kind, ps: seq<Part>)
    requires k in {OpDot, OpenParen} && p < KindPrecedence(k) && BoundSpine(p, y, Some(Sym(k))) && Fits(InfixForm(Sym(k)).value, ps, None)
    ensures BoundSpine(p, Infix(y, Sym(k), ps), None)
  {
    hide Fits;
  }

  // ----- the same on nodes -----

  function OperatorNode(l: Node, op: Kind, r: Node): Node {
    BinaryExpr(op, if op == OpAssign then MarkWrite(l) else l, r)
  }

  /** The node of two operators in a row: `1 + 2 * 3` is `1 + (2 * 3)`, and `1 - 2 - 3` is `(1 - 2) - 3`. */
  lemma GroupedNodes(x: Cst, op1: Kind, y: Cst, op2: Kind, z: Cst, s: Storage)
    requires IsOperand(x) && IsOperand(y) && IsOperand(z) && IsBinary(op1) && IsBinary(op2)
    ensures var r := ParseExpr(0, Flatten(x) + [Sym(op1)] + Flatten(y) + [Sym(op2)] + Flatten(z));
            && r.Ok?
            && NodeOf(r.value, s) == if RightFirst(op1, op2) then OperatorNode(NodeOf(x, s), op1, OperatorNode(NodeOf(y, s), op2, NodeOf(z, s)))
                                     else OperatorNode(OperatorNode(NodeOf(x, s), op1, NodeOf(y, s)), op2, NodeOf(z, s))
  {
    hide IsOperand, Flatten, ParseExpr, NodeOf, RightFirst, IsBinary;
    Grouping(x, op1, y, op2, z);
    BinaryIs(x, op1, Apply(y, op2, z), s);
    BinaryIs(y, op2, z, s);
    BinaryIs(Apply(x, op1, y), op2, z, s);
    BinaryIs(x, op1, y, s);
  }
}
