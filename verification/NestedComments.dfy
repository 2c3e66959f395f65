/** Properly nested comments: text in comment marks, with comments in it, is one comment. */
module NestedComments {
  import opened Common
  import opened Lexer
  import opened Blanks

  /** What may stand in a comment: characters that begin no mark, and comments. */
  datatype Piece = Plain(c: Char) | Nested(ps: seq<Piece>)

  predicate Writable(ps: seq<Piece>) {
    forall i | 0 <= i < |ps| :: WritableOne(ps[i])
  }

  predicate WritableOne(p: Piece) {
    match p
    case Plain(c) => c != OPEN[0] && c != CLOSE[0]
    case Nested(ps) => Writable(ps)
  }

  function Write(ps: seq<Piece>): seq<Char> {
    if ps == [] then [] else WriteOne(ps[0]) + Write(ps[1..])
  }

  function WriteOne(p: Piece): seq<Char> {
    match p
    case Plain(c) => [c]
    case Nested(ps) => OPEN + Write(ps) + CLOSE
  }

  function UnitsOf(ps: seq<Piece>): seq<Unit> {
    if ps == [] then [] else UnitsOfOne(ps[0]) + UnitsOf(ps[1..])
  }

  function UnitsOfOne(p: Piece): seq<Unit> {
    match p
    case Plain(c) => [Other(c)]
    case Nested(ps) => [Open] + UnitsOf(ps) + [Close]
  }

  lemma {:induction false} WrittenUnits(ps: seq<Piece>, rest: seq<Char>)
    requires Writable(ps)
    ensures Units(Write(ps) + rest) == UnitsOf(ps) + Units(rest)
    decreases ps, 0
  {
    hide Units, WriteOne, UnitsOfOne;
    if ps == [] {
      assert Write(ps) + rest == rest;
    } else {
      WrittenUnitsOne(ps[0], Write(ps[1..]) + rest);
      WrittenUnits(ps[1..], rest);
      assert Write(ps) + rest == WriteOne(ps[0]) + (Write(ps[1..]) + rest);
    }
  }

  lemma {:induction false} WrittenUnitsOne(p: Piece, rest: seq<Char>)
    requires WritableOne(p)
    ensures Units(WriteOne(p) + rest) == UnitsOfOne(p) + Units(rest)
    decreases p, 1
  {
    hide Units, Write, UnitsOf;
    match p
    case Plain(c) =>
      var s := [c] + rest;
      UnitsStep(s);
      assert s[0] == c && s[1..] == rest && !Starts(s, OPEN) && !Starts(s, CLOSE);
      assert Units(s) == [Units(s)[0]] + Units(s)[1..];
    case Nested(ps) =>
      var inside := Write(ps) + (CLOSE + rest);
      assert WriteOne(p) + rest == OPEN + inside;
      MarkFirst(OPEN, Open, inside);
      WrittenUnits(ps, CLOSE + rest);
      MarkFirst(CLOSE, Close, rest);
  }

  lemma MarkFirst(mark: seq<Char>, u: Unit, rest: seq<Char>)
    requires (mark == OPEN && u == Open) || (mark == CLOSE && u == Close)
    ensures Units(mark + rest) == [u] + Units(rest)
  {
    hide Units;
    var s := mark + rest;
    UnitsStep(s);
    assert s[..2] == mark && s[2..] == rest;
    assert Starts(s, OPEN) <==> mark == OPEN;
    assert Units(s) == [Units(s)[0]] + Units(s)[1..];
  }

  lemma {:induction false} BalanceAppend(a: seq<Unit>, b: seq<Unit>)
    ensures Balance(a + b) == Balance(a) + Balance(b)
    decreases |b|
  {
    if b == [] {
      assert a + b == a;
    } else {
      assert (a + b)[..|a + b| - 1] == a + b[..|b| - 1];
      BalanceAppend(a, b[..|b| - 1]);
    }
  }

  lemma BalanceOne(u: Unit)
    ensures Balance([u]) == Change(u)
  {
    assert [u][..0] == [];
  }

  /** Properly nested text closes what it opens, and nothing else. */
  lemma {:induction false} NestedBalance(ps: seq<Piece>, k: nat)
    requires k <= |UnitsOf(ps)|
    ensures Balance(UnitsOf(ps)[..k]) >= 0 && Balance(UnitsOf(ps)) == 0
    decreases ps, 0
  {
    hide Balance, UnitsOfOne;
    if ps == [] {
      EmptyBalance();
    } else {
      var first, rest := UnitsOfOne(ps[0]), UnitsOf(ps[1..]);
      BalanceAppend(first, rest);
      NestedBalanceOne(ps[0], if k <= |first| then k else 0);
      if k <= |first| {
        assert UnitsOf(ps)[..k] == first[..k];
        NestedBalance(ps[1..], 0);
      } else {
        NestedBalance(ps[1..], k - |first|);
        assert UnitsOf(ps)[..k] == first + rest[..k - |first|];
        BalanceAppend(first, rest[..k - |first|]);
      }
    }
  }

  lemma EmptyBalance()
    ensures Balance([]) == 0
  {
  }

  lemma {:induction false} NestedBalanceOne(p: Piece, k: nat)
    requires k <= |UnitsOfOne(p)|
    ensures Balance(UnitsOfOne(p)[..k]) >= 0 && Balance(UnitsOfOne(p)) == 0
    ensures p.Nested? && 0 < k < |UnitsOfOne(p)| ==> Balance(UnitsOfOne(p)[..k]) > 0
    decreases p, 1
  {
    hide Balance, UnitsOf;
    var us := UnitsOfOne(p);
    EmptyBalance();
    assert us[..0] == [] && us[..|us|] == us;
    match p
    case Plain(c) => BalanceOne(Other(c));
    case Nested(ps) =>
      var inside := UnitsOf(ps);
      BalanceOne(Open);
      BalanceOne(Close);
      NestedBalance(ps, |inside|);
      BalanceAppend([Open], inside);
      BalanceAppend([Open] + inside, [Close]);
      if 0 < k < |us| {
        assert us[..k] == [Open] + inside[..k - 1];
        NestedBalance(ps, k - 1);
        BalanceAppend([Open], inside[..k - 1]);
      }
  }

  /** Properly nested text in comment marks is one comment, to its last character, whatever follows. */
  lemma NestedIsComment(ps: seq<Piece>, rest: seq<Char>)
    requires Writable(ps)
    ensures var s := OPEN + Write(ps) + CLOSE; IsComment(Units(s), |Units(s)|) && AfterBlank(s + rest) == AfterBlank(rest)
  {
    hide Units, Balance, Write, UnitsOf, AfterBlank, Writable;
    var p := Nested(ps);
    var s, us := WriteOne(p), UnitsOfOne(p);
    assert WritableOne(p);
    WrittenUnitsOne(p, []);
    NoUnits();
    assert s + [] == s && us + [] == us;
    NestedBalanceOne(p, |us|);
    assert us[..|us|] == us;
    forall j | 0 < j < |us| ensures Balance(us[..j]) > 0 { NestedBalanceOne(p, j); }
    IsCommentNow(us, |us|);
    CommentIsBlank(s, rest);
  }

  lemma NoUnits()
    ensures Units([]) == []
  {
  }
}
