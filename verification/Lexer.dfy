/** The reader the lexer works on, with unlimited look-ahead and locations; nested comments; and
    integer literals. */
module Lexer {
  import opened Common

  /** An ASCII character, or the end of the input. */
  type Char = c: int | -1 <= c < 128

  const EOF: Char := -1
  const NEWLINE: Char := 10

  // ----- the reader as a cursor over its input -----

  /** The character at a position; past the end there are only ends of input. */
  function At(input: seq<Char>, i: nat): Char {
    if i < |input| then input[i] else EOF
  }

  /** One plus the newlines among the first `n` characters. */
  function Line(input: seq<Char>, n: nat): nat {
    if n == 0 then 1 else Line(input, n - 1) + if At(input, n - 1) == NEWLINE then 1 else 0
  }

  /** One plus the characters since the last newline among the first `n`. */
  function Column(input: seq<Char>, n: nat): nat {
    if n == 0 || At(input, n - 1) == NEWLINE then 1 else Column(input, n - 1) + 1
  }

  /** Where a line starts, columns count from there. */
  lemma {:induction false} ColumnCounts(input: seq<Char>, start: nat, n: nat)
    requires start <= n && (start == 0 || At(input, start - 1) == NEWLINE)
    requires forall i | start <= i < n :: At(input, i) != NEWLINE
    ensures Column(input, n) == 1 + n - start && Line(input, n) == Line(input, start)
  {
    if n > start {
      ColumnCounts(input, start, n - 1);
    }
  }

  class SourceReader {
    const input: seq<Char>
    /** The stream: where it is, and whether a read has failed at its end. */
    var pos: nat
    var failed: bool
    var lineNo: nat
    var charPosition: nat
    var lookahead: seq<Char>
    /** How many characters have been handed out. */
    ghost var taken: nat

    ghost predicate Valid()
      reads this
    {
      && EOF !in input
      && pos == (if taken + |lookahead| <= |input| then taken + |lookahead| else |input|)
      && (failed <==> taken + |lookahead| > |input|)
      && (forall i | 0 <= i < |lookahead| :: lookahead[i] == At(input, taken + i))
      && lineNo == Line(input, taken) && charPosition == Column(input, taken)
    }

    constructor (input: seq<Char>)
      requires EOF !in input
      ensures Valid() && this.input == input && taken == 0
    {
      this.input := input;
      pos, failed, lineNo, charPosition, lookahead, taken := 0, false, 1, 1, [], 0;
    }

    method ReadChar() returns (c: Char)
      modifies this`pos, this`failed
      ensures c == At(input, old(pos)) && pos == (if old(pos) < |input| then old(pos) + 1 else old(pos)) && failed == (old(failed) || old(pos) >= |input|)
    {
      if pos < |input| {
        c := input[pos];
        pos := pos + 1;
      } else {
        failed := true;
        c := EOF;
      }
    }

    method PrimeLookahead(n: nat)
      requires Valid()
      modifies this`pos, this`failed, this`lookahead
      ensures Valid() && |lookahead| >= n
    {
      while |lookahead| < n
        invariant Valid()
        decreases n - |lookahead|
      {
        var c := ReadChar();
        lookahead := lookahead + [c];
      }
    }

    /** Looking ahead changes neither what comes next nor the location. */
    method Peek(n: nat) returns (c: Char)
      requires Valid()
      modifies this`pos, this`failed, this`lookahead
      ensures Valid() && c == At(input, taken + n) && (taken + n >= |input| ==> failed)
    {
      PrimeLookahead(n + 1);
      c := lookahead[n];
    }

    method PeekMatch(candidate: seq<Char>) returns (ok: bool)
      requires Valid()
      modifies this`pos, this`failed, this`lookahead
      ensures Valid() && (ok <==> forall i | 0 <= i < |candidate| :: At(input, taken + i) == candidate[i])
      ensures |lookahead| >= |candidate|
    {
      PrimeLookahead(|candidate|);
      for i := 0 to |candidate|
        invariant Valid() && |lookahead| >= |candidate| && forall j | 0 <= j < i :: At(input, taken + j) == candidate[j]
      {
        if lookahead[i] != candidate[i] {
          return false;
        }
      }
      ok := true;
    }

    method Next() returns (c: Char)
      requires Valid()
      modifies this
      ensures Valid() && c == At(input, old(taken)) && taken == old(taken) + 1 && |lookahead| == if old(lookahead) == [] then 0 else |old(lookahead)| - 1
    {
      if |lookahead| > 0 {
        c := lookahead[0];
        lookahead := lookahead[1..];
      } else {
        c := ReadChar();
      }
      taken := taken + 1;
      if c == NEWLINE {
        lineNo := lineNo + 1;
        charPosition := 1;
      } else {
        charPosition := charPosition + 1;
      }
    }

    /** Consume the candidate if it is what comes next. */
    method Match(candidate: seq<Char>) returns (ok: bool)
      requires Valid()
      modifies this
      ensures Valid() && (ok <==> forall i | 0 <= i < |candidate| :: At(input, old(taken) + i) == candidate[i])
      ensures taken == old(taken) + if ok then |candidate| else 0
      ensures !ok ==> |lookahead| >= |candidate|
    {
      ok := PeekMatch(candidate);
      if ok {
        for i := 0 to |candidate|
          invariant Valid() && taken == old(taken) + i
        {
          var c := Next();
        }
      }
    }

    /** The end of input is seen only by looking: before that the reader may be at the end and not
        know. */
    method Eof() returns (e: bool)
      requires Valid()
      ensures e <==> taken >= |input| && failed
    {
      e := (|lookahead| == 0 || lookahead[0] == EOF) && failed;
      if taken < |input| && |lookahead| > 0 {
        assert input[taken] in input && lookahead[0] == At(input, taken + 0);
      }
    }

    // ----- number literals -----

    /** A number: the longest run of digits and dots after the first character.  Without a dot it
        is an integer, which is accepted exactly when it is in range. */
    method ExtractLiteralNumber() returns (t: Literal)
      requires Valid() && StartsNumber(At(input, taken), At(input, taken + 1))
      modifies this
      ensures Valid() && old(taken) < taken <= |input| && !IsNumberChar(At(input, taken))
      ensures var text := input[old(taken)..taken];
              && (forall i | 1 <= i < |text| :: IsNumberChar(text[i]))
              && if DOT in text then t.Fraction? && t.text == text
                 else if ToInt(text).Some? then t == Integer(ToInt(text).value)
                 else t == OutOfRange(text)
    {
      var first := Next();
      var text := [first];
      var c := Peek(0);
      var atEnd := Eof();
      while IsNumberChar(c) && !atEnd
        invariant Valid() && old(taken) < taken <= |input| && text == input[old(taken)..taken] && c == At(input, taken)
        invariant atEnd ==> taken >= |input|
        invariant forall i | 1 <= i < |text| :: IsNumberChar(text[i])
        decreases |input| - taken
      {
        var d := Next();
        text := text + [d];
        c := Peek(0);
        atEnd := Eof();
      }
      t := if DOT in text then Fraction(text) else if ToInt(text).Some? then Integer(ToInt(text).value) else OutOfRange(text);
    }

    // ----- nested comments -----

    /** What is left to read. */
    ghost function Rest(): seq<Char>
      reads this
    {
      if taken <= |input| then input[taken..] else []
    }

    /** One step inside a comment: an opening mark, a closing mark, or any other character; what
        it does to the nesting depth. */
    method CommentStep() returns (change: int)
      requires Valid()
      modifies this
      ensures Valid()
      ensures var us := Units(old(Rest()));
              if us == [] then change == 0 && taken == old(taken) + 1 && Units(Rest()) == []
              else change == Change(us[0]) && taken == old(taken) + UnitWidth(us[0]) && Units(Rest()) == us[1..]
      ensures old(Rest()) != [] ==> taken <= |input|
      ensures -1 <= change <= 1
    {
      hide Units;
      UnitsStep(Rest());
      StartsAt(input, taken, OPEN);
      StartsAt(input, taken, CLOSE);
      var open := Match(OPEN);
      if open {
        return 1;
      }
      var close := Match(CLOSE);
      if close {
        return -1;
      }
      var c := Next();
      if taken > |input| { UnitsStep(Rest()); }
      change := 0;
    }

    /** A comment, if one is next: exactly its shortest balanced prefix is consumed, and `None`
        says that there is no end to it. */
    method DiscardMultilineComment() returns (done: Option<bool>)
      requires Valid()
      modifies this
      ensures done == Some(false) ==> Valid() && taken == old(taken) && !Starts(old(Rest()), OPEN)
      ensures done == Some(true) ==> Valid() && exists k :: IsComment(Units(old(Rest())), k) && taken == old(taken) + Width(Units(old(Rest()))[..k])
      ensures done.None? ==> Starts(old(Rest()), OPEN) && forall k :: !IsComment(Units(old(Rest())), k)
    {
      hide Units, Balance, Width, At, Starts, Line, Column, Change, UnitWidth, IsComment;
      ghost var us := Units(Rest());
      UnitsStep(Rest());
      StartsAt(input, taken, OPEN);
      var begun := Match(OPEN);
      if !begun {
        return Some(false);
      }
      var nestDepth := 1;
      ghost var k: nat := 1;
      WidthOne(us);
      UnitsStep(Rest());
      while nestDepth > 0
        invariant Valid() && taken <= |input| + 1 && 0 < k <= |us| && 0 <= nestDepth == Balance(us[..k])
        invariant us[k..] == Units(Rest()) && (k < |us| <==> Rest() != [])
        invariant k < |us| || nestDepth == 0 ==> taken == old(taken) + Width(us[..k])
        invariant forall j | 0 < j < k :: Balance(us[..j]) > 0
        decreases |input| + 2 - taken
      {
        var atEnd := Eof();
        if atEnd {
          NoComment(us, k);
          return None;
        }
        UnitsStep(Rest());
        if k < |us| { UnitsAt(us, k); }
        var change := CommentStep();
        UnitsStep(Rest());
        nestDepth := nestDepth + change;
        if k < |us| {
          k := k + 1;
        }
      }
      done := Some(true);
      IsCommentNow(us, k);
    }
  }

  const OPEN: seq<Char> := [40, 35]
  const CLOSE: seq<Char> := [35, 41]

  predicate Starts(s: seq<Char>, candidate: seq<Char>) {
    candidate <= s
  }

  /** A text cut into comment marks and other characters, from the left. */
  datatype Unit = Open | Close | Other(c: Char)

  function Units(s: seq<Char>): seq<Unit> {
    if s == [] then []
    else if Starts(s, OPEN) then [Open] + Units(s[2..])
    else if Starts(s, CLOSE) then [Close] + Units(s[2..])
    else [Other(s[0])] + Units(s[1..])
  }

  function UnitWidth(u: Unit): nat {
    if u.Other? then 1 else 2
  }

  function Change(u: Unit): int {
    if u.Open? then 1 else if u.Close? then -1 else 0
  }

  function Width(us: seq<Unit>): nat {
    if us == [] then 0 else Width(us[..|us| - 1]) + UnitWidth(us[|us| - 1])
  }

  /** Opening marks less closing marks. */
  function Balance(us: seq<Unit>): int {
    if us == [] then 0 else Balance(us[..|us| - 1]) + Change(us[|us| - 1])
  }

  /** The first `k` units are a comment: they balance, and nothing shorter does. */
  predicate IsComment(us: seq<Unit>, k: int) {
    0 < k <= |us| && us[0].Open? && Balance(us[..k]) == 0 && forall j | 0 < j < k :: Balance(us[..j]) > 0
  }

  lemma UnitsStep(s: seq<Char>)
    ensures s != [] ==> Units(s) != [] && Units(s)[0] == (if Starts(s, OPEN) then Open else if Starts(s, CLOSE) then Close else Other(s[0]))
    ensures s != [] ==> Units(s)[1..] == Units(s[(if Starts(s, OPEN) || Starts(s, CLOSE) then 2 else 1)..])
    ensures s == [] ==> Units(s) == []
    ensures Starts(s, OPEN) || Starts(s, CLOSE) ==> |s| >= 2
  {
  }

  lemma StartsAt(input: seq<Char>, n: nat, candidate: seq<Char>)
    requires EOF !in input && EOF !in candidate && candidate != []
    ensures Starts(if n <= |input| then input[n..] else [], candidate) <==> forall i | 0 <= i < |candidate| :: At(input, n + i) == candidate[i]
  {
    var s := if n <= |input| then input[n..] else [];
    if candidate <= s {
      forall i | 0 <= i < |candidate| ensures At(input, n + i) == candidate[i] {
        assert candidate[i] == s[i];
      }
    }
    if forall i | 0 <= i < |candidate| :: At(input, n + i) == candidate[i] {
      forall i | 0 <= i < |candidate| ensures n + i < |input| && s[i] == candidate[i] {
        assert candidate[i] in candidate;
      }
      var last := |candidate| - 1;
      assert At(input, n + last) == candidate[last] && candidate[last] in candidate;
      assert s[..|candidate|] == candidate;
    }
  }

  lemma UnitsAt(us: seq<Unit>, k: nat)
    requires k < |us|
    ensures us[k..][0] == us[k] && us[k..][1..] == us[k + 1..]
    ensures Balance(us[..k + 1]) == Balance(us[..k]) + Change(us[k])
        && Width(us[..k + 1]) == Width(us[..k]) + UnitWidth(us[k])
  {
    assert us[..k + 1][..k] == us[..k];
  }

  lemma WidthOne(us: seq<Unit>)
    requires us != [] && us[0].Open?
    ensures Width(us[..1]) == 2 && Balance(us[..1]) == 1
  {
    assert us[..1][..0] == [];
  }

  lemma IsCommentNow(us: seq<Unit>, k: nat)
    requires 0 < k <= |us| && us[0].Open? && Balance(us[..k]) == 0 && forall j | 0 < j < k :: Balance(us[..j]) > 0
    ensures IsComment(us, k)
  {
  }

  lemma NoComment(us: seq<Unit>, k: nat)
    requires k == |us| && Balance(us[..k]) > 0 && forall j | 0 < j < k :: Balance(us[..j]) > 0
    ensures forall n :: !IsComment(us, n)
  {
    hide Balance;
  }

  // ----- comments are space -----

  /** No text has two comments at its start. */
  lemma CommentIsUnique(us: seq<Unit>, j: int, k: int)
    requires IsComment(us, j) && IsComment(us, k)
    ensures j == k
  {
    hide Balance;
  }

  /** A text that is a comment is the comment of any text it begins: what follows a comment does
      not change where it ends. */
  lemma CommentThenMore(s: seq<Char>, more: seq<Char>)
    requires IsComment(Units(s), |Units(s)|)
    ensures Units(s + more) == Units(s) + Units(more) && IsComment(Units(s + more), |Units(s)|)
  {
    var us := Units(s);
    CommentEnds(us);
    LastMark(s);
    UnitsAppend(s, more);
    forall j | 0 <= j <= |us| ensures (us + Units(more))[..j] == us[..j] {
    }
  }

  lemma CommentEnds(us: seq<Unit>)
    requires IsComment(us, |us|)
    ensures us[|us| - 1].Close?
  {
    var k: nat := |us| - 1;
    UnitsAt(us, k);
    assert us[..|us|] == us;
    if k > 0 { assert Balance(us[..k]) > 0; }
  }

  lemma {:induction false} LastMark(s: seq<Char>)
    requires Units(s) != [] && Units(s)[|Units(s)| - 1].Close?
    ensures s != [] && s[|s| - 1] == CLOSE[1]
    decreases |s|
  {
    var n := if Starts(s, OPEN) || Starts(s, CLOSE) then 2 else 1;
    UnitsStep(s);
    if Units(s[n..]) != [] {
      LastMark(s[n..]);
    } else {
      assert s[n..] == [] by { UnitsStep(s[n..]); }
      assert s[..2] == s;
    }
  }

  /** Cutting a text in two does not change its units, unless the cut is inside a mark. */
  lemma {:induction false} UnitsAppend(s: seq<Char>, more: seq<Char>)
    requires s == [] || (s[|s| - 1] != OPEN[0] && s[|s| - 1] != CLOSE[0])
    ensures Units(s + more) == Units(s) + Units(more)
    decreases |s|
  {
    if s == [] {
      assert s + more == more;
    } else if |s| == 1 {
      assert (s + more)[1..] == more && s[1..] == [];
      assert !Starts(s + more, OPEN) && !Starts(s + more, CLOSE);
    } else if Starts(s, OPEN) || Starts(s, CLOSE) {
      assert (s + more)[..2] == s[..2] && (s + more)[2..] == s[2..] + more;
      assert Starts(s + more, OPEN) == Starts(s, OPEN) && Starts(s + more, CLOSE) == Starts(s, CLOSE);
      UnitsAppend(s[2..], more);
    } else {
      assert (s + more)[..2] == s[..2] && (s + more)[1..] == s[1..] + more;
      assert Starts(s + more, OPEN) == Starts(s, OPEN) && Starts(s + more, CLOSE) == Starts(s, CLOSE);
      UnitsAppend(s[1..], more);
    }
  }

  // ----- integers -----

  datatype Literal = Integer(n: int) | Fraction(text: seq<Char>) | OutOfRange(text: seq<Char>)

  const DOT: Char := 46
  const MINUS: Char := 45
  const ZERO: Char := 48

  predicate IsDigit(c: Char) {
    ZERO <= c < ZERO + 10
  }

  predicate IsNumberChar(c: Char) {
    IsDigit(c) || c == DOT
  }

  predicate StartsNumber(c: Char, after: Char) {
    IsDigit(c) || (c == MINUS && IsDigit(after))
  }

  predicate AllDigits(s: seq<Char>) {
    s != [] && forall i | 0 <= i < |s| :: IsDigit(s[i])
  }

  function Magnitude(s: seq<Char>): int {
    if s == [] then 0 else 10 * Magnitude(s[..|s| - 1]) + (s[|s| - 1] - ZERO)
  }

  /** The number a text stands for, if it is one that 32 bits hold. */
  function ToInt(s: seq<Char>): Option<int> {
    var n := if s != [] && s[0] == MINUS then -Magnitude(s[1..]) else Magnitude(s);
    if -0x8000_0000 <= n < 0x8000_0000 then Some(n) else None
  }

  function Digits(n: nat): (s: seq<Char>)
    ensures AllDigits(s)
  {
    if n < 10 then [ZERO + n] else Digits(n / 10) + [ZERO + n % 10]
  }

  function Decimal(n: int): seq<Char> {
    if n < 0 then [MINUS] + Digits(-n) else Digits(n)
  }

  lemma {:induction false} MagnitudeOfDigits(n: nat)
    ensures Magnitude(Digits(n)) == n
  {
    if n >= 10 {
      MagnitudeOfDigits(n / 10);
      assert (Digits(n / 10) + [ZERO + n % 10])[..|Digits(n / 10)|] == Digits(n / 10);
    } else {
      assert [ZERO + n][..0] == [];
    }
  }

  /** A decimal integer is accepted exactly when it fits in 32 bits, and then reads back as itself. */
  lemma IntegerRoundTrip(n: int)
    ensures ToInt(Decimal(n)) == if -0x8000_0000 <= n < 0x8000_0000 then Some(n) else None
    ensures DOT !in Decimal(n)
  {
    hide Digits, Magnitude;
    if n < 0 {
      MagnitudeOfDigits(-n);
      assert ([MINUS] + Digits(-n))[1..] == Digits(-n);
    } else {
      MagnitudeOfDigits(n);
    }
  }

  /** Leading zeros do not matter. */
  lemma {:induction false} LeadingZero(s: seq<Char>)
    requires AllDigits(s)
    ensures Magnitude([ZERO] + s) == Magnitude(s)
    decreases |s|
  {
    var t := [ZERO] + s;
    assert t[..|t| - 1] == [ZERO] + s[..|s| - 1];
    if |s| > 1 {
      LeadingZero(s[..|s| - 1]);
    } else {
      assert s[..0] == [] && [ZERO] + s[..0] == [ZERO] && [ZERO][..0] == [];
    }
  }
}
