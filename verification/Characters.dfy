/** The characters that matter to the lexer, and where a number and white space end. */
module Characters {
  import opened Common
  import opened Lexer
  import opened Blanks

  const NUMBER_CHARACTERS := "0123456789."
  const WHITE_CHARACTERS := " \t\n\r"

  function CodeOf(c: char): int {
    c as int
  }

  /** Is the character one of these? */
  predicate OneOf(c: Char, cs: string) {
    exists i :: 0 <= i < |cs| && CodeOf(cs[i]) == c
  }

  lemma NumberCharacters(c: Char)
    ensures IsNumberChar(c) <==> OneOf(c, NUMBER_CHARACTERS)
    ensures IsDigit(c) <==> OneOf(c, "0123456789")
  {
    var digits := "0123456789";
    assert forall i | 0 <= i < 10 :: CodeOf(digits[i]) == 48 + i && NUMBER_CHARACTERS[i] == digits[i];
    assert CodeOf(NUMBER_CHARACTERS[10]) == 46;
    if IsDigit(c) { assert CodeOf(digits[c - 48]) == c && CodeOf(NUMBER_CHARACTERS[c - 48]) == c; }
    if c == DOT { assert CodeOf(NUMBER_CHARACTERS[10]) == c; }
  }

  lemma WhiteCharacters(c: Char)
    ensures IsWhite(c) <==> OneOf(c, WHITE_CHARACTERS)
  {
    var w := WHITE_CHARACTERS;
    assert CodeOf(w[0]) == 32 && CodeOf(w[1]) == 9 && CodeOf(w[2]) == 10 && CodeOf(w[3]) == 13;
  }

  /** The marks of comments. */
  lemma CommentMarks()
    ensures OPEN == [CodeOf('('), CodeOf('#')] && CLOSE == [CodeOf('#'), CodeOf(')')] && HASH == [CodeOf('#')]
    ensures NEWLINE == CodeOf('\n') && DOT == CodeOf('.') && MINUS == CodeOf('-')
  {
  }

  /** A number ends in one place. */
  lemma NumberEndsOnce(input: seq<Char>, start: nat, a: nat, b: nat)
    requires start < a <= |input| && start < b <= |input|
    requires !IsNumberChar(At(input, a)) && !IsNumberChar(At(input, b))
    requires (forall i | start < i < a :: IsNumberChar(input[i])) && forall i | start < i < b :: IsNumberChar(input[i])
    ensures a == b
  {
  }

  /** A character before a text is dropped with the blanks exactly when it is white, unless a comment begins
      with it. */
  lemma DroppedExactlyWhenWhite(c: Char, rest: seq<Char>)
    requires c != CodeOf('#') && c != CodeOf('(')
    ensures if OneOf(c, WHITE_CHARACTERS) then AfterBlank([c] + rest) == AfterBlank(rest) else AfterBlank([c] + rest) == Some([c] + rest)
  {
    WhiteCharacters(c);
    if IsWhite(c) {
      SpaceIsBlank(c, rest);
    } else {
      var s := [c] + rest;
      assert s[0] == c && !Starts(s, HASH) && !Starts(s, OPEN);
    }
  }

  /** Lines and columns count from one, and a newline is the last character of its line. */
  lemma NewlineStartsLine(input: seq<Char>, n: nat)
    ensures Line(input, 0) == 1 && Column(input, 0) == 1
    ensures At(input, n) == NEWLINE ==> Line(input, n + 1) == Line(input, n) + 1 && Column(input, n + 1) == 1
    ensures At(input, n) != NEWLINE ==> Line(input, n + 1) == Line(input, n) && Column(input, n + 1) == Column(input, n) + 1
  {
  }
}
