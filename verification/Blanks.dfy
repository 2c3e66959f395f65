/** White space and comments between tokens: what the lexer drops before each of them. */
module Blanks {
  import opened Common
  import opened Lexer

  const HASH: seq<Char> := [35]

  predicate IsWhite(c: Char) {
    c == 32 || c == 9 || c == NEWLINE || c == 13
  }

  /** What follows the first newline. */
  function AfterLine(s: seq<Char>): (r: seq<Char>)
    ensures |r| <= |s| && (s != [] ==> |r| < |s|)
  {
    if s == [] then [] else if s[0] == NEWLINE then s[1..] else AfterLine(s[1..])
  }

  function AfterSpaces(s: seq<Char>): (r: seq<Char>)
    ensures |r| <= |s| && (s != [] && IsWhite(s[0]) ==> |r| < |s|)
    ensures r != [] ==> !IsWhite(r[0])
  {
    if s == [] || !IsWhite(s[0]) then s else AfterSpaces(s[1..])
  }

  ghost predicate HasComment(s: seq<Char>) {
    exists k: int :: IsComment(Units(s), k)
  }

  ghost function CommentUnits(s: seq<Char>): (k: int)
    requires HasComment(s)
    ensures IsComment(Units(s), k)
  {
    var k: int :| IsComment(Units(s), k);
    k
  }

  /** What follows the comment at the start of `s`. */
  ghost function AfterComment(s: seq<Char>): (r: seq<Char>)
    requires HasComment(s)
    ensures |r| < |s|
  {
    CommentFits(s, CommentUnits(s));
    s[Width(Units(s)[..CommentUnits(s)])..]
  }

  /** What is left when white space and comments are gone, unless a comment has no end. */
  ghost function AfterBlank(s: seq<Char>): Option<seq<Char>>
    decreases |s|
  {
    if Starts(s, HASH) then AfterBlank(AfterLine(s))
    else if Starts(s, OPEN) then if HasComment(s) then AfterBlank(AfterComment(s)) else None
    else if s != [] && IsWhite(s[0]) then AfterBlank(AfterSpaces(s))
    else Some(s)
  }

  lemma {:induction false} WidthCons(u: Unit, us: seq<Unit>)
    ensures Width([u] + us) == UnitWidth(u) + Width(us)
    decreases |us|
  {
    if us == [] {
      assert [u] + us == [u] && [u][..0] == [];
    } else {
      assert ([u] + us)[..|us|] == [u] + us[..|us| - 1];
      WidthCons(u, us[..|us| - 1]);
    }
  }

  lemma {:induction false} WidthOfUnits(s: seq<Char>)
    ensures Width(Units(s)) == |s|
    decreases |s|
  {
    UnitsStep(s);
    if s != [] {
      var n := if Starts(s, OPEN) || Starts(s, CLOSE) then 2 else 1;
      WidthOfUnits(s[n..]);
      WidthCons(Units(s)[0], Units(s[n..]));
      assert Units(s) == [Units(s)[0]] + Units(s[n..]);
    }
  }

  lemma {:induction false} WidthPrefix(us: seq<Unit>, k: nat)
    requires k <= |us|
    ensures Width(us[..k]) <= Width(us) && (k > 0 ==> Width(us[..k]) > 0)
    decreases |us|
  {
    if k == |us| {
      assert us[..k] == us;
    } else {
      assert us[..|us| - 1][..k] == us[..k];
      WidthPrefix(us[..|us| - 1], k);
    }
  }

  lemma CommentFits(s: seq<Char>, k: int)
    requires IsComment(Units(s), k)
    ensures 0 < Width(Units(s)[..k]) <= |s|
  {
    hide Units, Width, Balance;
    WidthOfUnits(s);
    WidthPrefix(Units(s), k);
  }

  lemma AfterCommentIs(s: seq<Char>, k: int)
    requires IsComment(Units(s), k)
    ensures HasComment(s) && 0 < Width(Units(s)[..k]) <= |s| && AfterComment(s) == s[Width(Units(s)[..k])..]
  {
    hide Units, Width, Balance;
    CommentFits(s, k);
    assert HasComment(s);
    CommentIsUnique(Units(s), CommentUnits(s), k);
  }

  lemma CommentStarts(s: seq<Char>, k: int)
    requires IsComment(Units(s), k)
    ensures Starts(s, OPEN)
  {
    hide Balance;
    UnitsStep(s);
  }

  lemma CommentGone(s: seq<Char>)
    requires !Starts(s, HASH) && Starts(s, OPEN) && HasComment(s)
    ensures AfterBlank(s) == AfterBlank(AfterComment(s))
  {
    hide HasComment, AfterComment;
  }

  /** A comment, a line comment or a white character before a text is gone with what is blank in the text. */
  lemma CommentIsBlank(c: seq<Char>, rest: seq<Char>)
    requires IsComment(Units(c), |Units(c)|)
    ensures AfterBlank(c + rest) == AfterBlank(rest)
  {
    hide AfterBlank, HasComment, AfterComment;
    CommentFollowed(c, rest);
    CommentGone(c + rest);
  }

  lemma CommentFollowed(c: seq<Char>, rest: seq<Char>)
    requires IsComment(Units(c), |Units(c)|)
    ensures !Starts(c + rest, HASH) && Starts(c + rest, OPEN) && HasComment(c + rest) && AfterComment(c + rest) == rest
  {
    hide Units, Width, Balance, AfterComment;
    var s, k := c + rest, |Units(c)|;
    CommentThenMore(c, rest);
    AfterCommentIs(s, k);
    assert Units(s)[..k] == Units(c);
    WidthOfUnits(c);
    CommentStarts(s, k);
    assert s[0] == OPEN[0] != HASH[0];
    assert s[|c|..] == rest;
  }

  lemma SpaceIsBlank(w: Char, rest: seq<Char>)
    requires IsWhite(w)
    ensures AfterBlank([w] + rest) == AfterBlank(rest)
  {
    hide AfterBlank;
    var s := [w] + rest;
    assert s[1..] == rest && s[0] == w;
    assert AfterSpaces(s) == AfterSpaces(rest);
    SpacesGone(s);
    if rest != [] && IsWhite(rest[0]) { SpacesGone(rest); }
  }

  lemma SpacesGone(s: seq<Char>)
    requires s != [] && IsWhite(s[0])
    ensures AfterBlank(s) == AfterBlank(AfterSpaces(s))
  {
    hide AfterSpaces;
    assert !Starts(s, HASH) && !Starts(s, OPEN);
  }

  lemma {:induction false} LineEnds(text: seq<Char>, rest: seq<Char>)
    requires NEWLINE !in text
    ensures AfterLine(text + [NEWLINE] + rest) == rest
    decreases |text|
  {
    var s := text + [NEWLINE] + rest;
    if text == [] {
      assert s[1..] == rest;
    } else {
      assert s[1..] == text[1..] + [NEWLINE] + rest && s[0] == text[0];
      LineEnds(text[1..], rest);
    }
  }

  lemma LineCommentIsBlank(text: seq<Char>, rest: seq<Char>)
    requires NEWLINE !in text
    ensures AfterBlank(HASH + text + [NEWLINE] + rest) == AfterBlank(rest)
  {
    LineEnds(HASH + text, rest);
    assert Starts(HASH + text + [NEWLINE] + rest, HASH);
  }

  /** Wherever there is a space between tokens there may be a comment instead, nested or not, or a comment up
      to the end of the line: what is left for the next token is the same. */
  lemma CommentsAreSpaces(w: Char, c: seq<Char>, text: seq<Char>, rest: seq<Char>)
    requires IsWhite(w) && IsComment(Units(c), |Units(c)|) && NEWLINE !in text
    ensures AfterBlank(c + rest) == AfterBlank([w] + rest) == AfterBlank(HASH + text + [NEWLINE] + rest)
  {
    hide AfterBlank, IsComment, IsWhite;
    CommentIsBlank(c, rest);
    SpaceIsBlank(w, rest);
    LineCommentIsBlank(text, rest);
  }

  predicate IsEnd(r: seq<Char>, s: seq<Char>) {
    |r| <= |s| && s[|s| - |r|..] == r
  }

  lemma WholeIsEnd(s: seq<Char>)
    ensures IsEnd(s, s)
  {
  }

  lemma EndOfEnd(r: seq<Char>, m: seq<Char>, s: seq<Char>)
    requires IsEnd(r, m) && IsEnd(m, s)
    ensures IsEnd(r, s)
  {
    assert s[|s| - |m|..][|m| - |r|..] == s[|s| - |r|..];
  }

  /** What is left begins with no blank, and is the end of the text. */
  lemma {:induction false} AfterBlankBeginsToken(s: seq<Char>)
    ensures AfterBlank(s).Some? ==>
      var r := AfterBlank(s).value; IsEnd(r, s) && !Starts(r, HASH) && !Starts(r, OPEN) && (r != [] ==> !IsWhite(r[0]))
    decreases |s|
  {
    hide AfterLine, AfterSpaces, AfterComment, IsEnd;
    if Starts(s, HASH) {
      BlankGone(AfterLine(s), s) by { LineSuffix(s); }
    } else if Starts(s, OPEN) {
      if HasComment(s) { BlankGone(AfterComment(s), s) by { CommentSuffix(s); } }
    } else if s != [] && IsWhite(s[0]) {
      BlankGone(AfterSpaces(s), s) by { SpacesSuffix(s); }
    } else {
      WholeIsEnd(s);
    }
  }

  lemma {:induction false} BlankGone(m: seq<Char>, s: seq<Char>)
    requires IsEnd(m, s) && |m| < |s|
    ensures AfterBlank(m).Some? ==>
      var r := AfterBlank(m).value; IsEnd(r, s) && !Starts(r, HASH) && !Starts(r, OPEN) && (r != [] ==> !IsWhite(r[0]))
    decreases |s|, 0
  {
    hide IsEnd, AfterBlank;
    AfterBlankBeginsToken(m);
    if AfterBlank(m).Some? { EndOfEnd(AfterBlank(m).value, m, s); }
  }

  lemma CommentSuffix(s: seq<Char>)
    requires HasComment(s)
    ensures IsEnd(AfterComment(s), s)
  {
    hide Units, Width, IsComment;
    CommentFits(s, CommentUnits(s));
  }

  lemma {:induction false} LineSuffix(s: seq<Char>)
    ensures IsEnd(AfterLine(s), s)
    decreases |s|
  {
    if s != [] { LineSuffix(s[1..]); }
  }

  lemma {:induction false} SpacesSuffix(s: seq<Char>)
    ensures IsEnd(AfterSpaces(s), s)
    decreases |s|
  {
    if s != [] { SpacesSuffix(s[1..]); }
  }

  // ----- the lexer -----

  class AnodeLexer {
    const reader: SourceReader

    constructor (reader: SourceReader)
      ensures this.reader == reader
    {
      this.reader := reader;
    }

    /** Taking one more character. */
    method Skip() returns (c: Char)
      requires reader.Valid()
      modifies reader
      ensures reader.Valid() && reader.taken == old(reader.taken) + 1
      ensures c == if old(reader.Rest()) == [] then EOF else old(reader.Rest())[0]
      ensures reader.Rest() == if old(reader.Rest()) == [] then [] else old(reader.Rest())[1..]
    {
      hide Line, Column;
      c := reader.Next();
    }

    /** A look at what is next: a character, or the end of the input. */
    method Look() returns (c: Char, atEnd: bool)
      requires reader.Valid()
      modifies reader`pos, reader`failed, reader`lookahead
      ensures reader.Valid() && (atEnd <==> reader.Rest() == []) && c == if reader.Rest() == [] then EOF else reader.Rest()[0]
    {
      hide Line, Column;
      c := reader.Peek(0);
      atEnd := reader.Eof();
    }

    /** A comment up to the end of its line, or to the end of the input. */
    method DiscardSingleLineComment() returns (done: bool)
      requires reader.Valid()
      modifies reader
      ensures reader.Valid() && (done <==> Starts(old(reader.Rest()), HASH))
      ensures reader.Rest() == if done then AfterLine(old(reader.Rest())) else old(reader.Rest())
    {
      hide Line, Column, SourceReader.Valid;
      done := PeekHash();
      if !done {
        return;
      }
      var c, atEnd := Look();
      while c != NEWLINE && !atEnd
        invariant reader.Valid() && AfterLine(reader.Rest()) == AfterLine(old(reader.Rest()))
        invariant (atEnd <==> reader.Rest() == []) && c == if reader.Rest() == [] then EOF else reader.Rest()[0]
        decreases |reader.Rest()|
      {
        var d := Skip();
        c, atEnd := Look();
      }
      var newline := Skip();
    }

    method PeekHash() returns (ok: bool)
      requires reader.Valid()
      modifies reader
      ensures reader.Valid() && (ok <==> Starts(old(reader.Rest()), HASH))
      ensures reader.Rest() == if ok then old(reader.Rest())[1..] else old(reader.Rest())
    {
      hide Line, Column;
      StartsAt(reader.input, reader.taken, HASH);
      ok := reader.Match(HASH);
    }

    method DiscardWhitespaceCharacters() returns (done: bool)
      requires reader.Valid()
      modifies reader
      ensures reader.Valid() && (done <==> old(reader.Rest()) != [] && IsWhite(old(reader.Rest())[0]))
      ensures reader.Rest() == AfterSpaces(old(reader.Rest()))
    {
      hide Line, Column, SourceReader.Valid;
      var c, atEnd := Look();
      if !IsWhite(c) {
        return false;
      }
      while IsWhite(c) && !atEnd
        invariant reader.Valid() && AfterSpaces(reader.Rest()) == AfterSpaces(old(reader.Rest()))
        invariant (atEnd <==> reader.Rest() == []) && c == if reader.Rest() == [] then EOF else reader.Rest()[0]
        decreases |reader.Rest()|
      {
        var d := Skip();
        c, atEnd := Look();
      }
      done := true;
    }

    method DiscardComment() returns (done: Option<bool>)
      requires reader.Valid()
      modifies reader
      ensures done == Some(false) ==> reader.Valid() && reader.Rest() == old(reader.Rest()) && !Starts(old(reader.Rest()), OPEN)
      ensures done == Some(true) ==> reader.Valid() && Starts(old(reader.Rest()), OPEN)
      ensures done == Some(true) ==> HasComment(old(reader.Rest())) && reader.Rest() == AfterComment(old(reader.Rest()))
      ensures done.None? ==> Starts(old(reader.Rest()), OPEN) && !HasComment(old(reader.Rest()))
    {
      hide Line, Column, Units, Width, Balance;
      ghost var before, start := reader.Rest(), reader.taken;
      done := reader.DiscardMultilineComment();
      if done == Some(true) {
        ghost var k: int :| IsComment(Units(before), k) && reader.taken == start + Width(Units(before)[..k]);
        AfterCommentIs(before, k);
        CommentStarts(before, k);
      }
    }

    /** Everything before the next token; not done if a comment has no end. */
    method DiscardWhite() returns (done: bool)
      requires reader.Valid()
      modifies reader
      ensures done ==> reader.Valid() && AfterBlank(old(reader.Rest())) == Some(reader.Rest())
      ensures !done ==> AfterBlank(old(reader.Rest())).None?
    {
      hide Line, Column, SourceReader.Valid, HasComment, AfterComment, AfterLine;
      while true
        invariant reader.Valid() && AfterBlank(reader.Rest()) == AfterBlank(old(reader.Rest()))
        decreases |reader.Rest()|
      {
        ghost var before := reader.Rest();
        var line := DiscardSingleLineComment();
        if line {
          continue;
        }
        var comment := DiscardComment();
        if comment.None? {
          assert AfterBlank(before).None?;
          return false;
        }
        if comment.value {
          continue;
        }
        var white := DiscardWhitespaceCharacters();
        if white {
          continue;
        }
        break;
      }
      done := true;
    }
  }
}
