/**
Where a comment in script data ends: for the check
(crates/tpf3mp-agent/src/save_check.rs:105-112) at the end of its line; in Lua, as
section 2.1 of the Lua 5.1 Reference Manual has it, at the closing long bracket if
it opens with one. What the check reads is what Lua reads in text whose comments
open with none; in other text the two can differ.
*/
module LuaComments {
  import opened Protocol
  import opened LuaData
  import opened LuaText

  predicate CommentAt(text: string, at: nat) {
    At(text, at, '-') && At(text, at + 1, '-')
  }

  function LevelEnd(text: string, from: nat): (end: nat)
    ensures from <= end && (from <= |text| ==> end <= |text|)
    decreases |text| - from
  {
    if At(text, from, '=') then LevelEnd(text, from + 1) else from
  }

  /** The comment at `at` opens with a long bracket. */
  predicate OpensLong(text: string, at: nat) {
    CommentAt(text, at) && At(text, at + 2, '[') && At(text, LevelEnd(text, at + 3), '[')
  }

  /** After the first closing bracket of that level from `from` on. */
  function LongEnd(text: string, from: nat, level: nat): (end: Option<nat>)
    ensures end.Some? ==> from < end.value <= |text|
    decreases |text| - from
  {
    if from >= |text| then None
    else if text[from] == ']' && LevelEnd(text, from + 1) == from + 1 + level && At(text, from + 1 + level, ']')
    then Some(from + level + 2)
    else LongEnd(text, from + 1, level)
  }

  /** Where Lua goes on after the comment at `at`, if the comment ends. */
  function LuaEnd(text: string, at: nat): (end: Option<nat>)
    requires CommentAt(text, at)
    ensures end.Some? ==> at < end.value <= |text|
  {
    if OpensLong(text, at) then
      var open := LevelEnd(text, at + 3);
      LongEnd(text, open + 1, open - (at + 3))
    else
      assert CommentEnd(text, at) > at;
      Some(CommentEnd(text, at))
  }

  /** Past whitespace and comments, as Lua has them. */
  function LuaSkip(text: string, pos: nat): (start: Option<nat>)
    requires pos <= |text|
    ensures start.Some? ==> pos <= start.value <= |text|
    decreases |text| - pos
  {
    if pos < |text| && IsSpace(text[pos]) then LuaSkip(text, pos + 1)
    else if CommentAt(text, pos) then
      match LuaEnd(text, pos) case None => None case Some(end) => LuaSkip(text, end)
    else Some(pos)
  }

  /** The same, as the check has them. */
  function Skip(text: string, pos: nat): (start: nat)
    requires pos <= |text|
    ensures pos <= start <= |text|
    decreases |text| - pos
  {
    if pos < |text| && IsSpace(text[pos]) then Skip(text, pos + 1)
    else if CommentAt(text, pos) then assert CommentEnd(text, pos) > pos; Skip(text, CommentEnd(text, pos))
    else pos
  }

  lemma {:induction false} NextAfterSkip(text: string, pos: nat)
    requires pos <= |text|
    ensures NextToken(text, pos) == NextToken(text, Skip(text, pos))
    decreases |text| - pos
  {
    if pos < |text| && IsSpace(text[pos]) {
      NextAfterSkip(text, pos + 1);
    } else if CommentAt(text, pos) {
      assert CommentEnd(text, pos) > pos;
      NextAfterSkip(text, CommentEnd(text, pos));
    }
  }

  /** The tokens Lua reads from `pos` on; a comment that never ends is none. */
  function LuaTokens(text: string, pos: nat): (ts: seq<Token>)
    requires pos <= |text|
    decreases |text| - pos
  {
    match LuaSkip(text, pos)
    case None => [Bad]
    case Some(start) =>
      var l := NextToken(text, start);
      if l.token.End? || l.token.Bad? then [l.token] else [l.token] + LuaTokens(text, l.end)
  }

  /** No comment between `pos` and the next token opens with a long bracket. */
  predicate PlainSkip(text: string, pos: nat)
    requires pos <= |text|
    decreases |text| - pos
  {
    if pos < |text| && IsSpace(text[pos]) then PlainSkip(text, pos + 1)
    else if CommentAt(text, pos) then
      assert CommentEnd(text, pos) > pos;
      !OpensLong(text, pos) && PlainSkip(text, CommentEnd(text, pos))
    else true
  }

  lemma {:induction false} SkipsAlike(text: string, pos: nat)
    requires pos <= |text| && PlainSkip(text, pos)
    ensures LuaSkip(text, pos) == Some(Skip(text, pos))
    decreases |text| - pos
  {
    if pos < |text| && IsSpace(text[pos]) {
      SkipsAlike(text, pos + 1);
    } else if CommentAt(text, pos) {
      assert CommentEnd(text, pos) > pos;
      SkipsAlike(text, CommentEnd(text, pos));
    }
  }

  /** No comment the check meets from `pos` on opens with a long bracket. */
  predicate Plain(text: string, pos: nat)
    requires pos <= |text|
    decreases |text| - pos
  {
    PlainSkip(text, pos)
    && var l := NextToken(text, pos); (l.token.End? || l.token.Bad? || Plain(text, l.end))
  }

  /** Then Lua reads what the check read. */
  lemma {:induction false} PlainReadsAlike(text: string, pos: nat)
    requires pos <= |text| && Plain(text, pos)
    ensures LuaTokens(text, pos) == Tokens(text, pos)
    decreases |text| - pos
  {
    SkipsAlike(text, pos);
    NextAfterSkip(text, pos);
    var l := NextToken(text, pos);
    if !l.token.End? && !l.token.Bad? { PlainReadsAlike(text, l.end); }
  }

  lemma {:induction false} NoneSkipsPlain(text: string, pos: nat)
    requires pos <= |text| && forall i: nat :: !OpensLong(text, i)
    ensures PlainSkip(text, pos)
    decreases |text| - pos
  {
    if pos < |text| && IsSpace(text[pos]) {
      NoneSkipsPlain(text, pos + 1);
    } else if CommentAt(text, pos) {
      assert CommentEnd(text, pos) > pos;
      NoneSkipsPlain(text, CommentEnd(text, pos));
    }
  }

  /** So in any text in which a long bracket never follows two hyphens. */
  lemma {:induction false} NoneIsPlain(text: string, pos: nat)
    requires pos <= |text| && forall i: nat :: !OpensLong(text, i)
    ensures Plain(text, pos) && LuaTokens(text, pos) == Tokens(text, pos)
    decreases |text| - pos
  {
    NoneSkipsPlain(text, pos);
    var l := NextToken(text, pos);
    if !l.token.End? && !l.token.Bad? { NoneIsPlain(text, l.end); }
    PlainReadsAlike(text, pos);
  }

  /** What is admitted with no such comment is in the grammar as Lua reads it too. */
  lemma {:induction false} AdmittedIsWhatLuaReads(text: string)
    requires InGrammar(Tokens(text, 0)) && Plain(text, 0)
    ensures InGrammar(LuaTokens(text, 0))
  {
    PlainReadsAlike(text, 0);
  }

  /** The first comment that does open with a long bracket decides: the two read
      alike from there if and only if what Lua finds after the bracket is what the
      check finds after the line. */
  lemma {:induction false} LongDecides(text: string, pos: nat)
    requires pos <= |text| && OpensLong(text, pos)
    ensures CommentEnd(text, pos) <= |text|
    ensures LuaTokens(text, pos) == Tokens(text, pos)
            <==> Tokens(text, CommentEnd(text, pos))
                 == match LuaEnd(text, pos) case None => [Bad] case Some(end) => LuaTokens(text, end)
  {
    assert CommentEnd(text, pos) > pos;
    assert NextToken(text, pos) == NextToken(text, CommentEnd(text, pos));
  }

  /** A comment that ends before its line does: Lua reads on, the check does not. */
  lemma LongCanDiffer()
    ensures var text := "--[[]]1"; Tokens(text, 0) == [End] && LuaTokens(text, 0) == [Number, End]
  {
    var text := "--[[]]1";
    assert CommentEnd(text, 7) == 7 && CommentEnd(text, 6) == 7 && CommentEnd(text, 5) == 7 && CommentEnd(text, 4) == 7;
    assert CommentEnd(text, 3) == 7 && CommentEnd(text, 2) == 7 && CommentEnd(text, 1) == 7 && CommentEnd(text, 0) == 7;
    assert NextToken(text, 7) == Lexeme(End, 7) && NextToken(text, 0) == NextToken(text, 7);
    assert LevelEnd(text, 3) == 3 && LevelEnd(text, 5) == 5 && LongEnd(text, 4, 0) == Some(6);
    assert LuaEnd(text, 0) == Some(6) && LuaSkip(text, 6) == Some(6) && LuaSkip(text, 0) == Some(6);
    assert DigitsEnd(text, 7, false) == 7 && DigitsEnd(text, 6, false) == 7 && NumberEnd(text, 6) == Some(7);
    assert NextToken(text, 6) == Lexeme(Number, 7);
    assert LuaSkip(text, 7) == Some(7) && LuaTokens(text, 7) == [End];
  }
}
