/**
Script data as text (crates/tpf3mp-agent/src/save_check.rs): the lexer, and the
parser that moves over the text token by token.

A character stands for a byte. What the parser admits is the grammar of
`LuaData` over the tokens the lexer yields.
*/
module LuaText {
  import opened Protocol
  import opened LuaData

  const MAX_LUA_DATA: nat := 32 * 1024 * 1024

  predicate IsDigit(c: char) {
    '0' <= c <= '9'
  }

  predicate IsHexDigit(c: char) {
    IsDigit(c) || 'a' <= c <= 'f' || 'A' <= c <= 'F'
  }

  predicate IsLetter(c: char) {
    'a' <= c <= 'z' || 'A' <= c <= 'Z' || c == '_'
  }

  predicate IsWord(c: char) {
    IsLetter(c) || IsDigit(c)
  }

  predicate IsSpace(c: char) {
    c == ' ' || c == '\t' || c == '\n' || c == '\r' || c == '\U{0b}' || c == '\U{0c}'
  }

  predicate IsMark(c: char) {
    c in "{}[](),;="
  }

  predicate At(text: string, i: nat, c: char) {
    i < |text| && text[i] == c
  }

  /** After the closing quote of a string whose inside starts at `at`. */
  function StringEnd(text: string, quote: char, at: nat): (end: Option<nat>)
    ensures end.Some? ==> at < end.value <= |text|
    decreases |text| - at
  {
    if at >= |text| then None
    else if text[at] == quote then Some(at + 1)
    else if text[at] == '\\' then
      if At(text, at + 1, '\r') && At(text, at + 2, '\n') then StringEnd(text, quote, at + 3)
      else if at + 1 < |text| then StringEnd(text, quote, at + 2)
      else None
    else if text[at] == '\r' || text[at] == '\n' then None
    else StringEnd(text, quote, at + 1)
  }

  /** Where a run of digits ends. */
  function DigitsEnd(text: string, from: nat, hex: bool): (end: nat)
    ensures end >= from && (end > from ==> end <= |text|)
    decreases |text| - from
  {
    if from < |text| && (if hex then IsHexDigit(text[from]) else IsDigit(text[from]))
    then DigitsEnd(text, from + 1, hex) else from
  }

  function WordEnd(text: string, from: nat): (end: nat)
    ensures end >= from && (end > from ==> end <= |text|)
    decreases |text| - from
  {
    if from < |text| && IsWord(text[from]) then WordEnd(text, from + 1) else from
  }

  function CommentEnd(text: string, from: nat): (end: nat)
    requires from <= |text|
    ensures from <= end <= |text|
    decreases |text| - from
  {
    if from < |text| && text[from] != '\r' && text[from] != '\n' then CommentEnd(text, from + 1) else from
  }

  /** Whether `word` stands at `at` and no longer word does. */
  predicate WordAt(text: string, at: nat, word: string) {
    && at + |word| <= |text| && text[at..at + |word|] == word
    && !(at + |word| < |text| && IsWord(text[at + |word|]))
  }

  /** The exponent of a decimal number that ends at `end` without one. */
  function ExponentEnd(text: string, end: nat): (after: nat)
    requires end <= |text|
    ensures end <= after <= |text|
  {
    if At(text, end, 'e') || At(text, end, 'E') then
      var digits := if At(text, end + 1, '+') || At(text, end + 1, '-') then end + 2 else end + 1;
      if DigitsEnd(text, digits, false) > digits then DigitsEnd(text, digits, false) else end
    else end
  }

  /** After a decimal number that starts at `at`. */
  function DecimalEnd(text: string, at: nat): (end: Option<nat>)
    ensures end.Some? ==> at < end.value <= |text|
  {
    var whole := DigitsEnd(text, at, false);
    if whole > at then
      Some(ExponentEnd(text, if At(text, whole, '.') then DigitsEnd(text, whole + 1, false) else whole))
    else if At(text, at, '.') && DigitsEnd(text, at + 1, false) > at + 1 then
      Some(ExponentEnd(text, DigitsEnd(text, at + 1, false)))
    else None
  }

  /** After a number that starts at `from`, if one does. */
  function NumberEnd(text: string, from: nat): (end: Option<nat>)
    ensures end.Some? ==> from < end.value <= |text|
  {
    var at := if At(text, from, '-') then from + 1 else from;
    if WordAt(text, at, "inf") || WordAt(text, at, "nan") then Some(at + 3)
    else if At(text, at, '0') && (At(text, at + 1, 'x') || At(text, at + 1, 'X'))
            && DigitsEnd(text, at + 2, true) > at + 2 then Some(DigitsEnd(text, at + 2, true))
    else DecimalEnd(text, at)
  }

  datatype Lexeme = Lexeme(token: Token, end: nat)

  /** The token at `pos`, past whitespace and comments, and where it ends. */
  function NextToken(text: string, pos: nat): (l: Lexeme)
    requires pos <= |text|
    ensures l.end <= |text| && (l.token.End? || l.token.Bad? || pos < l.end)
    decreases |text| - pos
  {
    if pos == |text| then Lexeme(End, pos)
    else
      var c := text[pos];
      if IsSpace(c) then NextToken(text, pos + 1)
      else if c == '-' && At(text, pos + 1, '-') then
        assert CommentEnd(text, pos) > pos;
        NextToken(text, CommentEnd(text, pos))
      else if c == '"' || c == '\'' then
        match StringEnd(text, c, pos + 1) case None => Lexeme(Bad, pos) case Some(end) => Lexeme(Text, end)
      else if IsMark(c) then Lexeme(Punct(c), pos + 1)
      else
        match NumberEnd(text, pos)
        case Some(end) => Lexeme(Number, end)
        case None =>
          if IsLetter(c) then Lexeme(Name(text[pos..WordEnd(text, pos)]), WordEnd(text, pos)) else Lexeme(Bad, pos)
  }

  /** Every token from `pos` on: up to the end, or to what is no token. */
  function Tokens(text: string, pos: nat): (ts: seq<Token>)
    requires pos <= |text|
    ensures ts != []
    decreases |text| - pos
  {
    var l := NextToken(text, pos);
    if l.token.End? || l.token.Bad? then [l.token] else [l.token] + Tokens(text, l.end)
  }

  /** A list that can only fail: the parser reached what is no token. */
  predicate Failed(left: Left) {
    left.None? || left.value == [Bad]
  }

  // ----- in place

  class Parser {
    const text: string
    var position: nat
    var token: Token

    ghost predicate Valid()
      reads this
    {
      position <= |text| && !token.Bad?
    }

    /** The tokens the parser has yet to take, the current one first. */
    ghost function Rest(): (ts: seq<Token>)
      requires Valid()
      reads this
    {
      if token.End? then [End] else [token] + Tokens(text, position)
    }

    constructor (text: string)
      ensures this.text == text && position == 0 && token == End && Valid()
    {
      this.text, position, token := text, 0, End;
    }

    /** Moves to the next token; `false` at what is no token. */
    method Advance() returns (ok: bool)
      requires Valid()
      modifies this
      ensures var l := NextToken(text, old(position));
              && ok == !l.token.Bad?
              && (ok ==> Valid() && token == l.token && position == l.end)
    {
      ghost var l := NextToken(text, position);
      while true
        invariant Valid() && NextToken(text, position) == l
        decreases |text| - position
      {
        if position == |text| {
          token := End;
          return true;
        }
        var c := text[position];
        if IsSpace(c) {
          position := position + 1;
        } else if c == '-' && position + 1 < |text| && text[position + 1] == '-' {
          SkipComment();
        } else if c == '"' || c == '\'' {
          ok := TakeString(c);
          token := if ok then Text else token;
          return;
        } else if IsMark(c) {
          position := position + 1;
          token := Punct(c);
          return true;
        } else {
          ok := TakeNumber();
          if ok {
            token := Number;
            return;
          }
          if IsLetter(c) {
            var start := position;
            TakeWord();
            token := Name(text[start..position]);
            return true;
          }
          return false;
        }
      }
    }

    method SkipComment()
      requires Valid() && At(text, position, '-') && At(text, position + 1, '-')
      modifies this`position
      ensures Valid() && position == CommentEnd(text, old(position)) > old(position)
    {
      while position < |text| && text[position] != '\r' && text[position] != '\n'
        invariant old(position) <= position <= |text|
        invariant CommentEnd(text, position) == CommentEnd(text, old(position))
      {
        position := position + 1;
      }
    }

    /** A quoted string on one line; a backslash takes the next character, or a line
        break, along. */
    method TakeString(quote: char) returns (ok: bool)
      requires Valid() && position < |text|
      modifies this`position
      ensures Valid()
      ensures match StringEnd(text, quote, old(position) + 1)
              case None => !ok && position == old(position)
              case Some(end) => ok && position == end
    {
      var at := position + 1;
      while true
        invariant position == old(position) < at
        invariant StringEnd(text, quote, at) == StringEnd(text, quote, position + 1)
        decreases |text| - at
      {
        if at >= |text| {
          return false;
        }
        if text[at] == quote {
          position := at + 1;
          return true;
        }
        if text[at] == '\\' {
          if at + 1 >= |text| {
            return false;
          }
          at := if text[at + 1] == '\r' && at + 2 < |text| && text[at + 2] == '\n' then at + 3 else at + 2;
        } else if text[at] == '\r' || text[at] == '\n' {
          return false;
        } else {
          at := at + 1;
        }
      }
    }

    method Digits(from: nat, hex: bool) returns (end: nat)
      ensures end == DigitsEnd(text, from, hex)
    {
      end := from;
      while end < |text| && (if hex then IsHexDigit(text[end]) else IsDigit(text[end]))
        invariant from <= end && DigitsEnd(text, end, hex) == DigitsEnd(text, from, hex)
        decreases |text| - end
      {
        end := end + 1;
      }
    }

    method TakeWord()
      requires Valid()
      modifies this`position
      ensures Valid() && position == WordEnd(text, old(position))
    {
      while position < |text| && IsWord(text[position])
        invariant position <= |text| && WordEnd(text, position) == WordEnd(text, old(position))
      {
        position := position + 1;
      }
    }

    /** A number: `inf`, `nan`, hexadecimal or decimal, perhaps negative. */
    method TakeNumber() returns (ok: bool)
      requires Valid()
      modifies this`position
      ensures Valid()
      ensures match NumberEnd(text, old(position))
              case None => !ok && position == old(position)
              case Some(end) => ok && position == end
    {
      var at := position;
      if at < |text| && text[at] == '-' {
        at := at + 1;
      }
      if WordAt(text, at, "inf") || WordAt(text, at, "nan") {
        position := at + 3;
        return true;
      }
      if At(text, at, '0') && (At(text, at + 1, 'x') || At(text, at + 1, 'X')) {
        var hex := Digits(at + 2, true);
        if hex > at + 2 {
          position := hex;
          return true;
        }
      }
      var end := Decimal(at);
      if end.None? {
        return false;
      }
      position := end.value;
      return true;
    }

    method Decimal(at: nat) returns (end: Option<nat>)
      ensures end == DecimalEnd(text, at)
    {
      var whole := Digits(at, false);
      var mantissa := whole;
      if whole > at {
        if At(text, whole, '.') {
          mantissa := Digits(whole + 1, false);
        }
      } else {
        if !At(text, at, '.') {
          return None;
        }
        mantissa := Digits(at + 1, false);
        if mantissa == at + 1 {
          return None;
        }
      }
      var after := Exponent(mantissa);
      return Some(after);
    }

    method Exponent(end: nat) returns (after: nat)
      requires end <= |text|
      ensures after == ExponentEnd(text, end)
    {
      after := end;
      if At(text, end, 'e') || At(text, end, 'E') {
        var exponent := end + 1;
        if At(text, exponent, '+') || At(text, exponent, '-') {
          exponent := exponent + 1;
        }
        var digits := Digits(exponent, false);
        if digits > exponent {
          after := digits;
        }
      }
    }

    /** Takes the current token, which must not be the last. */
    method Take() returns (ok: bool)
      requires Valid() && !token.End?
      modifies this
      ensures ok ==> Valid() && Rest() == old(Rest())[1..]
      ensures !ok ==> old(Rest())[1..] == [Bad]
    {
      ok := Advance();
    }

    method Expect(wanted: Token) returns (ok: bool)
      requires Valid() && !wanted.End?
      modifies this
      ensures ok ==> Valid() && Want(old(Rest()), wanted) == Some(Rest())
      ensures !ok ==> Failed(Want(old(Rest()), wanted))
    {
      if token != wanted {
        return false;
      }
      ok := Take();
    }

    /** A table, from its opening brace to after its closing one. */
    method TakeTable(depth: nat) returns (ok: bool)
      requires Valid()
      modifies this
      ensures ok ==> Valid() && ParseTable(old(Rest()), depth) == Some(Rest())
      ensures !ok ==> Failed(ParseTable(old(Rest()), depth))
      decreases |Rest()|, 1
    {
      if depth > MAX_DEPTH {
        return false;
      }
      ok := Expect(Punct('{'));
      if !ok {
        return;
      }
      ghost var all := Rest();
      while token != Punct('}')
        invariant Valid() && |Rest()| < |old(Rest())|
        invariant ParseFields(Rest(), depth) == ParseFields(all, depth)
        decreases |Rest()|
      {
        ghost var before := Rest();
        ok := TakeField(depth);
        if !ok {
          return false;
        }
        if token == Punct(',') || token == Punct(';') {
          ok := Take();
          if !ok {
            return false;
          }
        } else if token != Punct('}') {
          return false;
        }
      }
      ok := Take();
    }

    /** One field of a table. */
    method TakeField(depth: nat) returns (ok: bool)
      requires Valid()
      modifies this
      ensures ok ==> Valid() && ParseField(old(Rest()), depth) == Some(Rest())
      ensures !ok ==> Failed(ParseField(old(Rest()), depth))
      decreases |Rest()|, 3
    {
      if token == Punct('[') {
        ok := Take();
        if !ok || !IsKey(token) {
          return false;
        }
        ok := Take();
        if !ok {
          return false;
        }
        ok := Expect(Punct(']'));
        if !ok {
          return false;
        }
        ok := Expect(Punct('='));
        if !ok {
          return false;
        }
        ok := TakeLiteral(depth);
      } else if token.Name? && token.name !in KEYWORDS {
        ok := Take();
        if !ok {
          return false;
        }
        ok := Expect(Punct('='));
        if !ok {
          return false;
        }
        ok := TakeLiteral(depth);
      } else {
        ok := TakeLiteral(depth);
      }
    }

    method TakeLiteral(depth: nat) returns (ok: bool)
      requires Valid()
      modifies this
      ensures ok ==> Valid() && ParseValue(old(Rest()), depth) == Some(Rest())
      ensures !ok ==> Failed(ParseValue(old(Rest()), depth))
      decreases |Rest()|, 2
    {
      if token == Punct('{') {
        ok := TakeTable(depth + 1);
      } else if IsLiteral(token) {
        ok := Take();
      } else {
        ok := false;
      }
    }

    /** The whole file. */
    method Parse() returns (ok: bool)
      requires Valid()
      modifies this
      ensures ok <==> ParseData(old(Rest()))
    {
      ghost var all := Rest();
      ok := TakeHeader();
      if !ok {
        return;
      }
      ok := TakeTable(0);
      if !ok {
        return;
      }
      ok := Expect(Name("end"));
      if !ok {
        return;
      }
      if token == Punct(';') {
        ok := Take();
        if !ok {
          return;
        }
      }
      ok := token == End;
    }

    /** `function data() return`. */
    method TakeHeader() returns (ok: bool)
      requires Valid()
      modifies this
      ensures ok ==> Valid() && WantAll(old(Rest()), HEADER) == Some(Rest())
      ensures !ok ==> Failed(WantAll(old(Rest()), HEADER))
    {
      var i := 0;
      while i < |HEADER|
        invariant 0 <= i <= |HEADER| && Valid()
        invariant WantAll(Rest(), HEADER[i..]) == WantAll(old(Rest()), HEADER)
      {
        assert HEADER[i..][1..] == HEADER[i + 1..];
        ok := Expect(HEADER[i]);
        if !ok {
          return;
        }
        i := i + 1;
      }
      ok := true;
    }
  }

  const BYTE_ORDER_MARK: string := "\U{ef}\U{bb}\U{bf}"

  function Unmarked(bytes: string): string {
    if BYTE_ORDER_MARK <= bytes then bytes[3..] else bytes
  }

  /** Script data is admitted exactly when it is short enough, text, and its tokens
      are in the grammar. Whether bytes are text is for the caller to say. */
  method CheckLuaData(bytes: string, isText: string -> bool) returns (admitted: bool)
    ensures admitted <==> |bytes| <= MAX_LUA_DATA && isText(Unmarked(bytes)) && InGrammar(Tokens(Unmarked(bytes), 0))
  {
    if |bytes| > MAX_LUA_DATA {
      return false;
    }
    var text := Unmarked(bytes);
    if !isText(text) {
      return false;
    }
    AcceptsExactly(Tokens(text, 0));
    var parser := new Parser(text);
    admitted := parser.Advance();
    if admitted {
      admitted := parser.Parse();
    }
  }
}
