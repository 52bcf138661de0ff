/**
The grammar of script data a received world may carry, and a parser for it
(crates/tpf3mp-agent/src/save_check.rs): `function data() return TABLE end`,
perhaps with a semicolon, where tables hold nothing but literals.

The grammar is given by its trees and the tokens they print; the parser is
proved to accept exactly what some tree prints.
*/
module LuaData {
  import opened Protocol

  const MAX_DEPTH: nat := 128

  datatype Token = Text | Number | Name(name: string) | Punct(mark: char) | End | Bad

  const KEYWORDS: seq<string> := [
    "and", "break", "do", "else", "elseif", "end", "false", "for", "function", "if", "in", "local",
    "nil", "not", "or", "repeat", "return", "then", "true", "until", "while", "goto"
  ]

  // ----- trees

  datatype Value = Literal(token: Token) | Nested(fields: Fields)

  datatype Field = Keyed(key: Token, value: Value) | Named(name: string, value: Value) | Plain(value: Value)

  /** What stands between the braces: fields with a separator after each, which the
      last may go without. */
  datatype Fields = Nothing | One(field: Field) | More(field: Field, separator: char, rest: Fields)

  predicate IsLiteral(token: Token) {
    token.Text? || token.Number? || token == Name("true") || token == Name("false") || token == Name("nil")
  }

  predicate IsKey(token: Token) {
    token.Text? || token.Number? || token == Name("true") || token == Name("false")
  }

  /** A tree of the grammar, whose tables are at most `levels` deep below it. */
  predicate ValueOk(v: Value, levels: int) {
    match v
    case Literal(token) => IsLiteral(token)
    case Nested(fields) => levels > 0 && FieldsOk(fields, levels - 1)
  }

  predicate FieldOk(f: Field, levels: int) {
    match f
    case Keyed(key, value) => IsKey(key) && ValueOk(value, levels)
    case Named(name, value) => name !in KEYWORDS && ValueOk(value, levels)
    case Plain(value) => ValueOk(value, levels)
  }

  predicate FieldsOk(fs: Fields, levels: int) {
    match fs
    case Nothing => true
    case One(field) => FieldOk(field, levels)
    case More(field, separator, rest) =>
      FieldOk(field, levels) && (separator == ',' || separator == ';') && FieldsOk(rest, levels)
  }

  function PrintValue(v: Value): seq<Token> {
    match v
    case Literal(token) => [token]
    case Nested(fields) => [Punct('{')] + PrintFields(fields) + [Punct('}')]
  }

  function PrintField(f: Field): seq<Token> {
    match f
    case Keyed(key, value) => [Punct('['), key, Punct(']'), Punct('=')] + PrintValue(value)
    case Named(name, value) => [Name(name), Punct('=')] + PrintValue(value)
    case Plain(value) => PrintValue(value)
  }

  function PrintFields(fs: Fields): seq<Token> {
    match fs
    case Nothing => []
    case One(field) => PrintField(field)
    case More(field, separator, rest) => PrintField(field) + [Punct(separator)] + PrintFields(rest)
  }

  function PrintTable(fs: Fields): seq<Token> {
    [Punct('{')] + PrintFields(fs) + [Punct('}')]
  }

  const HEADER: seq<Token> := [Name("function"), Name("data"), Punct('('), Punct(')'), Name("return")]

  /** The whole file, as the grammar has it. */
  function PrintData(fs: Fields, semicolon: bool): seq<Token> {
    HEADER + PrintTable(fs) + [Name("end")]
    + (if semicolon then [Punct(';')] else []) + [End]
  }

  ghost predicate InGrammar(tokens: seq<Token>) {
    exists fs: Fields, semicolon: bool :: FieldsOk(fs, MAX_DEPTH) && tokens == PrintData(fs, semicolon)
  }

  // ----- the parser

  /** What is left, if the tokens start with what was wanted. */
  type Left = Option<seq<Token>>

  function Want(tokens: seq<Token>, token: Token): Left {
    if tokens != [] && tokens[0] == token then Some(tokens[1..]) else None
  }

  function ParseTable(tokens: seq<Token>, depth: nat): (left: Left)
    ensures left.Some? ==> |left.value| < |tokens|
    decreases |tokens|, 1
  {
    if depth > MAX_DEPTH then None
    else
      match Want(tokens, Punct('{'))
      case None => None
      case Some(rest) => ParseFields(rest, depth)
  }

  /** From inside a table to after its closing brace. */
  function ParseFields(tokens: seq<Token>, depth: nat): (left: Left)
    ensures left.Some? ==> |left.value| < |tokens|
    decreases |tokens|, 3
  {
    if tokens == [] then None
    else if tokens[0] == Punct('}') then Some(tokens[1..])
    else
      match ParseField(tokens, depth)
      case None => None
      case Some(rest) =>
        if rest == [] then None
        else if rest[0] == Punct(',') || rest[0] == Punct(';') then ParseFields(rest[1..], depth)
        else if rest[0] == Punct('}') then Some(rest[1..])
        else None
  }

  function ParseField(tokens: seq<Token>, depth: nat): (left: Left)
    ensures left.Some? ==> |left.value| < |tokens|
    decreases |tokens|, 2
  {
    if tokens == [] then None
    else if tokens[0] == Punct('[') then
      if |tokens| < 2 || !IsKey(tokens[1]) then None
      else
        match Want(tokens[2..], Punct(']'))
        case None => None
        case Some(rest) =>
          match Want(rest, Punct('='))
          case None => None
          case Some(after) => ParseValue(after, depth)
    else if tokens[0].Name? && tokens[0].name !in KEYWORDS then
      match Want(tokens[1..], Punct('='))
      case None => None
      case Some(rest) => ParseValue(rest, depth)
    else ParseValue(tokens, depth)
  }

  function ParseValue(tokens: seq<Token>, depth: nat): (left: Left)
    ensures left.Some? ==> |left.value| < |tokens|
    decreases |tokens|, 2, 0
  {
    if tokens == [] then None
    else if tokens[0] == Punct('{') then ParseTable(tokens, depth + 1)
    else if IsLiteral(tokens[0]) then Some(tokens[1..])
    else None
  }

  /** The same for several tokens in a row. */
  function WantAll(tokens: seq<Token>, wanted: seq<Token>): Left
    decreases |wanted|
  {
    if wanted == [] then Some(tokens)
    else
      match Want(tokens, wanted[0])
      case None => None
      case Some(rest) => WantAll(rest, wanted[1..])
  }

  function ParseData(tokens: seq<Token>): bool {
    match WantAll(tokens, HEADER)
    case None => false
    case Some(body) =>
      match ParseTable(body, 0)
      case None => false
      case Some(rest) =>
        match Want(rest, Name("end"))
        case None => false
        case Some(after) => after == [End] || after == [Punct(';'), End]
  }

  lemma {:induction false} WantAllIs(tokens: seq<Token>, wanted: seq<Token>, rest: seq<Token>)
    ensures WantAll(tokens, wanted) == Some(rest) <==> tokens == wanted + rest
    decreases |wanted|
  {
    if wanted != [] {
      if tokens != [] { WantAllIs(tokens[1..], wanted[1..], rest); }
      if tokens == wanted + rest { assert tokens[1..] == wanted[1..] + rest; }
      if tokens != [] && tokens[0] == wanted[0] && tokens[1..] == wanted[1..] + rest {
        assert tokens == [tokens[0]] + tokens[1..];
        Assoc([wanted[0]], wanted[1..], rest);
        assert wanted == [wanted[0]] + wanted[1..];
      }
    } else {
      assert wanted + rest == rest;
    }
  }

  // ----- what a tree prints is accepted unless it is too deep

  /** All that follows, if the tree fits. */
  function LeftIf(fits: bool, rest: seq<Token>): Left {
    if fits then Some(rest) else None
  }

  lemma {:induction false} ValueParses(v: Value, rest: seq<Token>, depth: nat, more: int)
    requires depth <= MAX_DEPTH && ValueOk(v, more)
    ensures ParseValue(PrintValue(v) + rest, depth) == LeftIf(ValueOk(v, MAX_DEPTH - depth), rest)
    decreases v, 0
  {
    var tokens := PrintValue(v) + rest;
    match v
    case Literal(token) => assert tokens[1..] == rest;
    case Nested(fields) =>
      assert tokens[1..] == PrintFields(fields) + [Punct('}')] + rest;
      if depth < MAX_DEPTH { FieldsParse(fields, rest, depth + 1, more - 1); }
  }

  lemma {:induction false} FieldParses(f: Field, rest: seq<Token>, depth: nat, more: int)
    requires depth <= MAX_DEPTH && FieldOk(f, more)
    ensures ParseField(PrintField(f) + rest, depth) == LeftIf(FieldOk(f, MAX_DEPTH - depth), rest)
    ensures PrintField(f) != [] && PrintField(f)[0] != Punct('}')
    decreases f, 1
  {
    var tokens := PrintField(f) + rest;
    match f
    case Keyed(key, value) =>
      ValueParses(value, rest, depth, more);
      assert tokens[2..] == [Punct(']'), Punct('=')] + (PrintValue(value) + rest);
      assert tokens[2..][1..] == [Punct('=')] + (PrintValue(value) + rest);
      assert tokens[2..][1..][1..] == PrintValue(value) + rest;
    case Named(name, value) =>
      ValueParses(value, rest, depth, more);
      assert tokens[1..] == [Punct('=')] + (PrintValue(value) + rest);
      assert tokens[1..][1..] == PrintValue(value) + rest;
    case Plain(value) =>
      ValueParses(value, rest, depth, more);
      LiteralsAreKeywords(value, more);
  }

  /** No plain value looks like the start of a keyed or named one. */
  lemma {:induction false} LiteralsAreKeywords(v: Value, more: int)
    requires ValueOk(v, more)
    ensures PrintValue(v) != []
    ensures var first := PrintValue(v)[0];
            first != Punct('[') && first != Punct('}') && (first.Name? ==> first.name in KEYWORDS)
  {
    assert KEYWORDS[18] == "true" && KEYWORDS[6] == "false" && KEYWORDS[12] == "nil";
  }

  /** One field of a table, and what comes after it. */
  lemma FieldThen(tokens: seq<Token>, f: Field, after: seq<Token>, depth: nat, more: int)
    requires depth <= MAX_DEPTH && FieldOk(f, more) && tokens == PrintField(f) + after && after != []
    requires ParseField(tokens, depth) == LeftIf(FieldOk(f, MAX_DEPTH - depth), after)
    requires PrintField(f) != [] && PrintField(f)[0] != Punct('}')
    ensures !FieldOk(f, MAX_DEPTH - depth) ==> ParseFields(tokens, depth) == None
    ensures FieldOk(f, MAX_DEPTH - depth) && (after[0] == Punct(',') || after[0] == Punct(';'))
            ==> ParseFields(tokens, depth) == ParseFields(after[1..], depth)
    ensures FieldOk(f, MAX_DEPTH - depth) && after[0] == Punct('}') ==> ParseFields(tokens, depth) == Some(after[1..])
  {
    assert tokens[0] == PrintField(f)[0];
  }

  lemma {:induction false} FieldsParse(fs: Fields, rest: seq<Token>, depth: nat, more: int)
    requires depth <= MAX_DEPTH && FieldsOk(fs, more)
    ensures ParseFields(PrintFields(fs) + [Punct('}')] + rest, depth) == LeftIf(FieldsOk(fs, MAX_DEPTH - depth), rest)
    decreases fs, 2
  {
    var tokens := PrintFields(fs) + [Punct('}')] + rest;
    match fs
    case Nothing => assert tokens[1..] == rest;
    case One(field) =>
      var after := [Punct('}')] + rest;
      FieldParses(field, after, depth, more);
      assert tokens == PrintField(field) + after && after[1..] == rest;
      FieldThen(tokens, field, after, depth, more);
    case More(field, separator, others) =>
      var inner := PrintFields(others) + [Punct('}')] + rest;
      var after := [Punct(separator)] + inner;
      FieldParses(field, after, depth, more);
      FieldsParse(others, rest, depth, more);
      Joined(PrintField(field), [Punct(separator)], PrintFields(others), [Punct('}')], rest);
      assert after[1..] == inner;
      FieldThen(tokens, field, after, depth, more);
  }

  /** What a tree prints is accepted exactly if no table is too deep. */
  lemma {:induction false} DataParses(fs: Fields, semicolon: bool, more: int)
    requires FieldsOk(fs, more)
    ensures ParseData(PrintData(fs, semicolon)) <==> FieldsOk(fs, MAX_DEPTH)
  {
    var after := (if semicolon then [Punct(';')] else []) + [End];
    var tail := [Name("end")] + after;
    var body := PrintFields(fs) + [Punct('}')] + tail;
    FieldsParse(fs, tail, 0, more);
    DataGroups(fs, semicolon, after);
    WantAllIs(PrintData(fs, semicolon), HEADER, [Punct('{')] + body);
    assert ([Punct('{')] + body)[1..] == body && tail[1..] == after;
  }

  lemma {:induction false} DataGroups(fs: Fields, semicolon: bool, after: seq<Token>)
    requires after == (if semicolon then [Punct(';')] else []) + [End]
    ensures PrintData(fs, semicolon) == HEADER + ([Punct('{')] + (PrintFields(fs) + [Punct('}')] + ([Name("end")] + after)))
  {
    var o, p, c, e, s := [Punct('{')], PrintFields(fs), [Punct('}')], [Name("end")], if semicolon then [Punct(';')] else [];
    assert PrintData(fs, semicolon) == HEADER + (o + p + c) + e + s + [End];
    Grouped(HEADER, o, p, c, e, s, [End]);
  }

  lemma Grouped(h: seq<Token>, o: seq<Token>, p: seq<Token>, c: seq<Token>, e: seq<Token>, s: seq<Token>, d: seq<Token>)
    ensures h + (o + p + c) + e + s + d == h + (o + (p + c + (e + (s + d))))
  {
  }

  // ----- what is accepted is in the grammar

  lemma ValueSound(tokens: seq<Token>, depth: nat) returns (v: Value)
    requires depth <= MAX_DEPTH && ParseValue(tokens, depth).Some?
    ensures ValueOk(v, MAX_DEPTH - depth) && tokens == PrintValue(v) + ParseValue(tokens, depth).value
    decreases |tokens|, 2, 0
  {
    if tokens[0] == Punct('{') {
      var fields := FieldsSound(tokens[1..], depth + 1);
      v := Nested(fields);
      var left := ParseValue(tokens, depth).value;
      assert tokens == [Punct('{')] + tokens[1..];
      Assoc([Punct('{')], PrintFields(fields) + [Punct('}')], left);
      Assoc([Punct('{')], PrintFields(fields), [Punct('}')]);
    } else {
      v := Literal(tokens[0]);
    }
  }

  lemma FieldSound(tokens: seq<Token>, depth: nat) returns (f: Field)
    requires depth <= MAX_DEPTH && ParseField(tokens, depth).Some?
    ensures FieldOk(f, MAX_DEPTH - depth) && tokens == PrintField(f) + ParseField(tokens, depth).value
    decreases |tokens|, 2
  {
    if tokens[0] == Punct('[') {
      var value := ValueSound(tokens[4..], depth);
      assert tokens[2..][1..] == tokens[3..] && tokens[3..][1..] == tokens[4..];
      f := Keyed(tokens[1], value);
      assert tokens == [Punct('['), tokens[1], Punct(']'), Punct('=')] + tokens[4..];
      Assoc([Punct('['), tokens[1], Punct(']'), Punct('=')], PrintValue(value), ParseField(tokens, depth).value);
    } else if tokens[0].Name? && tokens[0].name !in KEYWORDS {
      var value := ValueSound(tokens[2..], depth);
      assert tokens[1..][1..] == tokens[2..];
      f := Named(tokens[0].name, value);
      assert tokens == [tokens[0], Punct('=')] + tokens[2..];
      Assoc([tokens[0], Punct('=')], PrintValue(value), ParseField(tokens, depth).value);
    } else {
      var value := ValueSound(tokens, depth);
      f := Plain(value);
    }
  }

  lemma FieldsSound(tokens: seq<Token>, depth: nat) returns (fs: Fields)
    requires depth <= MAX_DEPTH && ParseFields(tokens, depth).Some?
    ensures FieldsOk(fs, MAX_DEPTH - depth)
    ensures tokens == PrintFields(fs) + [Punct('}')] + ParseFields(tokens, depth).value
    decreases |tokens|, 3
  {
    var left := ParseFields(tokens, depth).value;
    if tokens[0] == Punct('}') {
      fs := Nothing;
    } else {
      var field := FieldSound(tokens, depth);
      var rest := ParseField(tokens, depth).value;
      if rest[0] == Punct('}') {
        fs := One(field);
        assert rest == [Punct('}')] + left;
        Assoc(PrintField(field), [Punct('}')], left);
      } else {
        var others := FieldsSound(rest[1..], depth);
        fs := More(field, rest[0].mark, others);
        assert rest == [rest[0]] + rest[1..];
        Joined(PrintField(field), [rest[0]], PrintFields(others), [Punct('}')], left);
      }
    }
  }

  lemma Joined(a: seq<Token>, b: seq<Token>, c: seq<Token>, d: seq<Token>, e: seq<Token>)
    ensures a + (b + (c + d + e)) == a + b + c + d + e
  {
  }

  lemma DataSound(tokens: seq<Token>)
    requires ParseData(tokens)
    ensures InGrammar(tokens)
  {
    var body := WantAll(tokens, HEADER).value;
    WantAllIs(tokens, HEADER, body);
    var fs := FieldsSound(body[1..], 0);
    var rest := ParseTable(body, 0).value;
    var semicolon := rest[1..] == [Punct(';'), End];
    assert body == [Punct('{')] + body[1..] && rest == [Name("end")] + rest[1..];
    DataGroups(fs, semicolon, rest[1..]);
    assert tokens == PrintData(fs, semicolon);
  }

  /** The parser accepts exactly the grammar. */
  lemma AcceptsExactly(tokens: seq<Token>)
    ensures ParseData(tokens) <==> InGrammar(tokens)
  {
    if ParseData(tokens) { DataSound(tokens); }
    if InGrammar(tokens) {
      var fs: Fields, semicolon: bool :| FieldsOk(fs, MAX_DEPTH) && tokens == PrintData(fs, semicolon);
      DataParses(fs, semicolon, MAX_DEPTH);
    }
  }

  // ----- depth

  /** How many tables there are inside one another. */
  function ValueDepth(v: Value): nat {
    match v
    case Literal(_) => 0
    case Nested(fields) => 1 + FieldsDepth(fields)
  }

  function FieldsDepth(fs: Fields): nat {
    match fs
    case Nothing => 0
    case One(field) => ValueDepth(field.value)
    case More(field, _, rest) =>
      var a, b := ValueDepth(field.value), FieldsDepth(rest);
      if a < b then b else a
  }

  lemma {:induction false} ValueDepthDecides(v: Value, levels: nat, more: nat)
    requires ValueOk(v, more)
    ensures ValueOk(v, levels) <==> ValueDepth(v) <= levels
    decreases v
  {
    match v
    case Literal(_) =>
    case Nested(fields) => if levels > 0 { FieldsDepthDecides(fields, levels - 1, more - 1); }
  }

  /** Of otherwise good trees, depth alone decides. */
  lemma {:induction false} FieldsDepthDecides(fs: Fields, levels: nat, more: nat)
    requires FieldsOk(fs, more)
    ensures FieldsOk(fs, levels) <==> FieldsDepth(fs) <= levels
    decreases fs
  {
    match fs
    case Nothing =>
    case One(field) => ValueDepthDecides(field.value, levels, more);
    case More(field, _, rest) =>
      ValueDepthDecides(field.value, levels, more);
      FieldsDepthDecides(rest, levels, more);
  }

  /** `n` tables, one in another, inside the outermost. */
  function Deep(n: nat): Fields {
    if n == 0 then Nothing else One(Plain(Nested(Deep(n - 1))))
  }

  lemma {:induction false} DeepIs(n: nat)
    ensures FieldsDepth(Deep(n)) == n && FieldsOk(Deep(n), n)
  {
    if n > 0 { DeepIs(n - 1); }
  }

  /** What an otherwise good tree prints is refused exactly when some table is more
      than 128 levels below the outermost. */
  lemma {:induction false} DepthDecides(fs: Fields, semicolon: bool, more: nat)
    requires FieldsOk(fs, more)
    ensures ParseData(PrintData(fs, semicolon)) <==> FieldsDepth(fs) <= MAX_DEPTH
  {
    DataParses(fs, semicolon, more);
    FieldsDepthDecides(fs, MAX_DEPTH, more);
  }

  /** Counting the outermost, 129 tables one in another pass and 130 do not. */
  lemma {:induction false} DeepestAccepted(n: nat, semicolon: bool)
    ensures ParseData(PrintData(Deep(n), semicolon)) <==> n + 1 <= 129
  {
    DeepIs(n);
    DepthDecides(Deep(n), semicolon, n);
  }
}
