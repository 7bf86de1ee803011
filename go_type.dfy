/** Token kinds of the Go tokenizer and their tables (tokenizer/type.go).
    `TokenType` is an unsigned integer in Go, so every natural number is a
    value of the type; the 24 named kinds are the iota constants 0..23. */
module GoType {

  type TokenType = nat

  const TokenEof: TokenType := 0
  const TokenAssign: TokenType := 1
  const TokenAsterisk: TokenType := 2
  const TokenBegin: TokenType := 3
  const TokenColon: TokenType := 4
  const TokenComma: TokenType := 5
  const TokenControlCode: TokenType := 6
  const TokenConst: TokenType := 7
  const TokenDigit: TokenType := 8
  const TokenDiv: TokenType := 9
  const TokenDot: TokenType := 10
  const TokenEnd: TokenType := 11
  const TokenEqual: TokenType := 12
  const TokenIdentifier: TokenType := 13
  const TokenLparen: TokenType := 14
  const TokenMinus: TokenType := 15
  const TokenMod: TokenType := 16
  const TokenPlus: TokenType := 17
  const TokenProgram: TokenType := 18
  const TokenSlash: TokenType := 19
  const TokenString: TokenType := 20
  const TokenRparen: TokenType := 21
  const TokenSemicolon: TokenType := 22
  const TokenVar: TokenType := 23

  /** The constants in declaration order. */
  const Declared: seq<TokenType> := [
    TokenEof, TokenAssign, TokenAsterisk, TokenBegin, TokenColon, TokenComma,
    TokenControlCode, TokenConst, TokenDigit, TokenDiv, TokenDot, TokenEnd,
    TokenEqual, TokenIdentifier, TokenLparen, TokenMinus, TokenMod, TokenPlus,
    TokenProgram, TokenSlash, TokenString, TokenRparen, TokenSemicolon, TokenVar]

  const KeywordTokens: map<string, TokenType> := map[
    "begin" := TokenBegin,
    "const" := TokenConst,
    "div" := TokenDiv,
    "end" := TokenEnd,
    "mod" := TokenMod,
    "program" := TokenProgram,
    "var" := TokenVar]

  const StringTokens: map<TokenType, string> := map[
    TokenEof := "TOK_EOF",
    TokenAssign := "TOK_ASSIGN",
    TokenAsterisk := "TOK_ASTERISK",
    TokenBegin := "TOK_BEGIN",
    TokenColon := "TOK_COLON",
    TokenComma := "TOK_COMMA",
    TokenConst := "TOK_CONST",
    TokenControlCode := "TOK_CONTROLCODE",
    TokenDigit := "TOK_DIGIT",
    TokenDiv := "TOK_DIV",
    TokenDot := "TOK_DOT",
    TokenEnd := "TOK_END",
    TokenEqual := "TOK_EQUAL",
    TokenIdentifier := "TOK_IDENTIFIER",
    TokenLparen := "TOK_LPAREN",
    TokenMinus := "TOK_MINUS",
    TokenMod := "TOK_MOD",
    TokenPlus := "TOK_PLUS",
    TokenProgram := "TOK_PROGRAM",
    TokenRparen := "TOK_RPAREN",
    TokenSemicolon := "TOK_SEMICOLON",
    TokenSlash := "TOK_SLASH",
    TokenString := "TOK_STRING",
    TokenVar := "TOK_VAR"]

  /** TokenType.String: the table entry, or TOK_UNKNOWN for a value without one. */
  function Name(t: TokenType): (r: string)
    ensures t in StringTokens ==> r == StringTokens[t]
    ensures t !in StringTokens ==> r == "TOK_UNKNOWN"
  {
    if t in StringTokens then StringTokens[t] else "TOK_UNKNOWN"
  }

  /** Independent reading of a printed name back to its kind. */
  function KindOfName(s: string): TokenType {
    if s == "TOK_EOF" then TokenEof
    else if s == "TOK_ASSIGN" then TokenAssign
    else if s == "TOK_ASTERISK" then TokenAsterisk
    else if s == "TOK_BEGIN" then TokenBegin
    else if s == "TOK_COLON" then TokenColon
    else if s == "TOK_COMMA" then TokenComma
    else if s == "TOK_CONTROLCODE" then TokenControlCode
    else if s == "TOK_CONST" then TokenConst
    else if s == "TOK_DIGIT" then TokenDigit
    else if s == "TOK_DIV" then TokenDiv
    else if s == "TOK_DOT" then TokenDot
    else if s == "TOK_END" then TokenEnd
    else if s == "TOK_EQUAL" then TokenEqual
    else if s == "TOK_IDENTIFIER" then TokenIdentifier
    else if s == "TOK_LPAREN" then TokenLparen
    else if s == "TOK_MINUS" then TokenMinus
    else if s == "TOK_MOD" then TokenMod
    else if s == "TOK_PLUS" then TokenPlus
    else if s == "TOK_PROGRAM" then TokenProgram
    else if s == "TOK_SLASH" then TokenSlash
    else if s == "TOK_STRING" then TokenString
    else if s == "TOK_RPAREN" then TokenRparen
    else if s == "TOK_SEMICOLON" then TokenSemicolon
    else if s == "TOK_VAR" then TokenVar
    else 24
  }

  /** TokenEof is 0 and the declared kinds are the consecutive values 0..23. */
  lemma DeclaredAreConsecutive()
    ensures |Declared| == 24
    ensures forall i :: 0 <= i < |Declared| ==> Declared[i] == i
  {
  }

  /** Exactly the 24 declared kinds have a table entry. */
  lemma StringTokensDomain()
    ensures forall t: TokenType :: t in StringTokens <==> t < 24
  {
  }

  /** Reading the printed name back gives the kind, on all 24 kinds. */
  lemma NameRoundTrip(t: TokenType)
    requires t < 24
    ensures KindOfName(Name(t)) == t
  {
    if t < 8 {
      RoundTripLow(t);
    } else if t < 16 {
      RoundTripMiddle(t);
    } else {
      RoundTripHigh(t);
    }
  }

  /** The round trip on kinds 0..7, 8..15 and 16..23. */
  lemma RoundTripLow(t: TokenType)
    requires 0 <= t < 8
    ensures KindOfName(Name(t)) == t
  {
    if t == 0 {
      assert StringTokens[0] == "TOK_EOF";
    } else if t == 1 {
      assert StringTokens[1] == "TOK_ASSIGN";
    } else if t == 2 {
      assert StringTokens[2] == "TOK_ASTERISK";
    } else if t == 3 {
      assert StringTokens[3] == "TOK_BEGIN";
    } else if t == 4 {
      assert StringTokens[4] == "TOK_COLON";
    } else if t == 5 {
      assert StringTokens[5] == "TOK_COMMA";
    } else if t == 6 {
      assert StringTokens[6] == "TOK_CONTROLCODE";
    } else {
      assert StringTokens[7] == "TOK_CONST";
    }
  }

  lemma RoundTripMiddle(t: TokenType)
    requires 8 <= t < 16
    ensures KindOfName(Name(t)) == t
  {
    if t == 8 {
      assert StringTokens[8] == "TOK_DIGIT";
    } else if t == 9 {
      assert StringTokens[9] == "TOK_DIV";
    } else if t == 10 {
      assert StringTokens[10] == "TOK_DOT";
    } else if t == 11 {
      assert StringTokens[11] == "TOK_END";
    } else if t == 12 {
      assert StringTokens[12] == "TOK_EQUAL";
    } else if t == 13 {
      assert StringTokens[13] == "TOK_IDENTIFIER";
    } else if t == 14 {
      assert StringTokens[14] == "TOK_LPAREN";
    } else {
      assert StringTokens[15] == "TOK_MINUS";
    }
  }

  lemma RoundTripHigh(t: TokenType)
    requires 16 <= t < 24
    ensures KindOfName(Name(t)) == t
  {
    if t == 16 {
      assert StringTokens[16] == "TOK_MOD";
    } else if t == 17 {
      assert StringTokens[17] == "TOK_PLUS";
    } else if t == 18 {
      assert StringTokens[18] == "TOK_PROGRAM";
    } else if t == 19 {
      assert StringTokens[19] == "TOK_SLASH";
    } else if t == 20 {
      assert StringTokens[20] == "TOK_STRING";
    } else if t == 21 {
      assert StringTokens[21] == "TOK_RPAREN";
    } else if t == 22 {
      assert StringTokens[22] == "TOK_SEMICOLON";
    } else {
      assert StringTokens[23] == "TOK_VAR";
    }
  }

  /** So the printed names of the 24 kinds are distinct, and none is TOK_UNKNOWN. */
  lemma NameInjective(a: TokenType, b: TokenType)
    requires a < 24 && b < 24
    ensures Name(a) == Name(b) ==> a == b
    ensures Name(a) != "TOK_UNKNOWN"
  {
    NameRoundTrip(a);
    NameRoundTrip(b);
  }

  /** Any value past the last kind prints as TOK_UNKNOWN. */
  lemma NameOfUndeclared(t: TokenType)
    requires t >= 24
    ensures Name(t) == "TOK_UNKNOWN"
  {
    StringTokensDomain();
  }

  /** The seven keyword spellings, all lower-case. */
  lemma KeywordKeys()
    ensures KeywordTokens.Keys == {"begin", "const", "div", "end", "mod", "program", "var"}
    ensures forall k | k in KeywordTokens :: forall i | 0 <= i < |k| :: 'a' <= k[i] <= 'z'
  {
  }

  /** The keyword kinds are seven distinct kinds, none of them a kind that carries text. */
  lemma KeywordValues()
    ensures |KeywordTokens.Values| == 7
    ensures forall k | k in KeywordTokens ::
      KeywordTokens[k] !in {TokenIdentifier, TokenEof, TokenDigit, TokenString}
  {
    KeywordKinds();
    KindCount();
    forall k | k in KeywordTokens
      ensures KeywordTokens[k] !in {TokenIdentifier, TokenEof, TokenDigit, TokenString}
    {
      var v := KeywordTokens[k];
      assert v in KeywordTokens.Values;
      assert v == 3 || v == 7 || v == 9 || v == 11 || v == 16 || v == 18 || v == 23;
    }
  }

  /** The seven keyword kinds are distinct. */
  lemma KindCount()
    ensures |{TokenBegin, TokenConst, TokenDiv, TokenEnd, TokenMod, TokenProgram, TokenVar}| == 7
  {
    var s := {TokenBegin, TokenConst, TokenDiv, TokenEnd, TokenMod, TokenProgram};
    assert s + {TokenVar} == {TokenBegin, TokenConst, TokenDiv, TokenEnd, TokenMod, TokenProgram, TokenVar};
    assert |{TokenBegin, TokenConst, TokenDiv}| == 3;
    assert {TokenBegin, TokenConst, TokenDiv} + {TokenEnd, TokenMod, TokenProgram} == s;
  }

  /** The set of keyword kinds. */
  lemma KeywordKinds()
    ensures KeywordTokens.Values == {TokenBegin, TokenConst, TokenDiv, TokenEnd, TokenMod, TokenProgram, TokenVar}
  {
    var kinds := {TokenBegin, TokenConst, TokenDiv, TokenEnd, TokenMod, TokenProgram, TokenVar};
    forall v | v in KeywordTokens.Values
      ensures v in kinds
    {
      var k :| k in KeywordTokens && KeywordTokens[k] == v;
    }
    assert KeywordTokens["begin"] in KeywordTokens.Values;
    assert KeywordTokens["const"] in KeywordTokens.Values;
    assert KeywordTokens["div"] in KeywordTokens.Values;
    assert KeywordTokens["end"] in KeywordTokens.Values;
    assert KeywordTokens["mod"] in KeywordTokens.Values;
    assert KeywordTokens["program"] in KeywordTokens.Values;
    assert KeywordTokens["var"] in KeywordTokens.Values;
  }
}
