/** Token kinds, names and keywords of libpasta (include/token.h, libpasta/token.c). */
module PastaToken {
  import opened Wrappers

  /** `tokentype_t`: an enumeration, so a C int; its enumerators below
      take the values 0, 1, 2, ... in declaration order. */
  newtype TokenType = x: int | 0 <= x < 63

  const TOK_EOF: TokenType := 0
  const TOK_AND: TokenType := 1
  const TOK_ARRAY: TokenType := 2
  const TOK_ASSIGN: TokenType := 3
  const TOK_ASTERISK: TokenType := 4
  const TOK_AT: TokenType := 5
  const TOK_BEGIN: TokenType := 6
  const TOK_CARET: TokenType := 7
  const TOK_CASE: TokenType := 8
  const TOK_COLON: TokenType := 9
  const TOK_COMMA: TokenType := 10
  const TOK_CONST: TokenType := 11
  const TOK_CTRLCODE: TokenType := 12
  const TOK_DIGIT: TokenType := 13
  const TOK_DIV: TokenType := 14
  const TOK_DO: TokenType := 15
  const TOK_DOLLAR: TokenType := 16
  const TOK_DOT: TokenType := 17
  const TOK_DOTDOT: TokenType := 18
  const TOK_DOWNTO: TokenType := 19
  const TOK_ELSE: TokenType := 20
  const TOK_END: TokenType := 21
  const TOK_EQUAL: TokenType := 22
  const TOK_EXIT: TokenType := 23
  const TOK_FILE: TokenType := 24
  const TOK_FUNCTION: TokenType := 25
  const TOK_FOR: TokenType := 26
  const TOK_GOTO: TokenType := 27
  const TOK_GREATEQL: TokenType := 28
  const TOK_GREATER: TokenType := 29
  const TOK_IDENTIFIER: TokenType := 30
  const TOK_IF: TokenType := 31
  const TOK_IN: TokenType := 32
  const TOK_LBRACKET: TokenType := 33
  const TOK_LESSEQL: TokenType := 34
  const TOK_LESSER: TokenType := 35
  const TOK_LPAREN: TokenType := 36
  const TOK_MINUS: TokenType := 37
  const TOK_MOD: TokenType := 38
  const TOK_NEQUAL: TokenType := 39
  const TOK_NIL: TokenType := 40
  const TOK_NOT: TokenType := 41
  const TOK_OF: TokenType := 42
  const TOK_OR: TokenType := 43
  const TOK_PACKED: TokenType := 44
  const TOK_PLUS: TokenType := 45
  const TOK_PROCEDURE: TokenType := 46
  const TOK_PROGRAM: TokenType := 47
  const TOK_RBRACKET: TokenType := 48
  const TOK_RECORD: TokenType := 49
  const TOK_REPEAT: TokenType := 50
  const TOK_RPAREN: TokenType := 51
  const TOK_SEMICOLON: TokenType := 52
  const TOK_SET: TokenType := 53
  const TOK_SLASH: TokenType := 54
  const TOK_STRING: TokenType := 55
  const TOK_THEN: TokenType := 56
  const TOK_TO: TokenType := 57
  const TOK_TYPE: TokenType := 58
  const TOK_UNTIL: TokenType := 59
  const TOK_VAR: TokenType := 60
  const TOK_WHILE: TokenType := 61
  const TOK_WITH: TokenType := 62

  /** A token: its kind, its text when it has one (`meta` is a null pointer
      otherwise), and the line and column where the scanner found it. */
  datatype Token = Token(kind: TokenType, meta: Option<string>, line: nat, col: nat)

  /** A row of the `tokens` name table. */
  datatype TokenInfo = TokenInfo(token: TokenType, str: string)

  /** A row of the `keywords` table. */
  datatype Keyword = Keyword(equiv: string, token: TokenType)

  /** The `tokens` table without its null sentinel; each name is the
      enumerator's own spelling, as TOKENINFO stringifies it. The rows are
      given in blocks of sixteen. */
  const Tokens: seq<TokenInfo> := Tokens0 + Tokens1 + Tokens2 + Tokens3

  const Tokens0: seq<TokenInfo> := [
    TokenInfo(TOK_EOF, "TOK_EOF"), TokenInfo(TOK_AND, "TOK_AND"),
    TokenInfo(TOK_ARRAY, "TOK_ARRAY"), TokenInfo(TOK_ASSIGN, "TOK_ASSIGN"),
    TokenInfo(TOK_ASTERISK, "TOK_ASTERISK"), TokenInfo(TOK_AT, "TOK_AT"),
    TokenInfo(TOK_BEGIN, "TOK_BEGIN"), TokenInfo(TOK_CARET, "TOK_CARET"),
    TokenInfo(TOK_CASE, "TOK_CASE"), TokenInfo(TOK_COLON, "TOK_COLON"),
    TokenInfo(TOK_COMMA, "TOK_COMMA"), TokenInfo(TOK_CONST, "TOK_CONST"),
    TokenInfo(TOK_CTRLCODE, "TOK_CTRLCODE"), TokenInfo(TOK_DIGIT, "TOK_DIGIT"),
    TokenInfo(TOK_DIV, "TOK_DIV"), TokenInfo(TOK_DO, "TOK_DO")]

  const Tokens1: seq<TokenInfo> := [
    TokenInfo(TOK_DOLLAR, "TOK_DOLLAR"), TokenInfo(TOK_DOT, "TOK_DOT"),
    TokenInfo(TOK_DOTDOT, "TOK_DOTDOT"), TokenInfo(TOK_DOWNTO, "TOK_DOWNTO"),
    TokenInfo(TOK_ELSE, "TOK_ELSE"), TokenInfo(TOK_END, "TOK_END"),
    TokenInfo(TOK_EQUAL, "TOK_EQUAL"), TokenInfo(TOK_EXIT, "TOK_EXIT"),
    TokenInfo(TOK_FILE, "TOK_FILE"), TokenInfo(TOK_FOR, "TOK_FOR"),
    TokenInfo(TOK_FUNCTION, "TOK_FUNCTION"), TokenInfo(TOK_GOTO, "TOK_GOTO"),
    TokenInfo(TOK_GREATEQL, "TOK_GREATEQL"), TokenInfo(TOK_GREATER, "TOK_GREATER"),
    TokenInfo(TOK_IDENTIFIER, "TOK_IDENTIFIER"), TokenInfo(TOK_IF, "TOK_IF")]

  const Tokens2: seq<TokenInfo> := [
    TokenInfo(TOK_IN, "TOK_IN"), TokenInfo(TOK_LBRACKET, "TOK_LBRACKET"),
    TokenInfo(TOK_LESSEQL, "TOK_LESSEQL"), TokenInfo(TOK_LESSER, "TOK_LESSER"),
    TokenInfo(TOK_LPAREN, "TOK_LPAREN"), TokenInfo(TOK_MINUS, "TOK_MINUS"),
    TokenInfo(TOK_MOD, "TOK_MOD"), TokenInfo(TOK_NEQUAL, "TOK_NEQUAL"),
    TokenInfo(TOK_NIL, "TOK_NIL"), TokenInfo(TOK_NOT, "TOK_NOT"),
    TokenInfo(TOK_OF, "TOK_OF"), TokenInfo(TOK_OR, "TOK_OR"),
    TokenInfo(TOK_PACKED, "TOK_PACKED"), TokenInfo(TOK_PLUS, "TOK_PLUS"),
    TokenInfo(TOK_PROCEDURE, "TOK_PROCEDURE"), TokenInfo(TOK_PROGRAM, "TOK_PROGRAM")]

  const Tokens3: seq<TokenInfo> := [
    TokenInfo(TOK_RBRACKET, "TOK_RBRACKET"), TokenInfo(TOK_RECORD, "TOK_RECORD"),
    TokenInfo(TOK_REPEAT, "TOK_REPEAT"), TokenInfo(TOK_RPAREN, "TOK_RPAREN"),
    TokenInfo(TOK_SEMICOLON, "TOK_SEMICOLON"), TokenInfo(TOK_SET, "TOK_SET"),
    TokenInfo(TOK_SLASH, "TOK_SLASH"), TokenInfo(TOK_STRING, "TOK_STRING"),
    TokenInfo(TOK_THEN, "TOK_THEN"), TokenInfo(TOK_TO, "TOK_TO"),
    TokenInfo(TOK_TYPE, "TOK_TYPE"), TokenInfo(TOK_UNTIL, "TOK_UNTIL"),
    TokenInfo(TOK_VAR, "TOK_VAR"), TokenInfo(TOK_WHILE, "TOK_WHILE"),
    TokenInfo(TOK_WITH, "TOK_WITH")]

  /** The `keywords` table without its null sentinel, in blocks of twelve. */
  const Keywords: seq<Keyword> := Keywords0 + Keywords1 + Keywords2

  const Keywords0: seq<Keyword> := [
    Keyword("and", TOK_AND), Keyword("array", TOK_ARRAY), Keyword("begin", TOK_BEGIN),
    Keyword("case", TOK_CASE), Keyword("const", TOK_CONST), Keyword("div", TOK_DIV),
    Keyword("do", TOK_DO), Keyword("downto", TOK_DOWNTO), Keyword("else", TOK_ELSE),
    Keyword("end", TOK_END), Keyword("exit", TOK_EXIT), Keyword("file", TOK_FILE)]

  const Keywords1: seq<Keyword> := [
    Keyword("for", TOK_FOR), Keyword("function", TOK_FUNCTION), Keyword("goto", TOK_GOTO),
    Keyword("if", TOK_IF), Keyword("in", TOK_IN), Keyword("mod", TOK_MOD),
    Keyword("nil", TOK_NIL), Keyword("not", TOK_NOT), Keyword("of", TOK_OF),
    Keyword("or", TOK_OR), Keyword("packed", TOK_PACKED), Keyword("procedure", TOK_PROCEDURE)]

  const Keywords2: seq<Keyword> := [
    Keyword("program", TOK_PROGRAM), Keyword("record", TOK_RECORD), Keyword("repeat", TOK_REPEAT),
    Keyword("set", TOK_SET), Keyword("then", TOK_THEN), Keyword("to", TOK_TO),
    Keyword("type", TOK_TYPE), Keyword("until", TOK_UNTIL), Keyword("var", TOK_VAR),
    Keyword("while", TOK_WHILE), Keyword("with", TOK_WITH)]

  const EOF: int := -1

  /** The loop of tokentype_string from row `i`: the name of the first row
      with kind `t`, or "<null>" once the rows run out. */
  function NameFrom(table: seq<TokenInfo>, t: TokenType, i: nat): string
    decreases |table| - i
  {
    if i >= |table| then "<null>"
    else if table[i].token == t then table[i].str
    else NameFrom(table, t, i + 1)
  }

  /** tokentype_string. */
  function TokentypeString(t: TokenType): string {
    NameFrom(Tokens, t, 0)
  }

  /** The row of `Tokens` that holds kind `t`. */
  function RowOf(t: TokenType): (r: nat)
    ensures r < |Tokens| && Tokens[r].token == t
  {
    TableRows();
    if t == TOK_FUNCTION then 26 else if t == TOK_FOR then 25 else t as nat
  }

  /** Row `r` of `Tokens` holds the enumerator of value `r`, except that
      TOK_FOR and TOK_FUNCTION trade places. */
  lemma TableRows()
    ensures forall r :: 0 <= r < |Tokens| ==>
      Tokens[r].token as int == if r == 25 then 26 else if r == 26 then 25 else r
  {
    assert forall r :: 0 <= r < 16 ==> Tokens0[r].token as int == r;
    assert forall r :: 0 <= r < 16 ==> Tokens1[r].token as int == if r == 9 then 26 else if r == 10 then 25 else r + 16;
    assert forall r :: 0 <= r < 16 ==> Tokens2[r].token as int == r + 32;
    assert forall r :: 0 <= r < 15 ==> Tokens3[r].token as int == r + 48;
  }

  /** lowercase on one byte: only 'A'..'Z' change, to 'a'..'z'. */
  function LowerChar(ch: char): char {
    if 'A' <= ch <= 'Z' then (ch as int + 0x20) as char else ch
  }

  /** A text lower-cased byte by byte. */
  function Lower(s: string): (r: string)
    ensures |r| == |s|
    ensures forall k :: 0 <= k < |s| ==> r[k] == LowerChar(s[k])
  {
    if s == [] then [] else [LowerChar(s[0])] + Lower(s[1..])
  }

  const NUL: char := '\0'

  /** strlen: the number of bytes before the first NUL, or all of them. */
  function CLength(s: seq<char>): (n: nat)
    ensures n <= |s| && (n < |s| ==> s[n] == NUL)
    ensures forall k :: 0 <= k < n ==> s[k] != NUL
  {
    if s == [] || s[0] == NUL then 0 else 1 + CLength(s[1..])
  }

  /** What lowercase does to a NUL-terminated buffer: the bytes before the
      first NUL are lower-cased, the NUL and everything after it are kept. */
  function LowerC(s: seq<char>): (r: seq<char>)
    ensures |r| == |s|
  {
    Lower(s[..CLength(s)]) + s[CLength(s)..]
  }

  /** The loop of match_identifier from row `i`: the kind of the first
      keyword spelled `lower`, or TOK_IDENTIFIER once the rows run out. */
  function KindFrom(table: seq<Keyword>, lower: string, i: nat): TokenType
    decreases |table| - i
  {
    if i >= |table| then TOK_IDENTIFIER
    else if table[i].equiv == lower then table[i].token
    else KindFrom(table, lower, i + 1)
  }

  /** match_identifier: the keyword kind of the lower-cased spelling, or
      TOK_IDENTIFIER. */
  function IdentifierKind(input: string): TokenType {
    KindFrom(Keywords, Lower(input), 0)
  }

  /** lowercase: walk the buffer up to its NUL, lower-casing in place. */
  method Lowercase(str: array<char>)
    modifies str
    ensures str[..] == LowerC(old(str[..]))
  {
    var c := 0;
    while c < str.Length && str[c] != NUL
      invariant 0 <= c <= str.Length
      invariant forall k :: 0 <= k < c ==> old(str[k]) != NUL && str[k] == LowerChar(old(str[k]))
      invariant forall k :: c <= k < str.Length ==> str[k] == old(str[k])
      decreases str.Length - c
    {
      str[c] := LowerChar(str[c]);
      c := c + 1;
    }
    ghost var s := old(str[..]);
    assert c == CLength(s);
    assert str[..] == Lower(s[..c]) + s[c..];
  }

  /** match_identifier: a lower-cased copy (strdup and lowercase), then
      the search of the keyword table with strcmp. */
  method MatchIdentifier(input: string) returns (t: TokenType)
    requires NUL !in input
    ensures t == IdentifierKind(input)
  {
    var lower := new char[|input| + 1](i requires 0 <= i <= |input| => if i < |input| then input[i] else NUL);
    assert lower[..] == input + [NUL];
    Lowercase(lower);
    LowerCOfCString(input);
    var text := lower[..|input|];
    assert text == Lower(input);
    var kw := 0;
    while kw < |Keywords|
      invariant 0 <= kw <= |Keywords|
      invariant KindFrom(Keywords, text, kw) == IdentifierKind(input)
      decreases |Keywords| - kw
    {
      if text == Keywords[kw].equiv {
        return Keywords[kw].token;
      }
      kw := kw + 1;
    }
    return TOK_IDENTIFIER;
  }

  /** A NUL-terminated copy of a text lower-cases to the lower-cased text. */
  lemma {:induction false} LowerCOfCString(s: string)
    requires NUL !in s
    ensures LowerC(s + [NUL]) == Lower(s) + [NUL]
  {
    if s != [] {
      assert (s + [NUL])[1..] == s[1..] + [NUL];
      LowerCOfCString(s[1..]);
    } else {
      assert s + [NUL] == [NUL];
    }
  }

  /** tokentype_string yields the name paired with a kind in the first row
      holding it, scanning from row `i`. */
  lemma {:induction false} NameFromRow(table: seq<TokenInfo>, t: TokenType, i: nat, j: nat)
    requires i <= j < |table| && table[j].token == t
    decreases j - i
    ensures exists k :: i <= k <= j && table[k] == TokenInfo(t, NameFrom(table, t, i))
  {
    if table[i].token != t {
      NameFromRow(table, t, i + 1, j);
    } else {
      assert table[i] == TokenInfo(t, NameFrom(table, t, i));
    }
  }

  /** With no row for the kind, the result is "<null>". */
  lemma {:induction false} NameFromMissing(table: seq<TokenInfo>, t: TokenType, i: nat)
    requires forall k :: i <= k < |table| ==> table[k].token != t
    decreases |table| - i
    ensures NameFrom(table, t, i) == "<null>"
  {
    if i < |table| {
      NameFromMissing(table, t, i + 1);
    }
  }

  /** No row of a block is named "<null>". */
  predicate NoNullName(block: seq<TokenInfo>) {
    forall k :: 0 <= k < |block| ==> block[k].str != "<null>"
  }

  lemma NoNullNames()
    ensures NoNullName(Tokens)
  {
    assert NoNullName(Tokens0);
    assert NoNullName(Tokens1);
    assert NoNullName(Tokens2);
    assert NoNullName(Tokens3);
  }

  /** The table lists every kind of the enumeration, so tokentype_string
      never yields "<null>" for a declared kind: it yields the name the
      table pairs with it. */
  lemma EveryKindNamed(t: TokenType)
    ensures exists k :: 0 <= k < |Tokens| && Tokens[k] == TokenInfo(t, TokentypeString(t))
    ensures TokentypeString(t) != "<null>"
  {
    NameFromRow(Tokens, t, 0, RowOf(t));
    NoNullNames();
  }

  /** The search stops on the first row holding the kind. */
  lemma {:induction false} NameFromFirst(table: seq<TokenInfo>, t: TokenType, i: nat, j: nat)
    requires i <= j < |table| && table[j].token == t
    requires forall k :: i <= k < j ==> table[k].token != t
    decreases j - i
    ensures NameFrom(table, t, i) == table[j].str
  {
    if i < j {
      NameFromFirst(table, t, i + 1, j);
    }
  }

  /** TOK_EOF, the value 0 that also fills the sentinel row, is still found:
      the search ends on the sentinel's null name, not on kind 0. */
  lemma EofNamed()
    ensures TokentypeString(TOK_EOF) == "TOK_EOF"
  {
  }

  lemma LastKindNamed()
    ensures TokentypeString(TOK_WITH) == "TOK_WITH"
  {
    NameFromFirst(Tokens, TOK_WITH, 0, RowOf(TOK_WITH));
  }

  /** lowercase changes exactly the upper-case letters, into lower-case ones. */
  lemma LowerCharChanges(ch: char)
    ensures LowerChar(ch) != ch <==> 'A' <= ch <= 'Z'
    ensures 'A' <= ch <= 'Z' ==> 'a' <= LowerChar(ch) <= 'z' && LowerChar(ch) as int == ch as int + 32
  {
  }

  /** Lower-casing twice is lower-casing once. */
  lemma LowerIdempotent(s: string)
    ensures Lower(Lower(s)) == Lower(s)
  {
  }

  /** match_identifier does not care about letter case. */
  lemma MatchIgnoresCase(s: string)
    ensures IdentifierKind(s) == IdentifierKind(Lower(s))
  {
    LowerIdempotent(s);
  }

  /** No keyword is paired with TOK_IDENTIFIER or TOK_EOF. */
  lemma KeywordKinds()
    ensures |Keywords| == 35
    ensures forall k :: 0 <= k < |Keywords| ==>
      Keywords[k].token != TOK_IDENTIFIER && Keywords[k].token != TOK_EOF
  {
  }

  /** No row of one block shares a spelling with a row of another. */
  predicate DistinctAcross(a: seq<Keyword>, b: seq<Keyword>) {
    forall i, j :: 0 <= i < |a| && 0 <= j < |b| ==> a[i].equiv != b[j].equiv
  }

  lemma FirstBlockDistinct()
    ensures forall i, j :: 0 <= i < j < 12 ==> Keywords0[i].equiv != Keywords0[j].equiv
  {
  }

  lemma SecondBlockDistinct()
    ensures forall i, j :: 0 <= i < j < 12 ==> Keywords1[i].equiv != Keywords1[j].equiv
  {
  }

  lemma ThirdBlockDistinct()
    ensures forall i, j :: 0 <= i < j < 11 ==> Keywords2[i].equiv != Keywords2[j].equiv
  {
  }

  lemma FirstSecondDistinct()
    ensures DistinctAcross(Keywords0, Keywords1)
  {
  }

  lemma FirstThirdDistinct()
    ensures DistinctAcross(Keywords0, Keywords2)
  {
  }

  lemma SecondThirdDistinct()
    ensures DistinctAcross(Keywords1, Keywords2)
  {
  }

  /** The 35 keyword spellings are distinct. */
  lemma KeywordsDistinct(i: nat, j: nat)
    requires i < j < |Keywords|
    ensures Keywords[i].equiv != Keywords[j].equiv
  {
    var n0, n1 := |Keywords0|, |Keywords1|;
    if j < n0 {
      FirstBlockDistinct();
      assert Keywords[i] == Keywords0[i] && Keywords[j] == Keywords0[j];
    } else if j < n0 + n1 {
      assert Keywords[j] == Keywords1[j - n0];
      if i < n0 {
        FirstSecondDistinct();
        assert Keywords[i] == Keywords0[i];
      } else {
        SecondBlockDistinct();
        assert Keywords[i] == Keywords1[i - n0];
      }
    } else {
      assert Keywords[j] == Keywords2[j - n0 - n1];
      if i < n0 {
        FirstThirdDistinct();
        assert Keywords[i] == Keywords0[i];
      } else if i < n0 + n1 {
        SecondThirdDistinct();
        assert Keywords[i] == Keywords1[i - n0];
      } else {
        ThirdBlockDistinct();
        assert Keywords[i] == Keywords2[i - n0 - n1];
      }
    }
  }

  lemma {:induction false} KindFromCases(table: seq<Keyword>, lower: string, i: nat)
    requires forall k :: 0 <= k < |table| ==> table[k].token != TOK_IDENTIFIER
    decreases |table| - i
    ensures KindFrom(table, lower, i) == TOK_IDENTIFIER <==>
      forall k :: i <= k < |table| ==> table[k].equiv != lower
    ensures KindFrom(table, lower, i) != TOK_IDENTIFIER ==>
      exists k :: i <= k < |table| && table[k] == Keyword(lower, KindFrom(table, lower, i))
  {
    if i < |table| && table[i].equiv != lower {
      KindFromCases(table, lower, i + 1);
    }
  }

  /** match_identifier yields TOK_IDENTIFIER exactly when the lower-cased
      spelling is no keyword, and otherwise the kind the table pairs with it. */
  lemma IdentifierKindCases(s: string)
    ensures IdentifierKind(s) == TOK_IDENTIFIER <==>
      forall k :: 0 <= k < |Keywords| ==> Keywords[k].equiv != Lower(s)
    ensures IdentifierKind(s) != TOK_IDENTIFIER ==>
      exists k :: 0 <= k < |Keywords| && Keywords[k] == Keyword(Lower(s), IdentifierKind(s))
  {
    KeywordKinds();
    KindFromCases(Keywords, Lower(s), 0);
  }

  /** The search stops on the first row spelled like the text. */
  lemma {:induction false} KindFromFirst(table: seq<Keyword>, lower: string, i: nat, j: nat)
    requires i <= j < |table| && table[j].equiv == lower
    requires forall k :: i <= k < j ==> table[k].equiv != lower
    decreases j - i
    ensures KindFrom(table, lower, i) == table[j].token
  {
    if i < j {
      KindFromFirst(table, lower, i + 1, j);
    }
  }

  /** Keywords are found in any letter case. */
  lemma MatchExamples()
    ensures IdentifierKind("BEGIN") == TOK_BEGIN
  {
    assert Lower("BEGIN") == "begin";
    assert Keywords[2] == Keyword("begin", TOK_BEGIN);
    assert Keywords[0].equiv == "and" && Keywords[1].equiv == "array";
    KindFromFirst(Keywords, "begin", 0, 2);
  }
}
