/** Token kinds and names of the first, pre-libpasta compiler (token.h, token.c). */
module LegacyToken {
  import opened Wrappers

  /** The enumerators of `tokentype_t`, in declaration order. */
  datatype TokenType =
      TOK_EOF | TOK_ASSIGN | TOK_ASTERISK | TOK_AT | TOK_BEGIN | TOK_CARET | TOK_COLON
    | TOK_COMMA | TOK_CTRLCODE | TOK_CONST | TOK_DIGIT | TOK_DIV | TOK_DOLLAR | TOK_DOT
    | TOK_END | TOK_EQUAL | TOK_GREATER | TOK_IDENTIFIER | TOK_LBRACKET | TOK_LESSER
    | TOK_LPAREN | TOK_MINUS | TOK_MOD | TOK_NIL | TOK_PLUS | TOK_PROGRAM | TOK_SLASH
    | TOK_STRING | TOK_RBRACKET | TOK_RPAREN | TOK_SEMICOLON | TOK_VAR

  /** A token: its kind and its text when it has one (`meta` is a null
      pointer otherwise). This first scanner records no position. */
  datatype Token = Token(kind: TokenType, meta: Option<string>)

  /** A row of the `tokens` name table. */
  datatype TokenInfo = TokenInfo(token: TokenType, str: string)

  /** The TOKENINFO macro: a kind paired with its stringified enumerator. */
  function Info(t: TokenType): TokenInfo {
    TokenInfo(t, Spelling(t))
  }

  /** The `tokens` table without its null sentinel, in blocks of twelve.
      Eight kinds of the enumeration have no row. */
  const Tokens: seq<TokenInfo> := Tokens0 + Tokens1

  const Tokens0: seq<TokenInfo> := [
    Info(TOK_EOF), Info(TOK_ASSIGN),
    Info(TOK_ASTERISK), Info(TOK_BEGIN),
    Info(TOK_COLON), Info(TOK_COMMA),
    Info(TOK_CTRLCODE), Info(TOK_CONST),
    Info(TOK_DIGIT), Info(TOK_DIV),
    Info(TOK_DOT), Info(TOK_END)]

  const Tokens1: seq<TokenInfo> := [
    Info(TOK_EQUAL), Info(TOK_IDENTIFIER),
    Info(TOK_LPAREN), Info(TOK_MINUS),
    Info(TOK_MOD), Info(TOK_PLUS),
    Info(TOK_PROGRAM), Info(TOK_SLASH),
    Info(TOK_STRING), Info(TOK_RPAREN),
    Info(TOK_SEMICOLON), Info(TOK_VAR)]

  /** The loop of tokentype_string from row `i`: the name of the first row
      with kind `t`, or "<null>" once the rows run out. */
  function NameFrom(table: seq<TokenInfo>, t: TokenType, i: nat): string
    decreases |table| - i
  {
    if i >= |table| then "<null>"
    else if table[i].token == t then table[i].str
    else NameFrom(table, t, i + 1)
  }

  /** tokentype_string. */
  function TokentypeString(t: TokenType): string {
    NameFrom(Tokens, t, 0)
  }

  /** The kinds the table leaves out. */
  predicate Unlisted(t: TokenType) {
    t == TOK_AT || t == TOK_CARET || t == TOK_DOLLAR || t == TOK_GREATER
    || t == TOK_LBRACKET || t == TOK_LESSER || t == TOK_NIL || t == TOK_RBRACKET
  }

  /** The enumerator's own spelling, `#token` in TOKENINFO. */
  function Spelling(t: TokenType): string {
    match t
    case TOK_EOF => "TOK_EOF"
    case TOK_ASSIGN => "TOK_ASSIGN"
    case TOK_ASTERISK => "TOK_ASTERISK"
    case TOK_AT => "TOK_AT"
    case TOK_BEGIN => "TOK_BEGIN"
    case TOK_CARET => "TOK_CARET"
    case TOK_COLON => "TOK_COLON"
    case TOK_COMMA => "TOK_COMMA"
    case TOK_CTRLCODE => "TOK_CTRLCODE"
    case TOK_CONST => "TOK_CONST"
    case TOK_DIGIT => "TOK_DIGIT"
    case TOK_DIV => "TOK_DIV"
    case TOK_DOLLAR => "TOK_DOLLAR"
    case TOK_DOT => "TOK_DOT"
    case TOK_END => "TOK_END"
    case TOK_EQUAL => "TOK_EQUAL"
    case TOK_GREATER => "TOK_GREATER"
    case TOK_IDENTIFIER => "TOK_IDENTIFIER"
    case TOK_LBRACKET => "TOK_LBRACKET"
    case TOK_LESSER => "TOK_LESSER"
    case TOK_LPAREN => "TOK_LPAREN"
    case TOK_MINUS => "TOK_MINUS"
    case TOK_MOD => "TOK_MOD"
    case TOK_NIL => "TOK_NIL"
    case TOK_PLUS => "TOK_PLUS"
    case TOK_PROGRAM => "TOK_PROGRAM"
    case TOK_SLASH => "TOK_SLASH"
    case TOK_STRING => "TOK_STRING"
    case TOK_RBRACKET => "TOK_RBRACKET"
    case TOK_RPAREN => "TOK_RPAREN"
    case TOK_SEMICOLON => "TOK_SEMICOLON"
    case TOK_VAR => "TOK_VAR"
  }

  /** The row of `Tokens` that holds kind `t`, if any. */
  function RowOf(t: TokenType): (r: Option<nat>)
    ensures r.Some? ==> r.value < |Tokens| && RowKind(r.value) == t
  {
    match t
    case TOK_EOF => Some(0)
    case TOK_ASSIGN => Some(1)
    case TOK_ASTERISK => Some(2)
    case TOK_BEGIN => Some(3)
    case TOK_COLON => Some(4)
    case TOK_COMMA => Some(5)
    case TOK_CTRLCODE => Some(6)
    case TOK_CONST => Some(7)
    case TOK_DIGIT => Some(8)
    case TOK_DIV => Some(9)
    case TOK_DOT => Some(10)
    case TOK_END => Some(11)
    case TOK_EQUAL => Some(12)
    case TOK_IDENTIFIER => Some(13)
    case TOK_LPAREN => Some(14)
    case TOK_MINUS => Some(15)
    case TOK_MOD => Some(16)
    case TOK_PLUS => Some(17)
    case TOK_PROGRAM => Some(18)
    case TOK_SLASH => Some(19)
    case TOK_STRING => Some(20)
    case TOK_RPAREN => Some(21)
    case TOK_SEMICOLON => Some(22)
    case TOK_VAR => Some(23)
    case _ => None
  }

  /** Exactly the listed kinds have a row. */
  lemma RowOfListed(t: TokenType)
    ensures RowOf(t).Some? <==> !Unlisted(t)
  {
  }

  /** The kind in row `j` of the table, read from its block. */
  function RowKind(j: nat): TokenType
    requires j < |Tokens|
  {
    if j < 12 then Tokens0[j].token else Tokens1[j - 12].token
  }

  /** Every row of a block carries its kind's own spelling. */
  predicate SpelledRows(block: seq<TokenInfo>) {
    forall k :: 0 <= k < |block| ==> block[k].str == Spelling(block[k].token)
  }

  /** No row of a block holds an unlisted kind. */
  predicate ListedRows(block: seq<TokenInfo>) {
    forall k :: 0 <= k < |block| ==> !Unlisted(block[k].token)
  }

  lemma SpelledBlock0()
    ensures SpelledRows(Tokens0)
  {
  }

  lemma SpelledBlock1()
    ensures SpelledRows(Tokens1)
  {
  }

  lemma ListedBlock0()
    ensures ListedRows(Tokens0)
  {
  }

  lemma ListedBlock1()
    ensures ListedRows(Tokens1)
  {
  }

  /** Both properties of the blocks hold of the whole table. */
  lemma TableRows()
    ensures SpelledRows(Tokens) && ListedRows(Tokens)
  {
    SpelledBlock0();
    SpelledBlock1();
    ListedBlock0();
    ListedBlock1();
    forall k | 0 <= k < |Tokens|
      ensures Tokens[k] == if k < 12 then Tokens0[k] else Tokens1[k - 12]
    {
    }
  }

  /** The search from row `i` ends on a row holding the kind, when one comes
      at or after `i` (row `j`); its name is the one it yields. */
  lemma {:induction false} NameFromRow(table: seq<TokenInfo>, t: TokenType, i: nat, j: nat)
    requires i <= j < |table| && table[j].token == t
    decreases j - i
    ensures exists k :: i <= k <= j && table[k] == TokenInfo(t, NameFrom(table, t, i))
  {
    if table[i].token != t {
      NameFromRow(table, t, i + 1, j);
    } else {
      assert table[i] == TokenInfo(t, NameFrom(table, t, i));
    }
  }

  /** With no row for the kind from `i` on, the result is "<null>". */
  lemma {:induction false} NameFromMissing(table: seq<TokenInfo>, t: TokenType, i: nat)
    requires forall k :: i <= k < |table| ==> table[k].token != t
    decreases |table| - i
    ensures NameFrom(table, t, i) == "<null>"
  {
    if i < |table| {
      NameFromMissing(table, t, i + 1);
    }
  }

  /** tokentype_string spells out every kind the table lists and yields
      "<null>" for the eight it leaves out. */
  lemma NameOrNull(t: TokenType)
    ensures TokentypeString(t) == if Unlisted(t) then "<null>" else Spelling(t)
  {
    TableRows();
    RowOfListed(t);
    match RowOf(t)
    case Some(j) =>
      assert Tokens[j].token == RowKind(j);
      NameFromRow(Tokens, t, 0, j);
    case None =>
      NameFromMissing(Tokens, t, 0);
  }

  /** Every spelling starts with the enumerators' common prefix. */
  lemma SpellingStarts(t: TokenType)
    ensures |Spelling(t)| > 4 && Spelling(t)[..4] == "TOK_"
  {
  }

  /** The result is "<null>" exactly for the kinds without a row. */
  lemma NullExactlyUnlisted(t: TokenType)
    ensures TokentypeString(t) == "<null>" <==> Unlisted(t)
  {
    NameOrNull(t);
    SpellingStarts(t);
  }

  /** Two kinds the table misses, and the last one it lists. */
  lemma NameExamples()
    ensures TokentypeString(TOK_NIL) == "<null>"
    ensures TokentypeString(TOK_VAR) == "TOK_VAR"
  {
    NameOrNull(TOK_NIL);
    NameOrNull(TOK_VAR);
  }
}
