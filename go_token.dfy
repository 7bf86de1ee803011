/** Tokens of the Go tokenizer (tokenizer/token.go). */
module GoToken {
  import opened GoType

  /** A kind plus its text; kinds that carry no text hold the empty string. */
  datatype Token = Token(token: TokenType, meta: string) {

    /** `NAME(meta)` when there is text, the bare name otherwise. */
    function String(): (r: string)
      ensures meta == "" ==> r == Name(token)
      ensures meta != "" ==> |r| > |Name(token)| && r[..|Name(token)|] == Name(token)
    {
      if meta != "" then Name(token) + "(" + meta + ")" else Name(token)
    }

    predicate Eof() {
      token == TokenEof
    }
  }

  /** NewToken(t, meta...): the variadic text is kept only when exactly one is given. */
  function NewToken(t: TokenType, meta: seq<string>): (r: Token)
    ensures r.token == t
    ensures |meta| == 1 ==> r.meta == meta[0]
    ensures |meta| != 1 ==> r.meta == ""
  {
    if |meta| == 1 then Token(t, meta[0]) else Token(t, "")
  }

  /** The text of a token is recovered from its printed form: the printed
      form is the name, an opening parenthesis, the text and a closing one. */
  lemma StringRecoversMeta(t: Token)
    requires t.meta != ""
    ensures var s := t.String(); var n := |Name(t.token)|;
      |s| == n + |t.meta| + 2 && s[n] == '(' && s[|s| - 1] == ')' && s[n + 1..|s| - 1] == t.meta
  {
    var s := t.String();
    var n := |Name(t.token)|;
    assert s == Name(t.token) + "(" + t.meta + ")";
    assert s[n + 1..|s| - 1] == t.meta;
  }

  /** A token built with an empty text prints exactly like one built without text. */
  lemma EmptyMetaPrintsBare(t: TokenType)
    ensures NewToken(t, [""]).String() == NewToken(t, []).String() == Name(t)
  {
  }

  /** The two printed forms that tokenizer/token_test.go states. */
  lemma StringExamples()
    ensures Token(TokenDigit, "12345").String() == "TOK_DIGIT(12345)"
    ensures Token(TokenBegin, "").String() == "TOK_BEGIN"
  {
  }

  /** Eof holds exactly for the kind TokenEof, whatever the text. */
  lemma EofExactly(t: Token)
    ensures t.Eof() <==> t.token == 0
    ensures NewToken(TokenEof, []).Eof() && !NewToken(TokenVar, []).Eof()
  {
  }
}
