/** Properties of the Go tokenizer model (tokenizer/tokenizer.go). */
module GoTokenizerFacts {
  import opened Wrappers
  import opened GoTester
  import opened GoType
  import opened GoToken
  import opened GoTokenizer

  /** `advanceUntilToken` stops on the first occurrence, and there is none
      exactly when the search runs off the end. */
  lemma {:induction false} UntilTokenFirst(buf: string, c: nat, ch: char)
    decreases |buf| - c
    ensures UntilToken(buf, c, ch).Some? ==>
      forall k :: c <= k < UntilToken(buf, c, ch).value ==> buf[k] != ch
    ensures UntilToken(buf, c, ch).None? <==> forall k :: c <= k < |buf| ==> buf[k] != ch
  {
    if c < |buf| && buf[c] != ch {
      UntilTokenFirst(buf, c + 1, ch);
    }
  }

  /** Every rune of a span satisfies the predicate. */
  lemma {:induction false} SpanAll(buf: string, i: nat, p: char -> bool)
    requires i <= |buf|
    decreases |buf| - i
    ensures forall k :: i <= k < Span(buf, i, p) ==> p(buf[k])
  {
    if i < |buf| && p(buf[i]) {
      SpanAll(buf, i + 1, p);
    }
  }

  /** A run from `i` to `e` that cannot be extended is the span. */
  lemma {:induction false} SpanIsMaximal(buf: string, i: nat, e: nat, p: char -> bool)
    requires i <= e <= |buf|
    requires forall k :: i <= k < e ==> p(buf[k])
    requires e < |buf| ==> !p(buf[e])
    decreases e - i
    ensures Span(buf, i, p) == e
  {
    if i < e {
      SpanIsMaximal(buf, i + 1, e, p);
    }
  }

  /** A `(*` comment ends after the first `*)` at or after its `(`, so the
      `*` of `(*` may already be the closing one; None exactly when no `*)`
      follows. */
  lemma {:induction false} CloseStarFirst(buf: string, c: nat)
    requires c <= |buf|
    decreases |buf| - c
    ensures CloseStar(buf, c).Some? ==>
      forall k :: c <= k < CloseStar(buf, c).value - 2 ==> !ClosesStar(buf, k)
    ensures CloseStar(buf, c).None? <==> forall k :: c <= k < |buf| ==> !ClosesStar(buf, k)
  {
    UntilTokenFirst(buf, c, '*');
    match UntilToken(buf, c, '*')
    case None =>
    case Some(s) =>
      if s + 1 < |buf| && buf[s + 1] != ')' {
        CloseStarFirst(buf, s + 1);
      }
  }

  /** `(*)` closes itself. */
  lemma StarCommentSelfCloses(buf: string, d: nat)
    requires d + 3 <= |buf| && buf[d..d + 3] == "(*)"
    ensures CloseStar(buf, d) == Some(d + 3)
  {
    assert buf[d] == '(' && buf[d + 1] == '*' && buf[d + 2] == ')';
    assert UntilToken(buf, d + 1, '*') == Some(d + 1);
  }

  /** A span of whitespace followed by a significant byte is skipped in one
      call; the stop is the first significant byte. */
  lemma {:induction false} SkipOverSpaces(buf: string, c: nat, e: nat)
    requires c < e < |buf|
    requires forall k :: c < k < e ==> IsSpace(buf[k])
    requires Significant(buf, e)
    decreases e - c
    ensures Skip(buf, c) == Some(e)
  {
    if c + 1 < e {
      SkipOverSpaces(buf, c + 1, e);
    }
  }

  /** The cases of tokenizer/tokenizer_test.go for `advance`. */
  lemma AdvanceTestCases()
    ensures Skip("program", 0) == Some(1)
    ensures Skip("program helloworld", 6) == Some(8)
    ensures Skip("begin;\nx := 5;\nend.", 5) == Some(7)
    ensures Skip("begin;\n\tx := 5;\nend.", 5) == Some(8)
    ensures Skip("program", 6) == Some(7)
  {
    SkipOverSpaces("program helloworld", 6, 8);
    SkipOverSpaces("begin;\nx := 5;\nend.", 5, 7);
    SkipOverSpaces("begin;\n\tx := 5;\nend.", 5, 8);
  }

  /** Comments do not nest: the first `}` closes a `{` comment even when
      another `{` came in between. */
  lemma BraceCommentsDoNotNest()
    ensures Skip("x{a{b}c}", 0) == Some(6)
  {
    var buf := "x{a{b}c}";
    assert UntilToken(buf, 1, '}') == Some(5);
    assert StepAt(buf, 1) == Resume(5);
  }

  /** At or past the end of the buffer NextToken yields TokenEof and leaves
      the cursor where it is, so every later call yields TokenEof again. */
  lemma EofAtEnd(buf: string, c: nat)
    requires |buf| <= c <= |buf| + 1
    ensures NextTokenAt(buf, c) == Emitted(NewToken(TokenEof, []), c)
    ensures NextTokenAt(buf, c).token.Eof()
  {
  }

  /** `:=` is one token that takes both bytes; a `:` before anything else is
      a colon taking one byte. */
  lemma AssignOrColon(buf: string, c: nat)
    requires c < |buf| && buf[c] == ':'
    ensures c + 1 < |buf| && buf[c + 1] == '=' ==>
      NextTokenAt(buf, c) == ThenAdvance(buf, c + 1, NewToken(TokenAssign, []))
    ensures ByteAt(buf, c + 1) != '=' ==>
      NextTokenAt(buf, c) == ThenAdvance(buf, c, NewToken(TokenColon, []))
  {
    if c + 1 < |buf| && buf[c + 1] == '=' {
      assert Significant(buf, c + 1);
      assert Skip(buf, c) == Some(c + 1);
    }
  }

  /** Each of `* , . = ( - + ) ; /` is a token of its fixed kind without
      text that takes exactly its own byte. */
  lemma SingleByteTokens(buf: string, c: nat)
    requires c < |buf| && buf[c] in SingleByteKinds
    ensures NextTokenAt(buf, c) == ThenAdvance(buf, c, NewToken(SingleByteKinds[buf[c]], []))
    ensures NewToken(SingleByteKinds[buf[c]], []).meta == ""
  {
  }

  /** Any other start byte that begins no lexeme is reported as unknown;
      in particular nothing is skipped before the first token. */
  lemma UnknownStart(buf: string, c: nat)
    requires c < |buf| && buf[c] != ':' && buf[c] !in SingleByteKinds
    requires !IsStringStarter(buf[c]) && !IsIdentifierStarter(buf[c]) && !IsAsciiDigit(buf[c])
    ensures NextTokenAt(buf, c) == UnknownRune(buf[c])
  {
  }

  lemma NoSkipBeforeFirstToken()
    ensures NextTokenAt(" x", 0) == UnknownRune(' ')
    ensures NextTokenAt("{c}x", 0) == UnknownRune('{')
  {
    UnknownStart(" x", 0);
    UnknownStart("{c}x", 0);
  }

  /** A token that is emitted moves the cursor forward, to at most one
      past the end. */
  lemma NextTokenProgress(buf: string, c: nat)
    requires c < |buf| && NextTokenAt(buf, c).Emitted?
    ensures c < NextTokenAt(buf, c).next <= |buf| + 1
  {
  }

  /** The run of runes satisfying `p` from `c` to `e`, not extendable. */
  predicate MaximalRun(buf: string, c: nat, e: nat, p: char -> bool) {
    c < e <= |buf| && (forall k :: c <= k < e ==> p(buf[k])) && (e < |buf| ==> !p(buf[e]))
  }

  /** An identifier is the starter plus the maximal run of identifier
      letters; it is followed by `advance` from its last byte. */
  lemma IdentifierLexeme(buf: string, c: nat, e: nat)
    requires c < |buf| && IsIdentifierStarter(buf[c])
    requires MaximalRun(buf, c, e, IsIdentifierLetter)
    ensures IdentifierAt(buf, c) == ThenAdvance(buf, e - 1, WordToken(buf[c..e]))
  {
    SpanIsMaximal(buf, c + 1, e, IsIdentifierLetter);
  }

  /** A lower-cased spelling in the keyword table gives that keyword
      without text, anything else an identifier with its original text. */
  lemma WordTokenKind(ident: string)
    ensures ToLower(ident) in KeywordTokens ==>
      WordToken(ident) == Token(KeywordTokens[ToLower(ident)], "")
    ensures ToLower(ident) !in KeywordTokens ==> WordToken(ident) == Token(TokenIdentifier, ident)
  {
  }

  /** Keywords are recognised in any letter case. */
  lemma KeywordsIgnoreCase()
    ensures WordToken("BeGiN") == Token(TokenBegin, "")
  {
    assert ToLower("BeGiN") == "begin";
  }

  /** A spelling that only starts like a keyword is an identifier. */
  lemma KeywordPrefixIsIdentifier()
    ensures WordToken("Begins") == Token(TokenIdentifier, "Begins")
  {
    assert ToLower("Begins") == "begins";
  }

  /** A digit token's text is the maximal run of ASCII digits. */
  lemma DigitLexeme(buf: string, c: nat, e: nat)
    requires c < |buf| && IsAsciiDigit(buf[c])
    requires MaximalRun(buf, c, e, IsAsciiDigit)
    ensures DigitAt(buf, c) == ThenAdvance(buf, e - 1, Token(TokenDigit, buf[c..e]))
  {
    SpanIsMaximal(buf, c + 1, e, IsAsciiDigit);
  }

  /** A `.` after the digits is left for the next call. */
  lemma DigitStopsAtDot()
    ensures NextTokenAt("12.5", 0) == Emitted(Token(TokenDigit, "12"), 2)
    ensures NextTokenAt("12.5", 2) == Emitted(Token(TokenDot, ""), 3)
  {
    DigitLexeme("12.5", 0, 2);
  }

  /** A digit token that ends the buffer leaves the cursor at its end. */
  lemma DigitAtEndOfBuffer()
    ensures NextTokenAt("12.5", 3) == Emitted(Token(TokenDigit, "5"), 4)
  {
    DigitLexeme("12.5", 3, 4);
  }

  /** A string token's text is the verbatim run of segments from the cursor
      up to the first byte that starts neither kind of segment. */
  lemma StringLexeme(buf: string, c: nat)
    requires c < |buf| && IsStringStarter(buf[c]) && StringAt(buf, c).Emitted?
    ensures var e := StringEnd(buf, c).value;
      c < e <= |buf| && (e < |buf| ==> !IsStringStarter(buf[e]))
      && StringAt(buf, c) == ThenAdvance(buf, e - 1, Token(TokenString, buf[c..e]))
  {
  }

  /** Quote segments have no escapes; two quotes in a row are two segments.
      `#` segments take the number runes after the `#`. */
  lemma StringExamples()
    ensures StringEnd("'it''s' x", 0) == Some(7)
    ensures StringEnd("#13#10;", 0) == Some(6)
    ensures StringEnd("'a'#9'b'", 0) == Some(8)
  {
    var s := "'it''s' x";
    assert UntilToken(s, 1, '\'') == Some(3);
    assert UntilToken(s, 5, '\'') == Some(6);
    var h := "#13#10;";
    assert Span(h, 1, IsNumber) == 3;
    assert Span(h, 4, IsNumber) == 6;
    var m := "'a'#9'b'";
    assert UntilToken(m, 1, '\'') == Some(2);
    assert Span(m, 4, IsNumber) == 5;
    assert UntilToken(m, 6, '\'') == Some(7);
  }

  /** As written, the byte right after `*)` is never where `advance` stops:
      the pass after the comment steps over it unexamined. */
  lemma StarCommentSkipsNextByte(buf: string, c: nat)
    requires c + 1 < |buf| && buf[c + 1] == '(' && ByteAt(buf, c + 2) == '*'
    requires CloseStar(buf, c + 1).Some? && Skip(buf, c).Some?
    ensures Skip(buf, c).value > CloseStar(buf, c + 1).value
  {
  }

  /** So "a(*c*)b" tokenizes as the identifier a and then TokenEof: b is
      lost, and the cursor ends one past the end of the buffer. */
  lemma StarCommentLosesByte()
    ensures NextTokenAt("a(*c*)b", 0) == Emitted(Token(TokenIdentifier, "a"), 7)
    ensures NextTokenAt("a(*c*)b", 7) == Emitted(Token(TokenEof, ""), 7)
    ensures Skip("a(*c*)", 0) == Some(7)
  {
    var buf := "a(*c*)b";
    IdentifierLexeme(buf, 0, 1);
    assert UntilToken(buf, 1, '*') == Some(2);
    assert UntilToken(buf, 3, '*') == Some(4);
    assert CloseStar(buf, 1) == Some(6);
    assert ToLower("a") == "a";
    var b2 := "a(*c*)";
    assert UntilToken(b2, 1, '*') == Some(2);
    assert UntilToken(b2, 3, '*') == Some(4);
    assert CloseStar(b2, 1) == Some(6);
  }

  /** With the corrected skip a significant byte right after `*)` is where
      `advance` stops. */
  lemma SkipIntendedStopsAfterComment(buf: string, c: nat)
    requires c + 1 < |buf| && buf[c + 1] == '(' && ByteAt(buf, c + 2) == '*'
    requires CloseStar(buf, c + 1).Some?
    requires CloseStar(buf, c + 1).value < |buf| && Significant(buf, CloseStar(buf, c + 1).value)
    ensures SkipIntended(buf, c) == Some(CloseStar(buf, c + 1).value)
  {
  }

  /** The corrected skip never leaves the cursor past the end when it starts
      inside the buffer, and keeps "a(*c*)b" to its two identifiers. */
  lemma {:induction false} SkipIntendedInBounds(buf: string, c: nat)
    requires c < |buf| && SkipIntended(buf, c).Some?
    decreases |buf| - c
    ensures SkipIntended(buf, c).value <= |buf|
  {
    var d := c + 1;
    if d < |buf| {
      match StepAt(buf, d)
      case Stop =>
      case Resume(e) =>
        if buf[d] == '(' {
          SkipIntendedInBounds(buf, e - 1);
        } else {
          assert e < |buf| by { BraceOrLineEndInBuffer(buf, d); }
          SkipIntendedInBounds(buf, e);
        }
      case RunsOff =>
    }
  }

  /** The resume point after whitespace, `//` or `{` is inside the buffer. */
  lemma BraceOrLineEndInBuffer(buf: string, d: nat)
    requires d < |buf| && buf[d] != '(' && StepAt(buf, d).Resume?
    ensures StepAt(buf, d).at < |buf|
  {
  }

  lemma SkipIntendedExample()
    ensures SkipIntended("a(*c*)b", 0) == Some(6)
    ensures SkipIntended("a(*c*)", 0) == Some(6)
  {
    var buf := "a(*c*)b";
    assert UntilToken(buf, 1, '*') == Some(2);
    assert UntilToken(buf, 3, '*') == Some(4);
    assert CloseStar(buf, 1) == Some(6);
    SkipIntendedStopsAfterComment(buf, 0);
    var b2 := "a(*c*)";
    assert UntilToken(b2, 1, '*') == Some(2);
    assert UntilToken(b2, 3, '*') == Some(4);
    assert CloseStar(b2, 1) == Some(6);
  }
}
