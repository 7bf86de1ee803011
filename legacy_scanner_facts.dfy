/** Properties of the streaming scanner's specification functions (scanner.c). */
module LegacyScannerFacts {
  import opened Wrappers
  import opened Bytes
  import opened LegacyToken
  import opened LegacyScanner

  /** `scanner_peek_clean` at a significant byte consumes nothing, so a
      second call right after the first changes nothing. */
  lemma CleanIdempotent(input: seq<Byte>, k: nat)
    requires Cleaned(input, k).Some?
    ensures Cleaned(input, Cleaned(input, k).value) == Cleaned(input, k)
  {
  }

  /** The position `scanner_consume_until_char` stops at holds the first
      `ch` from `k` on. */
  lemma {:induction false} UntilCharFirst(input: seq<Byte>, k: nat, ch: int)
    requires 0 <= ch && UntilChar(input, k, ch).Some?
    ensures forall j :: k <= j < UntilChar(input, k, ch).value ==> Stream(input, j) != ch
    decreases |input| - k
  {
    if Stream(input, k) != ch {
      UntilCharFirst(input, k + 1, ch);
    }
  }

  /** A `{` comment ends at the first `}`: comments do not nest. */
  lemma BracketsDoNotNest()
    ensures Cleaned("{a{b}c}", 0) == Some(5)
  {
    assert Stream("{a{b}c}", 5) == 'c' as int;
  }

  /** `(*)` is a whole comment: the `*` of the opening also serves as the
      `*` of the closing. */
  lemma TrigraphSelfCloses()
    ensures Cleaned("(*)x", 0) == Some(3)
  {
    assert TrigraphClosed("(*)x", 0) == Some(3);
  }

  /** A `//` comment ends past the newline and a `(*` comment past the first `*)`. */
  lemma CommentsSkipped()
    ensures Cleaned(TwoComments, 0) == Some(13)
  {
    assert UntilChar(TwoComments, 0, '\n' as int) == Some(4);
    assert UntilChar(TwoComments, 5, '*' as int) == Some(6);
    assert UntilChar(TwoComments, 7, '*' as int) == Some(10);
    assert TrigraphClosed(TwoComments, 7) == Some(12);
    assert TrigraphClosed(TwoComments, 5) == Some(12);
    assert SkipOnce(TwoComments, 0) == Some(5);
    assert SkipOnce(TwoComments, 5) == Some(12);
    assert Cleaned(TwoComments, 12) == Some(13);
    assert Cleaned(TwoComments, 5) == Some(13);
  }

  const TwoComments: seq<Byte> := "// c\n(* d *) x"

  /** Unless a space or a comment is open at the end, cleaning stops on a
      byte or at the end of the input. */
  lemma UnclosedComment()
    ensures Cleaned("{ abc", 0) == None
    ensures Cleaned(" \t", 0) == Some(2)
  {
    assert UntilChar("{ abc", 0, '}' as int) == None;
  }

  /** `:=` is one token only when `=` follows the `:` directly. */
  lemma ColonOrAssign(input: seq<Byte>, k: nat, mi: string -> TokenType)
    requires Stream(input, k) == ':' as int
    ensures Stream(input, k + 1) == '=' as int ==> Dispatch(input, k, mi) == Some(Scan(Token(TOK_ASSIGN, None), k + 2))
    ensures Stream(input, k + 1) != '=' as int ==> Dispatch(input, k, mi) == Some(Scan(Token(TOK_COLON, None), k + 1))
  {
    assert ':' as int !in OneByteKinds;
  }

  /** The single-byte tokens and their kinds. */
  lemma OneByteTokens(mi: string -> TokenType)
    ensures NextScan("*", 0, mi) == Some(Scan(Token(TOK_ASTERISK, None), 1))
    ensures NextScan(" ;", 0, mi) == Some(Scan(Token(TOK_SEMICOLON, None), 2))
    ensures NextScan("/x", 0, mi) == Some(Scan(Token(TOK_SLASH, None), 1))
  {
    assert Significant("/x", 0);
  }

  /** The text of a digit token is a maximal run of `0`-`9`. */
  lemma {:induction false} DigitRunAll(input: seq<Byte>, k: nat)
    ensures forall j :: k <= j < DigitRun(input, k) ==> IsDigit(Stream(input, j))
    ensures !IsDigit(Stream(input, DigitRun(input, k)))
    decreases |input| - k
  {
    if IsDigit(Stream(input, k)) {
      DigitRunAll(input, k + 1);
    }
  }

  /** The text of an identifier is a maximal run of letters and digits. */
  lemma {:induction false} AlnumRunAll(input: seq<Byte>, k: nat)
    ensures forall j :: k <= j < AlnumRun(input, k) ==> IsAlpha(Stream(input, j)) || IsDigit(Stream(input, j))
    ensures !IsAlpha(Stream(input, AlnumRun(input, k))) && !IsDigit(Stream(input, AlnumRun(input, k)))
    decreases |input| - k
  {
    var ch := Stream(input, k);
    if IsAlpha(ch) || IsDigit(ch) {
      AlnumRunAll(input, k + 1);
    }
  }

  /** Digits only: no fraction, exponent, sign or `_` continues a number. */
  lemma DigitExamples(mi: string -> TokenType)
    ensures NextScan("12.5", 0, mi) == Some(Scan(Token(TOK_DIGIT, Some("12")), 2))
    ensures NextScan("7_", 0, mi) == Some(Scan(Token(TOK_DIGIT, Some("7")), 1))
  {
    assert DigitRun("12.5", 0) == 2;
    assert DigitRun("7_", 0) == 1;
    assert "12.5"[0..2] == "12";
    assert "7_"[0..1] == "7";
  }

  /** An identifier starts with a letter and runs over letters and digits;
      `match_identifier` decides its kind, and only `TOK_IDENTIFIER` keeps
      the text. */
  lemma IdentifierExample(mi: string -> TokenType)
    requires mi("x1") == TOK_IDENTIFIER && mi("var") == TOK_VAR
    ensures NextScan("x1_", 0, mi) == Some(Scan(Token(TOK_IDENTIFIER, Some("x1")), 2))
    ensures NextScan("var;", 0, mi) == Some(Scan(Token(TOK_VAR, None), 3))
  {
    assert AlnumRun("x1_", 0) == 2;
    assert "x1_"[0..2] == "x1";
    assert AlnumRun("var;", 0) == 3;
    assert "var;"[0..3] == "var";
  }

  /** `_` does not start an identifier: it is an unrecognised byte, so the
      scanner reports TOK_EOF and stays on it. */
  lemma UnderscoreIsEof(mi: string -> TokenType)
    ensures NextScan("_a", 0, mi) == Some(Scan(Token(TOK_EOF, None), 0))
    ensures NextScan(" [", 0, mi) == Some(Scan(Token(TOK_EOF, None), 1))
  {
  }

  /** String lexemes: quoted segments, doubled quotes and `#` codes. */
  lemma StringExamples()
    ensures StringEnd("'it''s';", 0) == Some(7)
    ensures StringEnd("#13#10x", 0) == Some(6)
  {
    assert UntilChar("'it''s';", 1, '\'' as int) == Some(3);
    assert UntilChar("'it''s';", 5, '\'' as int) == Some(6);
    assert DigitRun("#13#10x", 1) == 3;
    assert DigitRun("#13#10x", 4) == 6;
  }

  /** An unterminated string gives no token: the C loop waits for a quote for ever. */
  lemma UnterminatedString(mi: string -> TokenType)
    ensures NextScan("x := 'abc", 4, mi) == None
  {
    assert UntilChar("x := 'abc", 6, '\'' as int) == None;
    assert StringEnd("x := 'abc", 5) == None;
  }

  /** At the end of the input every call yields TOK_EOF and consumes nothing. */
  lemma EofAtEnd(input: seq<Byte>, k: nat, mi: string -> TokenType)
    requires k >= |input|
    ensures NextScan(input, k, mi) == Some(Scan(Token(TOK_EOF, None), k))
  {
    assert Significant(input, k);
  }

  /** A `scanner_next` that yields TOK_EOF without consuming a lexeme leaves
      the front where the next call yields TOK_EOF again at the same place:
      the EOF at the front is never consumed. */
  lemma EofSticky(input: seq<Byte>, k: nat, mi: string -> TokenType, j: nat)
    requires NextScan(input, k, mi) == Some(Scan(Token(TOK_EOF, None), j))
    requires Cleaned(input, k) == Some(j)
    ensures NextScan(input, j, mi) == Some(Scan(Token(TOK_EOF, None), j))
  {
    CleanIdempotent(input, k);
  }

  /** Only TOK_EOF is ever returned without consuming a byte; every other
      token moves the front forward. */
  lemma DispatchProgress(input: seq<Byte>, k: nat, mi: string -> TokenType)
    requires Dispatch(input, k, mi).Some?
    ensures k <= Dispatch(input, k, mi).value.pos
    ensures Dispatch(input, k, mi).value.pos == k ==> Dispatch(input, k, mi).value.token == Token(TOK_EOF, None)
  {
    var next := Stream(input, k);
    if next != EOF && next !in OneByteKinds && next != ':' as int {
      if IsDigit(next) {
        assert DigitRun(input, k) > k;
      } else if IsAlpha(next) {
        assert AlnumRun(input, k) > k;
      }
    }
  }

  /** Every token but TOK_EOF consumes input: the front of the buffer moves
      forward and stays within the input. */
  lemma ScanProgress(input: seq<Byte>, k: nat, mi: string -> TokenType)
    requires NextScan(input, k, mi).Some? && NextScan(input, k, mi).value.token.kind != TOK_EOF
    ensures k < NextScan(input, k, mi).value.pos <= |input|
  {
    var j := Cleaned(input, k).value;
    var next := Stream(input, j);
    assert next != EOF;
    if IsDigit(next) && next !in OneByteKinds && next != ':' as int {
      assert DigitRun(input, j) == DigitRun(input, j + 1);
    } else if IsAlpha(next) && next !in OneByteKinds && next != ':' as int && !IsDigit(next) {
      assert AlnumRun(input, j) == AlnumRun(input, j + 1);
    }
  }
}
