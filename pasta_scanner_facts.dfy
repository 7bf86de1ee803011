/** Properties of the libpasta scanner (libpasta/scanner.c). */
module PastaScannerFacts {
  import opened Wrappers
  import opened PastaToken
  import opened PastaScanner
  import opened Bytes

  // ---------------------------------------------------------------------
  // Reading bytes

  /** `scanner_peek` yields EOF exactly at the end and on the byte 0xFF,
      which reads as the C value -1; an ASCII byte reads as its code. */
  lemma PeekEof(b: seq<Byte>, i: nat)
    ensures PeekAt(b, i) == EOF <==> i >= |b| || b[i] == 0xFF as char
    ensures i < |b| && b[i] as int < 128 ==> PeekAt(b, i) == b[i] as int
  {
  }

  // ---------------------------------------------------------------------
  // Cleaning and comments

  /** Nothing moves on a significant byte, and a cleaned cursor is clean. */
  lemma CleanIdempotent(b: seq<Byte>, c: Cursor)
    ensures Significant(b, c.pos) ==> Cleaned(b, c) == Some(c)
    ensures Cleaned(b, c).Some? ==> Cleaned(b, Cleaned(b, c).value) == Cleaned(b, c)
  {
  }

  /** The search for a byte stops at its first occurrence. */
  lemma {:induction false} UntilCharFirst(b: seq<Byte>, c: Cursor, ch: Byte, k: nat)
    requires UntilChar(b, c, ch).Some? && c.pos <= k < UntilChar(b, c, ch).value.pos
    ensures Raw(b, k) != ch
    decreases |b| - c.pos
  {
    if Raw(b, c.pos) != ch && k > c.pos {
      UntilCharFirst(b, Advanced(b, c), ch, k);
    }
  }

  /** A `{` comment ends just after the first `}`: comments do not nest. */
  lemma BracketEndsAtFirstClose(b: seq<Byte>, c: Cursor)
    requires BracketClosed(b, c).Some?
    ensures var e := BracketClosed(b, c).value.pos;
      b[e - 1] == '}' && forall k :: c.pos <= k < e - 1 ==> b[k] != '}'
  {
    var e := BracketClosed(b, c).value.pos;
    forall k | c.pos <= k < e - 1
      ensures b[k] != '}'
    {
      UntilCharFirst(b, c, '}', k);
    }
  }

  /** A byte pair `*)` starting at `k`. */
  predicate ClosesTrigraph(b: seq<Byte>, k: nat) {
    Raw(b, k) == '*' && Raw(b, k + 1) == ')'
  }

  /** A `(*` comment ends just after the first `*)`. */
  lemma {:induction false} TrigraphEndsAtFirstClose(b: seq<Byte>, c: Cursor)
    requires TrigraphClosed(b, c).Some?
    ensures var e := TrigraphClosed(b, c).value.pos;
      ClosesTrigraph(b, e - 2) && forall k :: c.pos <= k < e - 2 ==> !ClosesTrigraph(b, k)
    decreases |b| - c.pos
  {
    var s := UntilChar(b, c, '*').value;
    var e := TrigraphClosed(b, c).value.pos;
    forall k | c.pos <= k < s.pos
      ensures !ClosesTrigraph(b, k)
    {
      UntilCharFirst(b, c, '*', k);
    }
    if Raw(b, s.pos + 1) != ')' {
      TrigraphEndsAtFirstClose(b, Advanced(b, s));
    }
  }

  /** `(*)` is a whole comment: its `*` doubles as the closing one. */
  lemma TrigraphSelfCloses()
    ensures TrigraphClosed("(*)", Cursor(0, 1, 1)) == Some(Cursor(3, 1, 4))
    ensures Cleaned("(*)x", Cursor(0, 1, 1)) == Some(Cursor(3, 1, 4))
  {
    var b: seq<Byte> := "(*)x";
    assert UntilChar(b, Cursor(0, 1, 1), '*') == Some(Cursor(1, 1, 2));
  }

  /** The newline run skipped at the end of a `//` comment. */
  lemma {:induction false} NewlinesAllSkipped(b: seq<Byte>, c: Cursor, k: nat)
    requires c.pos <= k < NewlinesSkipped(b, c).pos
    ensures Raw(b, k) == '\n'
    decreases |b| - c.pos
  {
    if k > c.pos {
      NewlinesAllSkipped(b, Advanced(b, c), k);
    }
  }

  /** A `//` comment ends after its newline and every newline right after it:
      the bytes up to some newline hold none, the rest are all newlines, and
      the byte it stops at is not one. */
  lemma SlashCommentEnds(b: seq<Byte>, c: Cursor)
    requires SlashCommentEnd(b, c).Some?
    ensures var e := SlashCommentEnd(b, c).value.pos;
      var m := UntilChar(b, c, '\n').value.pos;
      c.pos <= m < e && Raw(b, e) != '\n'
      && (forall k :: c.pos <= k < m ==> Raw(b, k) != '\n')
      && (forall k :: m <= k < e ==> Raw(b, k) == '\n')
  {
    var s := UntilChar(b, c, '\n').value;
    forall k | c.pos <= k < s.pos
      ensures Raw(b, k) != '\n'
    {
      UntilCharFirst(b, c, '\n', k);
    }
    forall k | s.pos <= k < NewlinesSkipped(b, s).pos
      ensures Raw(b, k) == '\n'
    {
      NewlinesAllSkipped(b, s, k);
    }
  }

  /** Comments do not nest: after `{a{b}c}` the scanner stands on `c`. */
  lemma BracketsDoNotNest()
    ensures Cleaned("{a{b}c}", Cursor(0, 1, 1)) == Some(Cursor(5, 1, 6))
  {
    var b: seq<Byte> := "{a{b}c}";
    assert UntilChar(b, Cursor(0, 1, 1), '}') == Some(Cursor(4, 1, 5));
  }

  /** Newlines move to the next line and back to column 1; other blanks move a column. */
  lemma LinesAndColumns()
    ensures Cleaned("\n\n  x", Cursor(0, 1, 1)) == Some(Cursor(4, 3, 3))
  {
  }

  /** The newlines that end a `//` comment are counted as lines too. */
  lemma SlashCommentLines()
    ensures Cleaned("// c\n\n\tx", Cursor(0, 1, 1)) == Some(Cursor(7, 3, 2))
  {
    var b: seq<Byte> := "// c\n\n\tx";
    assert UntilChar(b, Cursor(0, 1, 1), '\n') == Some(Cursor(4, 1, 5));
  }

  // ---------------------------------------------------------------------
  // Numbers

  /** The number loop runs over digits without changing its state. */
  lemma {:induction false} DigitsPhase(b: seq<Byte>, p: nat, len: nat, flag: nat)
    requires p + len <= |b| && flag <= 3
    ensures NumberLoop(b, p, len, flag) == NumberLoop(b, p, DigitRun(b, p + len) - p, flag)
    decreases |b| - (p + len)
  {
    if IsDigitCode(PeekAt(b, p + len)) {
      DigitsPhase(b, p, len + 1, flag);
    }
  }

  /** Once past the exponent mark the loop stops at the first non-digit. */
  lemma StopsAfterExponent(b: seq<Byte>, p: nat, len: nat, flag: nat)
    requires p + len <= |b| && 2 <= flag <= 3
    ensures NumberLoop(b, p, len, flag) == DigitRun(b, p + len) - p
  {
    DigitsPhase(b, p, len, flag);
  }

  /** The loop over an exponent agrees with the grammar. */
  lemma ExponentPhase(b: seq<Byte>, p: nat, f: nat, flag: nat)
    requires p <= f <= |b| && flag <= 1
    requires PeekAt(b, f) == 'e' as int || PeekAt(b, f) == 'E' as int
    ensures NumberLoop(b, p, f - p, flag) == ExponentEnd(b, f) - p
  {
    var next := PeekAt(b, f + 1);
    if next == '+' as int || next == '-' as int {
      if IsDigitCode(PeekAt(b, f + 2)) {
        StopsAfterExponent(b, p, f + 2 - p, 2);
      } else {
        StopsAfterExponent(b, p, f - p, 3);
      }
    } else if IsDigitCode(next) {
      StopsAfterExponent(b, p, f + 1 - p, 2);
    } else {
      StopsAfterExponent(b, p, f - p, 3);
    }
  }

  /** The loop after the fraction, or after a dot that starts none, agrees with the grammar. */
  lemma AfterFraction(b: seq<Byte>, p: nat, f: nat, flag: nat)
    requires p <= f <= |b| && (flag == 1 || flag == 3) && !IsDigitCode(PeekAt(b, f))
    requires flag == 3 ==> PeekAt(b, f) == '.' as int
    ensures NumberLoop(b, p, f - p, flag) == ExponentEnd(b, f) - p
  {
    if flag == 1 && (PeekAt(b, f) == 'e' as int || PeekAt(b, f) == 'E' as int) {
      ExponentPhase(b, p, f, flag);
    }
  }

  /** The flag loop of `scanner_read_as_number` reads exactly the number
      lexeme of the grammar: a dot or exponent mark is taken only with a digit
      after it (and the sign), and each part at most once. */
  lemma NumberGrammar(b: seq<Byte>, p: nat)
    requires p <= |b|
    ensures NumberLoop(b, p, 0, 0) == NumberEnd(b, p) - p
  {
    var a := DigitRun(b, p);
    DigitsPhase(b, p, 0, 0);
    assert NumberLoop(b, p, 0, 0) == NumberLoop(b, p, a - p, 0);
    AfterInteger(b, p, a);
  }

  /** The loop after the integer part agrees with the grammar. */
  lemma AfterInteger(b: seq<Byte>, p: nat, a: nat)
    requires p <= a <= |b| && !IsDigitCode(PeekAt(b, a))
    ensures NumberLoop(b, p, a - p, 0) == ExponentEnd(b, FractionEnd(b, a)) - p
  {
    if PeekAt(b, a) == '.' as int {
      if IsDigitCode(PeekAt(b, a + 1)) {
        var f := DigitRun(b, a + 1);
        assert NumberLoop(b, p, a - p, 0) == NumberLoop(b, p, a + 1 - p, 1);
        DigitsPhase(b, p, a + 1 - p, 1);
        AfterFraction(b, p, f, 1);
      } else {
        assert NumberLoop(b, p, a - p, 0) == NumberLoop(b, p, a - p, 3);
        AfterFraction(b, p, a, 3);
      }
    } else if PeekAt(b, a) == 'e' as int || PeekAt(b, a) == 'E' as int {
      ExponentPhase(b, p, a, 0);
    }
  }

  /** Examples of the number rule: all three parts, a sign with no digit
      after it, and a dot with no digit after it. */
  lemma NumberExamples()
    ensures NumberLoop("3.14e-2;", 0, 0, 0) == 7
    ensures NumberLoop("1e+x", 0, 0, 0) == 1
    ensures NumberLoop("2.x", 0, 0, 0) == 1
  {
  }

  /** `1..2` scans as DIGIT("1") and DOTDOT ... */
  lemma NumberBeforeRange()
    ensures NextScan("1..2", Cursor(0, 1, 1))
      == Some(Scan(Token(TOK_DIGIT, Some("1"), 1, 1), Cursor(1, 1, 2)))
    ensures NextScan("1..2", Cursor(1, 1, 2))
      == Some(Scan(Token(TOK_DOTDOT, None, 1, 2), Cursor(3, 1, 4)))
  {
    var b: seq<Byte> := "1..2";
    assert NumberLoop(b, 0, 0, 0) == 1;
    assert b[0..1] == "1";
  }

  /** ... then DIGIT("2") and EOF. */
  lemma NumberAfterRange()
    ensures NextScan("1..2", Cursor(3, 1, 4))
      == Some(Scan(Token(TOK_DIGIT, Some("2"), 1, 4), Cursor(4, 1, 5)))
    ensures NextScan("1..2", Cursor(4, 1, 5))
      == Some(Scan(Token(TOK_EOF, None, 1, 5), Cursor(4, 1, 5)))
  {
    var b: seq<Byte> := "1..2";
    assert NumberLoop(b, 3, 0, 0) == 1;
    assert b[3..4] == "2";
  }

  // ---------------------------------------------------------------------
  // Operators

  /** The two-byte operator a pair of bytes spells, if any. */
  function PairKind(x: Byte, y: Byte): Option<TokenType> {
    if x == ':' && y == '=' then Some(TOK_ASSIGN)
    else if x == '.' && y == '.' then Some(TOK_DOTDOT)
    else if x == '>' && y == '=' then Some(TOK_GREATEQL)
    else if x == '<' && y == '=' then Some(TOK_LESSEQL)
    else if x == '<' && y == '>' then Some(TOK_NEQUAL)
    else None
  }

  /** `:=`, `..`, `>=`, `<=` and `<>` win over their one-byte prefixes: the
      token is recorded at the first byte, before anything is consumed, and
      both bytes are consumed. */
  lemma TwoByteOperatorsWin(b: seq<Byte>, c: Cursor)
    requires c.pos + 1 < |b| && PairKind(b[c.pos], b[c.pos + 1]).Some?
    ensures var kind := PairKind(b[c.pos], b[c.pos + 1]).value;
      NextScan(b, c) == Twice(b, c, kind)
      && Discarded(b, c) == Some(Advanced(b, c))
      && (NextScan(b, c).Some? ==>
            NextScan(b, c).value.token == Token(kind, None, c.line, c.col)
            && c.pos + 2 <= NextScan(b, c).value.cursor.pos <= |b|)
  {
    assert Significant(b, c.pos) && Significant(b, c.pos + 1);
    assert Cleaned(b, Advanced(b, c)) == Some(Advanced(b, c));
  }

  /** A one-byte token is recorded where it starts and consumes its byte. */
  lemma OneByteTokens(b: seq<Byte>, c: Cursor)
    requires Significant(b, c.pos) && c.pos < |b| && PeekAt(b, c.pos) in OneByteKinds
    ensures NextScan(b, c) == Once(b, c, OneByteKinds[PeekAt(b, c.pos)])
    ensures NextScan(b, c).Some? ==>
      NextScan(b, c).value.token == Token(OneByteKinds[PeekAt(b, c.pos)], None, c.line, c.col)
      && c.pos < NextScan(b, c).value.cursor.pos <= |b|
  {
  }

  // ---------------------------------------------------------------------
  // End of input

  /** At the end of the buffer the scanner yields EOF and stays where it is,
      so every later call yields EOF again. */
  lemma EofAtEnd(b: seq<Byte>, c: Cursor)
    requires c.pos >= |b|
    ensures NextScan(b, c) == Some(Scan(Token(TOK_EOF, None, c.line, c.col), c))
  {
  }

  /** A byte no case of `scanner_next` starts with. */
  predicate Unrecognised(next: int) {
    next != EOF && !IsPrefixByte(next) && next !in OneByteKinds && !IsDigitCode(next)
    && !IsUpperCode(next) && !IsLowerCode(next) && next != '_' as int
    && next != '\'' as int && next != '#' as int
  }

  /** An unrecognised byte also yields EOF, and is not consumed. */
  lemma UnrecognisedIsEof(b: seq<Byte>, c: Cursor)
    requires Significant(b, c.pos) && Unrecognised(PeekAt(b, c.pos))
    ensures NextScan(b, c) == Some(Scan(Token(TOK_EOF, None, c.line, c.col), c))
  {
  }

  /** `!` and `}` are two such bytes. */
  lemma UnrecognisedExamples()
    ensures NextScan("!", Cursor(0, 1, 1)) == Some(Scan(Token(TOK_EOF, None, 1, 1), Cursor(0, 1, 1)))
    ensures NextScan("}", Cursor(0, 1, 1)) == Some(Scan(Token(TOK_EOF, None, 1, 1), Cursor(0, 1, 1)))
  {
  }

  // ---------------------------------------------------------------------
  // The byte order mark

  const Bom: seq<Byte> := [0xEF as char, 0xBB as char, 0xBF as char]

  /** As written, the position after the mark is 4, one past its last byte:
      the first byte of the text is lost, so the digits `12` after a mark
      scan as `2`. */
  lemma InitSkipsFirstByte()
    ensures Init(Bom + "12").pos == 4
    ensures NextScan(Bom + "12", Init(Bom + "12"))
      == Some(Scan(Token(TOK_DIGIT, Some("2"), 1, 1), Cursor(5, 1, 2)))
  {
    var b: seq<Byte> := Bom + "12";
    assert HasBom(b);
    assert NumberLoop(b, 4, 0, 0) == 1;
    assert b[4..5] == "2";
  }

  /** Starting just past the mark keeps every byte of the text. */
  lemma InitIntendedKeepsText(b: seq<Byte>)
    ensures HasBom(b) ==> b == Bom + b[InitIntended(b).pos..]
    ensures !HasBom(b) ==> b[InitIntended(b).pos..] == b
  {
    if HasBom(b) {
      assert b[..3] == Bom;
      assert b == b[..3] + b[3..];
    }
  }

  /** With the intended start the digits after the mark scan whole. */
  lemma InitIntendedExample()
    ensures NextScan(Bom + "12", InitIntended(Bom + "12"))
      == Some(Scan(Token(TOK_DIGIT, Some("12"), 1, 1), Cursor(5, 1, 3)))
  {
    var b: seq<Byte> := Bom + "12";
    assert HasBom(b);
    assert NumberLoop(b, 3, 0, 0) == 2;
    assert b[3..5] == "12";
  }

  // ---------------------------------------------------------------------
  // Identifiers and strings

  /** An identifier is the maximal run of letters, digits and `_`. */
  lemma {:induction false} IdentRunAll(b: seq<Byte>, i: nat, k: nat)
    requires i <= |b| && i <= k < IdentRun(b, i)
    ensures IsIdentCode(PeekAt(b, k))
    decreases |b| - i
  {
    if k > i {
      IdentRunAll(b, i + 1, k);
    }
  }

  /** A keyword comes without text and an identifier with exactly the
      bytes of its run; either way the cursor moves past the run on the same line. */
  lemma IdentScanMeta(b: seq<Byte>, c: Cursor)
    requires c.pos <= |b|
    ensures IdentScan(b, c).token.kind == IdentifierKind(b[c.pos..IdentRun(b, c.pos)])
    ensures IdentScan(b, c).token.kind == TOK_IDENTIFIER <==> IdentScan(b, c).token.meta == Some(b[c.pos..IdentRun(b, c.pos)])
    ensures IdentScan(b, c).token.kind != TOK_IDENTIFIER <==> IdentScan(b, c).token.meta.None?
    ensures IdentScan(b, c).cursor == Cursor(IdentRun(b, c.pos), c.line, c.col + (IdentRun(b, c.pos) - c.pos))
  {
    MetaFollowsKind(IdentScan(b, c).token, b[c.pos..IdentRun(b, c.pos)]);
  }

  /** A token whose text is kept exactly when it is an identifier. */
  lemma MetaFollowsKind(t: Token, value: string)
    requires t.meta == if t.kind == TOK_IDENTIFIER then Some(value) else None
    ensures t.kind == TOK_IDENTIFIER <==> t.meta == Some(value)
    ensures t.kind != TOK_IDENTIFIER <==> t.meta.None?
  {
  }

  /** Keywords are found whatever their case and lose their text. */
  lemma KeywordScan()
    ensures NextScan("BEGIN", Cursor(0, 1, 1)) == Some(Scan(Token(TOK_BEGIN, None, 1, 1), Cursor(5, 1, 6)))
  {
    var b: seq<Byte> := "BEGIN";
    assert IdentRun(b, 0) == 5;
    assert b[0..5] == "BEGIN";
    MatchExamples();
  }

  /** The quoted segments of a string end at the first quote after the
      opening one, so a doubled quote continues the string. */
  lemma StringDoubledQuote()
    ensures StringEnd("'it''s';", 0) == Some(7)
  {
  }

  /** Control codes `#n` are string segments too. */
  lemma StringControlCodes()
    ensures StringEnd("#13#10x", 0) == Some(6)
  {
  }

  /** Quoted segments and control codes mix in one string. */
  lemma StringMixedSegments()
    ensures StringEnd("'a'#9'b'", 0) == Some(8)
  {
  }

  /** A quote that is never closed leaves the scanner without a result. */
  lemma UnterminatedString()
    ensures NextScan("x := 'abc", Cursor(5, 1, 6)) == None
  {
    var b: seq<Byte> := "x := 'abc";
    assert QuoteAt(b, 6) == None;
  }

  // ---------------------------------------------------------------------
  // Progress

  /** A one-byte token moves past its byte. */
  lemma OnceProgress(b: seq<Byte>, c: Cursor, kind: TokenType)
    requires c.pos < |b| && Once(b, c, kind).Some?
    ensures c.pos < Once(b, c, kind).value.cursor.pos <= |b|
  {
  }

  /** A two-byte token moves past both bytes. */
  lemma TwiceProgress(b: seq<Byte>, c: Cursor, kind: TokenType)
    requires c.pos + 1 < |b| && Significant(b, c.pos + 1) && Twice(b, c, kind).Some?
    ensures c.pos < Twice(b, c, kind).value.cursor.pos <= |b|
  {
    assert Discarded(b, c) == Some(Advanced(b, c));
  }

  /** The operators starting with `:`, `.`, `>` or `<` move on. */
  lemma PrefixProgress(b: seq<Byte>, c: Cursor, next: int)
    requires c.pos < |b| && IsPrefixByte(next) && PrefixScan(b, c, next).Some?
    ensures c.pos < PrefixScan(b, c, next).value.cursor.pos <= |b|
  {
    var second := PeekAt(b, c.pos + 1);
    if second == '=' as int || second == '.' as int || second == '>' as int {
      assert Significant(b, c.pos + 1);
    }
    if next == ':' as int {
      if second == '=' as int { TwiceProgress(b, c, TOK_ASSIGN); } else { OnceProgress(b, c, TOK_COLON); }
    } else if next == '.' as int {
      if second == '.' as int { TwiceProgress(b, c, TOK_DOTDOT); } else { OnceProgress(b, c, TOK_DOT); }
    } else if next == '>' as int {
      if second == '=' as int { TwiceProgress(b, c, TOK_GREATEQL); } else { OnceProgress(b, c, TOK_GREATER); }
    } else if second == '=' as int {
      TwiceProgress(b, c, TOK_LESSEQL);
    } else if second == '>' as int {
      TwiceProgress(b, c, TOK_NEQUAL);
    } else {
      OnceProgress(b, c, TOK_LESSER);
    }
  }

  /** Every dispatched token but EOF moves on. */
  lemma DispatchProgress(b: seq<Byte>, c: Cursor)
    requires c.pos <= |b| && Dispatch(b, c).Some? && Dispatch(b, c).value.token.kind != TOK_EOF
    ensures c.pos < Dispatch(b, c).value.cursor.pos <= |b|
  {
    var next := PeekAt(b, c.pos);
    if IsPrefixByte(next) {
      PrefixProgress(b, c, next);
    } else if next in OneByteKinds {
      OnceProgress(b, c, OneByteKinds[next]);
    } else if IsDigitCode(next) || IsUpperCode(next) || IsLowerCode(next) || next == '_' as int
      || next == '\'' as int || next == '#' as int
    {
      LexemeProgress(b, c);
    }
  }

  /** Numbers, words and strings take at least their first byte. */
  lemma LexemeProgress(b: seq<Byte>, c: Cursor)
    requires c.pos < |b|
    ensures IsDigitCode(PeekAt(b, c.pos)) ==> NumberLoop(b, c.pos, 0, 0) >= 1
    ensures IsIdentCode(PeekAt(b, c.pos)) ==> IdentRun(b, c.pos) > c.pos
    ensures PeekAt(b, c.pos) in {'\'' as int, '#' as int} && StringEnd(b, c.pos).Some? ==>
      StringEnd(b, c.pos).value > c.pos
  {
    if IsDigitCode(PeekAt(b, c.pos)) {
      assert NumberLoop(b, c.pos, 0, 0) == NumberLoop(b, c.pos, 1, 0);
    }
  }

  /** Every token but EOF consumes at least one byte and stays in the buffer. */
  lemma NextProgress(b: seq<Byte>, c: Cursor)
    requires c.pos <= |b| && NextScan(b, c).Some? && NextScan(b, c).value.token.kind != TOK_EOF
    ensures c.pos < NextScan(b, c).value.cursor.pos <= |b|
  {
    DispatchProgress(b, Cleaned(b, c).value);
  }

  /** A token other than TOK_EOF moves the cursor forward and stays within
      the buffer, wherever the scan started. */
  lemma ScanProgress(b: seq<Byte>, c: Cursor)
    requires NextScan(b, c).Some? && NextScan(b, c).value.token.kind != TOK_EOF
    ensures c.pos < NextScan(b, c).value.cursor.pos <= |b|
  {
    if c.pos > |b| {
      EofAtEnd(b, c);
    }
    NextProgress(b, c);
  }
}
