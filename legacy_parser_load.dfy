/** Loading the scanner's tokens into the parser of the first compiler
    (`parser_load_tokens`, parser.c). */
module LegacyParserLoad {
  import opened Wrappers
  import opened Bytes
  import opened LegacyToken
  import opened LegacyParser
  import LegacyScanner
  import LegacyScannerFacts

  /** TOKEN_LOAD_BUFSIZ, the staging buffer of `parser_load_tokens`. */
  const LoadBufsiz: nat := 64

  /** The tokens `scanner_next` yields with the front of the buffer at `k`,
      up to and including the first TOK_EOF; `None` when a comment or a
      string is never closed. */
  function ScanAll(input: seq<Byte>, k: nat, mi: string -> TokenType): (r: Option<seq<Token>>)
    decreases |input| - k
  {
    match LegacyScanner.NextScan(input, k, mi)
    case None => None
    case Some(sc) =>
      if sc.token.kind == TOK_EOF then Some([sc.token])
      else
        LegacyScannerFacts.ScanProgress(input, k, mi);
        match ScanAll(input, sc.pos, mi)
        case None => None
        case Some(rest) => Some([sc.token] + rest)
  }

  /** One step of ScanAll: its first token is the one `scanner_next` yields
      at `k`, and after a token other than TOK_EOF the rest are those from
      where the scanner left the buffer. */
  lemma ScanAllStep(input: seq<Byte>, k: nat, mi: string -> TokenType)
    requires ScanAll(input, k, mi).Some?
    ensures LegacyScanner.NextScan(input, k, mi).Some?
    ensures var sc := LegacyScanner.NextScan(input, k, mi).value;
      if sc.token.kind == TOK_EOF then ScanAll(input, k, mi).value == [sc.token]
      else ScanAll(input, sc.pos, mi).Some? && ScanAll(input, k, mi).value == [sc.token] + ScanAll(input, sc.pos, mi).value
  {
  }

  /** The tokens loaded end with the first TOK_EOF, and only there. */
  lemma {:induction false} ScanAllEndsAtEof(input: seq<Byte>, k: nat, mi: string -> TokenType)
    requires ScanAll(input, k, mi).Some?
    ensures var ts := ScanAll(input, k, mi).value; |ts| > 0 && ts[|ts| - 1].kind == TOK_EOF
    ensures var ts := ScanAll(input, k, mi).value; forall j :: 0 <= j < |ts| - 1 ==> ts[j].kind != TOK_EOF
    decreases |input| - k
  {
    ScanAllStep(input, k, mi);
    var sc := LegacyScanner.NextScan(input, k, mi).value;
    if sc.token.kind != TOK_EOF {
      LegacyScannerFacts.ScanProgress(input, k, mi);
      ScanAllEndsAtEof(input, sc.pos, mi);
    }
  }

  /** At the end of the input only TOK_EOF is left to load. */
  lemma ScanAllAtEnd(input: seq<Byte>, k: nat, mi: string -> TokenType)
    requires k >= |input|
    ensures ScanAll(input, k, mi) == Some([Token(TOK_EOF, None)])
  {
    LegacyScannerFacts.EofAtEnd(input, k, mi);
  }

  /** One `scanner_next` of `parser_load_tokens`: the token it yields
      heads the tokens still to load, `rest`, and the scanner is left where
      the others start. */
  method LoadOne(s: LegacyScanner.Scanner, ghost rest: seq<Token>) returns (last: Token, ghost rest': seq<Token>)
    requires s.Valid() && ScanAll(s.input, s.Base(), s.matchIdentifier) == Some(rest)
    modifies s, s.buf, s.buf.buf
    ensures s.buf.buf == old(s.buf.buf) || fresh(s.buf.buf)
    ensures s.Valid() && rest == [last] + rest'
    ensures last.kind != TOK_EOF ==> ScanAll(s.input, s.Base(), s.matchIdentifier) == Some(rest')
    ensures last.kind == TOK_EOF ==> rest' == []
  {
    ScanAllStep(s.input, s.Base(), s.matchIdentifier);
    last := s.Next();
    rest' := if last.kind == TOK_EOF then [] else ScanAll(s.input, s.Base(), s.matchIdentifier).value;
  }

  /** Store one token in the staging buffer, flushing it to the parser
      when it fills. */
  method Stage(p: Parser, staged: seq<Token>, last: Token) returns (staged': seq<Token>)
    requires |staged| < LoadBufsiz
    modifies p`tokens
    ensures |staged'| < LoadBufsiz && p.tokens + staged' == old(p.tokens) + staged + [last]
  {
    staged' := staged + [last];
    if |staged'| == LoadBufsiz {
      p.Append(staged');
      staged' := [];
    }
  }

  /** Moving one token from the loaded side to the side still to load. */
  lemma Regroup(front: seq<Token>, last: Token, rest: seq<Token>)
    ensures front + [last] + rest == front + ([last] + rest)
  {
  }

  /** One turn of the loop of `parser_load_tokens`: the next of the tokens
      still to load, `rest`, is read and staged; `more` is false once it
      was TOK_EOF. */
  method LoadStep(p: Parser, s: LegacyScanner.Scanner, staged: seq<Token>, ghost rest: seq<Token>)
    returns (staged': seq<Token>, more: bool, ghost rest': seq<Token>)
    requires |staged| < LoadBufsiz
    requires s.Valid() && ScanAll(s.input, s.Base(), s.matchIdentifier) == Some(rest)
    modifies p`tokens, s, s.buf, s.buf.buf
    ensures s.buf.buf == old(s.buf.buf) || fresh(s.buf.buf)
    ensures s.Valid() && |rest'| < |rest|
    ensures more ==> ScanAll(s.input, s.Base(), s.matchIdentifier) == Some(rest')
    ensures !more ==> rest' == []
    ensures |staged'| < LoadBufsiz && p.tokens + staged' + rest' == old(p.tokens) + staged + rest
  {
    var last;
    last, rest' := LoadOne(s, rest);
    ghost var base := s.Base();
    staged' := Stage(p, staged, last);
    more := last.kind != TOK_EOF;
    assert s.Base() == base;
    Regroup(old(p.tokens) + staged, last, rest');
  }

  /** `parser_load_tokens`: every token of the scanner up to and including
      the first TOK_EOF, appended through the 64-slot staging buffer. */
  method LoadTokens(p: Parser, s: LegacyScanner.Scanner)
    requires s.Valid() && ScanAll(s.input, s.Base(), s.matchIdentifier).Some?
    modifies p`tokens, s, s.buf, s.buf.buf
    ensures s.Valid()
    ensures p.tokens == old(p.tokens) + ScanAll(s.input, old(s.Base()), s.matchIdentifier).value
  {
    ghost var input, mi := s.input, s.matchIdentifier;
    ghost var rest := ScanAll(input, s.Base(), mi).value;
    ghost var all := p.tokens + rest;
    var staged: seq<Token> := [];
    var more := true;
    while more
      invariant s.Valid() && (s.buf.buf == old(s.buf.buf) || fresh(s.buf.buf))
      invariant more ==> ScanAll(input, s.Base(), mi) == Some(rest)
      invariant !more ==> rest == []
      invariant |staged| < LoadBufsiz && p.tokens + staged + rest == all
      decreases |rest|, more
    {
      staged, more, rest := LoadStep(p, s, staged, rest);
    }
    assert p.tokens + staged == all;
    p.Append(staged);
  }
}
