/** Loading the scanner's tokens into the parser (`parser_load_tokens`,
    libpasta/parser.c). */
module PastaParserLoad {
  import opened Wrappers
  import opened Bytes
  import opened PastaToken
  import opened PastaParser
  import PastaScanner
  import PastaScannerFacts

  /** TOKEN_LOAD_BUFSIZ, the staging buffer of `parser_load_tokens`. */
  const LoadBufsiz: nat := 64

  /** The tokens `scanner_next` yields from cursor `c` up to and including
      the first TOK_EOF; `None` when a comment or string is never closed. */
  function ScanAll(b: seq<Byte>, c: PastaScanner.Cursor): (r: Option<seq<Token>>)
    decreases |b| - c.pos
  {
    match PastaScanner.NextScan(b, c)
    case None => None
    case Some(sc) =>
      if sc.token.kind == TOK_EOF then Some([sc.token])
      else
        PastaScannerFacts.ScanProgress(b, c);
        match ScanAll(b, sc.cursor)
        case None => None
        case Some(rest) => Some([sc.token] + rest)
  }

  /** One step of ScanAll: its first token is the one `scanner_next` yields
      at `c`, and after a token other than TOK_EOF the rest are those from
      the scanner's new cursor. */
  lemma ScanAllStep(b: seq<Byte>, c: PastaScanner.Cursor)
    requires ScanAll(b, c).Some?
    ensures PastaScanner.NextScan(b, c).Some?
    ensures var sc := PastaScanner.NextScan(b, c).value;
      if sc.token.kind == TOK_EOF then ScanAll(b, c).value == [sc.token]
      else ScanAll(b, sc.cursor).Some? && ScanAll(b, c).value == [sc.token] + ScanAll(b, sc.cursor).value
  {
  }

  /** The tokens loaded end with the first TOK_EOF, and only there. */
  lemma {:induction false} ScanAllEndsAtEof(b: seq<Byte>, c: PastaScanner.Cursor)
    requires ScanAll(b, c).Some?
    ensures var ts := ScanAll(b, c).value; |ts| > 0 && ts[|ts| - 1].kind == TOK_EOF
    ensures var ts := ScanAll(b, c).value; forall k :: 0 <= k < |ts| - 1 ==> ts[k].kind != TOK_EOF
    decreases |b| - c.pos
  {
    ScanAllStep(b, c);
    var sc := PastaScanner.NextScan(b, c).value;
    if sc.token.kind != TOK_EOF {
      PastaScannerFacts.ScanProgress(b, c);
      ScanAllEndsAtEof(b, sc.cursor);
    }
  }

  /** The tokens still to load from cursor `c` are `rest`. */
  predicate Pending(b: seq<Byte>, c: PastaScanner.Cursor, rest: seq<Token>) {
    ScanAll(b, c) == Some(rest)
  }

  /** One `scanner_next` of `parser_load_tokens`: the token it yields
      heads the tokens still to load. */
  method LoadOne(s: PastaScanner.Scanner, ghost b: seq<Byte>, ghost c: PastaScanner.Cursor, ghost rest: seq<Token>)
    returns (last: Token, ghost c': PastaScanner.Cursor, ghost rest': seq<Token>)
    requires b == s.buffer && c == s.At() && Pending(b, c, rest)
    modifies s
    ensures c' == s.At() && rest == [last] + rest'
    ensures last.kind != TOK_EOF ==> Pending(b, c', rest')
    ensures last.kind == TOK_EOF ==> rest' == []
  {
    ScanAllStep(b, c);
    last := s.Next();
    c' := s.At();
    rest' := if last.kind == TOK_EOF then [] else ScanAll(b, c').value;
  }

  /** Store one token in the staging buffer, flushing it to the parser
      when it fills. */
  method Stage(p: Parser, staged: seq<Token>, last: Token) returns (staged': seq<Token>)
    requires |staged| < LoadBufsiz
    modifies p`tokens
    ensures |staged'| < LoadBufsiz && p.tokens + staged' == old(p.tokens) + staged + [last]
  {
    staged' := staged + [last];
    if |staged'| == LoadBufsiz {
      p.Append(staged');
      staged' := [];
    }
  }

  /** `parser_load_tokens`: every token of the scanner up to and including
      the first TOK_EOF, appended through the 64-slot staging buffer. */
  method LoadTokens(p: Parser, s: PastaScanner.Scanner)
    requires ScanAll(s.buffer, s.At()).Some?
    modifies p`tokens, s
    ensures p.tokens == old(p.tokens) + ScanAll(s.buffer, old(s.At())).value
  {
    ghost var b := s.buffer;
    ghost var cur := s.At();
    ghost var goal := ScanAll(b, cur).value;
    ghost var done: seq<Token> := [];
    ghost var rest := goal;
    ghost var before := p.tokens;
    var staged: seq<Token> := [];
    var more := true;
    while more
      invariant s.At() == cur && |staged| < LoadBufsiz && p.tokens + staged == before + done
      invariant more ==> Pending(b, cur, rest)
      invariant done + rest == goal && (!more ==> rest == [])
      decreases |rest|, more
    {
      var last;
      last, cur, rest := LoadOne(s, b, cur, rest);
      staged := Stage(p, staged, last);
      done := done + [last];
      more := last.kind != TOK_EOF;
    }
    p.Append(staged);
  }
}
