/** The libpasta parser object and its token primitives (libpasta/parser.c).

    The parser holds the token array and a position. Reading the token at
    the position never checks the length in C; here a read past the end
    yields `PastEnd`. `parser_error` prints and exits; here it is the
    `SyntaxError` failure, carrying the token it reports. */
module PastaParser {
  import opened Wrappers
  import opened PastaToken
  import opened Ast

  /** Why parsing stopped: `parser_error` on a token, or a read past the array. */
  datatype ParseError = SyntaxError(token: Token) | PastEnd

  /** A parsed value and the position after it. */
  datatype Parsed<V> = Parsed(value: V, next: nat)

  /** What a parsing function yields at a position. */
  type Outcome<V> = Result<Parsed<V>, ParseError>

  /** The trees libpasta builds. */
  type PExpr = Expr<Token>

  /** A method's result paired with the position it left. */
  function Pack<V>(r: Result<V, ParseError>, pos: nat): Outcome<V> {
    match r
    case Success(v) => Success(Parsed(v, pos))
    case Failure(e) => Failure(e)
  }

  /** The rest of a bracketed list as the parsers chain it through
      `exp_right`: BINARY nodes on `sep` tokens, closed by a LITERAL of a
      `close` token. */
  predicate ListTail(e: PExpr, sep: TokenType, close: TokenType)
    decreases e
  {
    e.Node? && e.token.Some?
    && if e.kind == LITERAL then e == Literal(e.token.value) && e.token.value.kind == close
       else e.kind == BINARY && e.token.value.kind == sep && ListTail(e.right, sep, close)
  }

  /** A bracketed list as the parsers build it: a BINARY root on the `open`
      token, then the list tail on its right. */
  predicate BracketList(e: PExpr, open: TokenType, sep: TokenType, close: TokenType) {
    e.Node? && e.kind == BINARY && e.token.Some? && e.token.value.kind == open
    && ListTail(e.right, sep, close)
  }

  /** The links a list loop has collected: BINARY nodes, the first on an
      `open` token and the others on `sep` tokens. */
  predicate ListLinks(links: seq<Link<Token>>, open: TokenType, sep: TokenType) {
    |links| > 0
    && forall k :: 0 <= k < |links| ==>
      links[k].kind == BINARY && links[k].token.Some?
      && links[k].token.value.kind == (if k == 0 then open else sep)
  }

  /** Closing collected list links with a `close` literal gives a bracketed list. */
  lemma ListLinksClose(links: seq<Link<Token>>, open: TokenType, sep: TokenType, close: Token)
    requires ListLinks(links, open, sep)
    ensures BracketList(Chain(links, Literal(close)), open, sep, close.kind)
  {
    ChainIsListTail(links[1..], close, sep);
  }

  /** Closing a chain of `sep` links with a `close` literal gives a list tail. */
  lemma {:induction false} ChainIsListTail(links: seq<Link<Token>>, close: Token, sep: TokenType)
    requires forall k :: 0 <= k < |links| ==> links[k].kind == BINARY && links[k].token.Some? && links[k].token.value.kind == sep
    ensures ListTail(Chain(links, Literal(close)), sep, close.kind)
    decreases |links|
  {
    if |links| > 0 {
      ChainIsListTail(links[1..], close, sep);
    }
  }

  /** `parser_peek` at `i`. */
  function PeekAt(ts: seq<Token>, i: nat): Result<Token, ParseError> {
    if i < |ts| then Success(ts[i]) else Failure(PastEnd)
  }

  /** `parser_token` at `i`: the token and the position after it. */
  function TokenAt(ts: seq<Token>, i: nat): (r: Outcome<Token>)
    ensures r.Success? ==> r.value.next == i + 1 <= |ts|
  {
    if i < |ts| then Success(Parsed(ts[i], i + 1)) else Failure(PastEnd)
  }

  /** `parser_peek_far` at `i`: the token `off` places on, or an error on
      the token at `i` when that is past the end. */
  function PeekFarAt(ts: seq<Token>, i: nat, off: nat): Result<Token, ParseError> {
    if i + off < |ts| then Success(ts[i + off])
    else if i < |ts| then Failure(SyntaxError(ts[i]))
    else Failure(PastEnd)
  }

  lemma TokenAtPeeks(ts: seq<Token>, i: nat)
    ensures TokenAt(ts, i).Success? <==> PeekAt(ts, i).Success?
    ensures TokenAt(ts, i).Success? ==> TokenAt(ts, i).value.value == PeekAt(ts, i).value
  {
  }

  /** `parser_peek_far` succeeds exactly within the array, and with offset
      0 it is `parser_peek`. */
  lemma PeekFarWithin(ts: seq<Token>, i: nat, off: nat)
    ensures PeekFarAt(ts, i, off).Success? <==> i + off < |ts|
    ensures PeekFarAt(ts, i, off).Success? ==> PeekFarAt(ts, i, off).value == ts[i + off]
    ensures PeekFarAt(ts, i, 0) == PeekAt(ts, i)
  {
  }

  class Parser {
    var tokens: seq<Token>
    var pos: nat

    /** `parser_new`: no tokens, position 0. */
    constructor ()
      ensures tokens == [] && pos == 0
    {
      tokens := [];
      pos := 0;
    }

    /** `parser_append`: the new tokens after the old ones, in order. */
    method Append(tlist: seq<Token>)
      modifies this`tokens
      ensures tokens == old(tokens) + tlist
    {
      var i := 0;
      while i < |tlist|
        invariant 0 <= i <= |tlist|
        invariant tokens == old(tokens) + tlist[..i]
      {
        tokens := tokens + [tlist[i]];
        i := i + 1;
        assert tlist[..i] == tlist[..i - 1] + [tlist[i - 1]];
      }
      assert tlist[..i] == tlist;
    }

    /** `parser_peek`: the token at the position, which does not move. */
    method Peek() returns (r: Result<Token, ParseError>)
      ensures r == PeekAt(tokens, pos)
    {
      if pos < |tokens| {
        return Success(tokens[pos]);
      }
      return Failure(PastEnd);
    }

    /** `parser_peek_far`. */
    method PeekFar(offset: nat) returns (r: Result<Token, ParseError>)
      ensures r == PeekFarAt(tokens, pos, offset)
    {
      if pos + offset < |tokens| {
        return Success(tokens[pos + offset]);
      }
      if pos < |tokens| {
        return Failure(SyntaxError(tokens[pos]));
      }
      return Failure(PastEnd);
    }

    /** `parser_token`: the token at the position, which moves on by one. */
    method Token() returns (r: Result<Token, ParseError>)
      modifies this`pos
      ensures Pack(r, pos) == TokenAt(tokens, old(pos))
    {
      if pos < |tokens| {
        r := Success(tokens[pos]);
        pos := pos + 1;
        return;
      }
      return Failure(PastEnd);
    }
  }
}
