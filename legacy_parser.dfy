/** The parser of the first compiler (parser.c, parser.h): the token array
    and its position, single-token literals, and the token walk of
    `parser_unsigned_number`.

    As in libpasta, reading past the end of the array is not checked in C;
    here it is the `PastEnd` failure. `parser_error` prints and exits; here
    it is `SyntaxError` on the token it reports. */
module LegacyParser {
  import opened Wrappers
  import opened LegacyToken
  import opened Ast

  /** Why parsing stopped. */
  datatype ParseError = SyntaxError(token: Token) | PastEnd

  /** A parsed value and the position after it. */
  datatype Parsed<V> = Parsed(value: V, next: nat)

  type Outcome<V> = Result<Parsed<V>, ParseError>

  /** The trees this parser builds. */
  type LExpr = Expr<Token>

  /** A method's result paired with the position it left. */
  function Pack<V>(r: Result<V, ParseError>, pos: nat): Outcome<V> {
    match r
    case Success(v) => Success(Parsed(v, pos))
    case Failure(e) => Failure(e)
  }

  /** `parser_peek` at `i`. */
  function PeekAt(ts: seq<Token>, i: nat): Result<Token, ParseError> {
    if i < |ts| then Success(ts[i]) else Failure(PastEnd)
  }

  /** `parser_token` at `i`. */
  function TokenAt(ts: seq<Token>, i: nat): (r: Outcome<Token>)
    ensures r.Success? <==> i < |ts|
    ensures r.Success? ==> r.value == Parsed(ts[i], i + 1)
  {
    if i < |ts| then Success(Parsed(ts[i], i + 1)) else Failure(PastEnd)
  }

  /** `parser_identifier`: takes one token, which must be an identifier. */
  function Identifier(ts: seq<Token>, i: nat): (r: Outcome<LExpr>)
    ensures r.Success? <==> i < |ts| && ts[i].kind == TOK_IDENTIFIER
    ensures r.Success? ==> r.value == Parsed(Literal(ts[i]), i + 1)
    ensures r.Failure? ==> r == Failure(if i < |ts| then SyntaxError(ts[i]) else PastEnd)
  {
    var t :- TokenAt(ts, i);
    if t.value.kind == TOK_IDENTIFIER then Success(Parsed(Literal(t.value), t.next))
    else Failure(SyntaxError(t.value))
  }

  /** `parser_unsigned_integer`: takes one token, which must be a DIGIT;
      its text is not looked at. */
  function UnsignedInteger(ts: seq<Token>, i: nat): (r: Outcome<LExpr>)
    ensures r.Success? <==> i < |ts| && ts[i].kind == TOK_DIGIT
    ensures r.Success? ==> r.value == Parsed(Literal(ts[i]), i + 1)
    ensures r.Failure? ==> r == Failure(if i < |ts| then SyntaxError(ts[i]) else PastEnd)
  {
    var t :- TokenAt(ts, i);
    if t.value.kind == TOK_DIGIT then Success(Parsed(Literal(t.value), t.next))
    else Failure(SyntaxError(t.value))
  }

  /** `parser_consume`: takes one token, which must be of `kind`; the
      result is the position after it. */
  function Consume(ts: seq<Token>, i: nat, kind: TokenType): (r: Result<nat, ParseError>)
    ensures r.Success? <==> i < |ts| && ts[i].kind == kind
    ensures r.Success? ==> r.value == i + 1
    ensures r.Failure? ==> r == Failure(if i < |ts| then SyntaxError(ts[i]) else PastEnd)
  {
    var t :- TokenAt(ts, i);
    if t.value.kind != kind then Failure(SyntaxError(t.value)) else Success(t.next)
  }

  /** The `. digits` part of a number. */
  datatype Fraction = Fraction(dot: Token, digits: Token)

  /** The `e [sign] digits` part of a number. */
  datatype Exponent = Exponent(marker: Token, sign: Option<Token>, digits: Token)

  /** The tokens `parser_unsigned_number` reads. The C function prints them
      and returns no value. */
  datatype UnsignedNum = UnsignedNum(integer: Token, fraction: Option<Fraction>, exponent: Option<Exponent>)

  /** The test that starts an exponent: an identifier whose text is the one
      character `e` or `E`. */
  predicate ExponentMarker(t: Token) {
    t.kind == TOK_IDENTIFIER && t.meta.Some? && |t.meta.value| == 1
    && (t.meta.value[0] == 'e' || t.meta.value[0] == 'E')
  }

  /** `parser_unsigned_number`: DIGIT, then `. DIGIT` when a DOT follows,
      then `e [+|-] DIGIT` when an exponent marker follows. */
  function UnsignedNumber(ts: seq<Token>, i: nat): (r: Outcome<UnsignedNum>)
    ensures r.Success? ==> i < r.value.next <= |ts|
  {
    var integer :- UnsignedInteger(ts, i);
    var dot :- PeekAt(ts, integer.next);
    var fraction :- if dot.kind == TOK_DOT then FractionPart(ts, integer.next) else Success(Parsed(None, integer.next));
    var e :- PeekAt(ts, fraction.next);
    var exponent :- if ExponentMarker(e) then ExponentPart(ts, fraction.next) else Success(Parsed(None, fraction.next));
    Success(Parsed(UnsignedNum(ts[i], fraction.value, exponent.value), exponent.next))
  }

  /** `. DIGIT` at `i`. */
  function FractionPart(ts: seq<Token>, i: nat): (r: Outcome<Option<Fraction>>)
    ensures r.Success? ==> i + 2 == r.value.next <= |ts| && r.value.value == Some(Fraction(ts[i], ts[i + 1]))
  {
    var j :- Consume(ts, i, TOK_DOT);
    var digits :- UnsignedInteger(ts, j);
    Success(Parsed(Some(Fraction(ts[i], ts[j])), digits.next))
  }

  /** The exponent marker at `i`, an optional sign, then DIGIT. */
  function ExponentPart(ts: seq<Token>, i: nat): (r: Outcome<Option<Exponent>>)
    ensures r.Success? ==> i + 2 <= r.value.next <= |ts| && r.value.value.Some?
  {
    var j :- Consume(ts, i, TOK_IDENTIFIER);
    var sign :- PeekAt(ts, j);
    var k :- if sign.kind == TOK_PLUS then Consume(ts, j, TOK_PLUS)
             else if sign.kind == TOK_MINUS then Consume(ts, j, TOK_MINUS)
             else Success(j);
    var digits :- UnsignedInteger(ts, k);
    Success(Parsed(Some(Exponent(ts[i], if k == j then None else Some(ts[j]), ts[k])), digits.next))
  }

  class Parser {
    var tokens: seq<Token>
    var pos: nat

    /** `parser_new`. */
    constructor ()
      ensures tokens == [] && pos == 0
    {
      tokens := [];
      pos := 0;
    }

    /** `parser_append`: the new tokens after the old ones, in order. */
    method Append(tlist: seq<Token>)
      modifies this`tokens
      ensures tokens == old(tokens) + tlist
    {
      var i := 0;
      while i < |tlist|
        invariant 0 <= i <= |tlist|
        invariant tokens == old(tokens) + tlist[..i]
      {
        tokens := tokens + [tlist[i]];
        i := i + 1;
        assert tlist[..i] == tlist[..i - 1] + [tlist[i - 1]];
      }
      assert tlist[..i] == tlist;
    }

    /** `parser_peek`. */
    method Peek() returns (r: Result<Token, ParseError>)
      ensures r == PeekAt(tokens, pos)
    {
      if pos < |tokens| {
        return Success(tokens[pos]);
      }
      return Failure(PastEnd);
    }

    /** `parser_token`. */
    method Token() returns (r: Result<Token, ParseError>)
      modifies this`pos
      ensures Pack(r, pos) == TokenAt(tokens, old(pos))
    {
      if pos < |tokens| {
        r := Success(tokens[pos]);
        pos := pos + 1;
        return;
      }
      return Failure(PastEnd);
    }
  }

  method ParseIdentifier(p: Parser) returns (r: Result<LExpr, ParseError>)
    modifies p`pos
    ensures Pack(r, p.pos) == Identifier(p.tokens, old(p.pos))
  {
    var token :- p.Token();
    if token.kind == TOK_IDENTIFIER {
      return Success(Literal(token));
    }
    return Failure(SyntaxError(token));
  }

  method ParseUnsignedInteger(p: Parser) returns (r: Result<LExpr, ParseError>)
    modifies p`pos
    ensures Pack(r, p.pos) == UnsignedInteger(p.tokens, old(p.pos))
  {
    var token :- p.Token();
    if token.kind == TOK_DIGIT {
      return Success(Literal(token));
    }
    return Failure(SyntaxError(token));
  }

  method ParseConsume(p: Parser, kind: TokenType) returns (r: Result<(), ParseError>)
    modifies p`pos
    ensures r.Success? <==> Consume(p.tokens, old(p.pos), kind).Success?
    ensures r.Success? ==> p.pos == Consume(p.tokens, old(p.pos), kind).value
    ensures r.Failure? ==> r.error == Consume(p.tokens, old(p.pos), kind).error
  {
    var token :- p.Token();
    if token.kind != kind {
      return Failure(SyntaxError(token));
    }
    return Success(());
  }

  method ParseUnsignedNumber(p: Parser) returns (r: Result<UnsignedNum, ParseError>)
    modifies p`pos
    ensures Pack(r, p.pos) == UnsignedNumber(p.tokens, old(p.pos))
  {
    var integer :- ParseUnsignedInteger(p);
    var dot :- p.Peek();
    var fraction: Option<Fraction> := None;
    if dot.kind == TOK_DOT {
      fraction :- ParseFractionPart(p);
    }
    var e :- p.Peek();
    var exponent: Option<Exponent> := None;
    if ExponentMarker(e) {
      exponent :- ParseExponentPart(p);
    }
    return Success(UnsignedNum(integer.token.value, fraction, exponent));
  }

  method ParseFractionPart(p: Parser) returns (r: Result<Option<Fraction>, ParseError>)
    modifies p`pos
    ensures Pack(r, p.pos) == FractionPart(p.tokens, old(p.pos))
  {
    var dot :- p.Token();
    if dot.kind != TOK_DOT {
      return Failure(SyntaxError(dot));
    }
    var digits :- ParseUnsignedInteger(p);
    return Success(Some(Fraction(dot, digits.token.value)));
  }

  method ParseExponentPart(p: Parser) returns (r: Result<Option<Exponent>, ParseError>)
    modifies p`pos
    ensures Pack(r, p.pos) == ExponentPart(p.tokens, old(p.pos))
  {
    var marker :- p.Token();
    if marker.kind != TOK_IDENTIFIER {
      return Failure(SyntaxError(marker));
    }
    var s :- p.Peek();
    var sign: Option<Token> := None;
    if s.kind == TOK_PLUS || s.kind == TOK_MINUS {
      var _ := p.Token();
      sign := Some(s);
    }
    var digits :- ParseUnsignedInteger(p);
    return Success(Some(Exponent(marker, sign, digits.token.value)));
  }

  // ListTail, BracketList, ListLinks, ListLinksClose and ChainIsListTail
  // are the definitions of the same names in PastaParser, stated again over
  // this parser's own token type.

  /** The rest of a bracketed list: BINARY nodes on `sep` tokens through
      `exp_right`, closed by a LITERAL of a `close` token. */
  predicate ListTail(e: LExpr, sep: TokenType, close: TokenType)
    decreases e
  {
    e.Node? && e.token.Some?
    && if e.kind == LITERAL then e == Literal(e.token.value) && e.token.value.kind == close
       else e.kind == BINARY && e.token.value.kind == sep && ListTail(e.right, sep, close)
  }

  /** A bracketed list: a BINARY root on an `open` token, then a list tail. */
  predicate BracketList(e: LExpr, open: TokenType, sep: TokenType, close: TokenType) {
    e.Node? && e.kind == BINARY && e.token.Some? && e.token.value.kind == open
    && ListTail(e.right, sep, close)
  }

  /** The links a list loop has collected: BINARY nodes, the first on an
      `open` token and the others on `sep` tokens. */
  predicate ListLinks(links: seq<Link<Token>>, open: TokenType, sep: TokenType) {
    |links| > 0
    && forall k :: 0 <= k < |links| ==>
      links[k].kind == BINARY && links[k].token.Some?
      && links[k].token.value.kind == (if k == 0 then open else sep)
  }

  /** Closing collected list links with a `close` literal gives a bracketed list. */
  lemma ListLinksClose(links: seq<Link<Token>>, open: TokenType, sep: TokenType, close: Token)
    requires ListLinks(links, open, sep)
    ensures BracketList(Chain(links, Literal(close)), open, sep, close.kind)
  {
    ChainIsListTail(links[1..], close, sep);
  }

  /** Closing links on `sep` tokens with a `close` literal gives a list tail. */
  lemma {:induction false} ChainIsListTail(links: seq<Link<Token>>, close: Token, sep: TokenType)
    requires forall k :: 0 <= k < |links| ==> links[k].kind == BINARY && links[k].token.Some? && links[k].token.value.kind == sep
    ensures ListTail(Chain(links, Literal(close)), sep, close.kind)
    decreases |links|
  {
    if |links| > 0 {
      ChainIsListTail(links[1..], close, sep);
    }
  }
}
