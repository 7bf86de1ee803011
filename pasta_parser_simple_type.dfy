/** Simple types (libpasta/parser-simple-type.c): an enumeration of
    identifiers, a subrange `c1 .. c2`, an indexed constant `c [ e ]`, or a
    constant alone. */
module PastaParserSimpleType {
  import opened Wrappers
  import opened PastaToken
  import opened Ast
  import opened PastaParser
  import opened PastaParserCommon
  import opened PastaParserSimple
  import opened PastaParserConstant
  import opened PastaParserExpression

  /** `parser_simple_type`: a `(` starts an enumeration, anything else a
      constant and what may follow it. */
  function SimpleType(ts: seq<Token>, i: nat): (r: Outcome<PExpr>)
    ensures r.Success? ==> i < r.value.next <= |ts|
  {
    var first :- PeekAt(ts, i);
    if first.kind == TOK_LPAREN then Enumeration(ts, i)
    else
      var c :- Constant(ts, i);
      ConstantTail(ts, c.next, c.value)
  }

  /** `( id (, id)* )`: the `(` roots the first node, each later identifier
      hangs off its comma. */
  function Enumeration(ts: seq<Token>, i: nat): (r: Outcome<PExpr>)
    ensures r.Success? ==> i < r.value.next <= |ts|
  {
    var lparen :- TokenExpect(ts, i, TOK_LPAREN);
    var id :- Identifier(ts, lparen.next);
    EnumLoop(ts, id.next, [Link(BINARY, Some(lparen.value), id.value)])
  }

  /** The loop of the enumeration once the nodes `links` are built: `)`
      closes, `,` takes another identifier. */
  function EnumLoop(ts: seq<Token>, i: nat, links: seq<Link<Token>>): (r: Outcome<PExpr>)
    ensures r.Success? ==> i < r.value.next <= |ts|
    decreases |ts| - i
  {
    var t :- TokenAt(ts, i);
    if t.value.kind == TOK_RPAREN then Success(Parsed(Chain(links, Literal(t.value)), t.next))
    else if t.value.kind == TOK_COMMA then
      var id :- Identifier(ts, t.next);
      EnumLoop(ts, id.next, links + [Link(BINARY, Some(t.value), id.value)])
    else Failure(SyntaxError(t.value))
  }

  /** What follows the constant `c`, at `i`: `..` and a second constant,
      `[` an expression `]`, or nothing more. */
  function ConstantTail(ts: seq<Token>, i: nat, c: PExpr): (r: Outcome<PExpr>)
    requires i <= |ts|
    ensures r.Success? ==> i <= r.value.next <= |ts|
  {
    var next :- PeekAt(ts, i);
    if next.kind == TOK_DOTDOT then Subrange(ts, i, c)
    else if next.kind == TOK_LBRACKET then IndexedConstant(ts, i, c)
    else Success(Parsed(Grouping(c), i))
  }

  /** `c .. hi` once the `..` is seen at `i`. */
  function Subrange(ts: seq<Token>, i: nat, c: PExpr): (r: Outcome<PExpr>)
    requires i < |ts|
    ensures r.Success? ==> i < r.value.next <= |ts|
  {
    var hi :- Constant(ts, i + 1);
    Success(Parsed(Binary(ts[i], c, hi.value), hi.next))
  }

  /** `c [ e ]` once the `[` is seen at `i`. */
  function IndexedConstant(ts: seq<Token>, i: nat, c: PExpr): (r: Outcome<PExpr>)
    requires i < |ts|
    ensures r.Success? ==> i < r.value.next <= |ts|
  {
    var e :- Expression(ts, i + 1);
    var close :- TokenExpect(ts, e.next, TOK_RBRACKET);
    Success(Parsed(Binary(ts[i], c, e.value), close.next))
  }

  method ParseSimpleType(p: Parser) returns (r: Result<PExpr, ParseError>)
    modifies p`pos
    ensures Pack(r, p.pos) == SimpleType(p.tokens, old(p.pos))
  {
    var first :- p.Peek();
    if first.kind == TOK_LPAREN {
      r := ParseEnumeration(p);
      return;
    }
    var c :- ParseConstant(p);
    r := ParseConstantTail(p, c);
  }

  method ParseEnumeration(p: Parser) returns (r: Result<PExpr, ParseError>)
    modifies p`pos
    ensures Pack(r, p.pos) == Enumeration(p.tokens, old(p.pos))
  {
    ghost var pos0 := p.pos;
    var lparen :- ParseTokenExpect(p, TOK_LPAREN);
    var id :- ParseIdentifier(p);
    var links := [Link(BINARY, Some(lparen), id)];
    ghost var goal := EnumLoop(p.tokens, p.pos, links);
    while true
      invariant pos0 < p.pos <= |p.tokens| && EnumLoop(p.tokens, p.pos, links) == goal
      decreases |p.tokens| - p.pos
    {
      var t :- p.Token();
      if t.kind == TOK_RPAREN {
        return Success(Chain(links, Literal(t)));
      }
      if t.kind != TOK_COMMA {
        return Failure(SyntaxError(t));
      }
      var id :- ParseIdentifier(p);
      links := links + [Link(BINARY, Some(t), id)];
    }
  }

  method ParseConstantTail(p: Parser, c: PExpr) returns (r: Result<PExpr, ParseError>)
    requires p.pos <= |p.tokens|
    modifies p`pos
    ensures Pack(r, p.pos) == ConstantTail(p.tokens, old(p.pos), c)
  {
    var next :- p.Peek();
    if next.kind == TOK_DOTDOT {
      r := ParseSubrange(p, c);
    } else if next.kind == TOK_LBRACKET {
      r := ParseIndexedConstant(p, c);
    } else {
      r := Success(Grouping(c));
    }
  }

  method ParseSubrange(p: Parser, c: PExpr) returns (r: Result<PExpr, ParseError>)
    requires p.pos < |p.tokens|
    modifies p`pos
    ensures Pack(r, p.pos) == Subrange(p.tokens, old(p.pos), c)
  {
    var dotdot := p.Token();
    var hi :- ParseConstant(p);
    return Success(Binary(dotdot.value, c, hi));
  }

  method ParseIndexedConstant(p: Parser, c: PExpr) returns (r: Result<PExpr, ParseError>)
    requires p.pos < |p.tokens|
    modifies p`pos
    ensures Pack(r, p.pos) == IndexedConstant(p.tokens, old(p.pos), c)
  {
    var lbracket := p.Token();
    var e :- ParseExpression(p);
    var _ :- ParseTokenExpect(p, TOK_RBRACKET);
    return Success(Binary(lbracket.value, c, e));
  }

  /** The `exp_right` spine of `e`, down to its closing literal, holds
      LITERAL identifiers on the left of every node. */
  predicate IdentifierLefts(e: PExpr)
    decreases e
  {
    e.Node? && (e.kind == LITERAL
                || (e.left.Node? && e.left.kind == LITERAL && e.left.token.Some?
                    && e.left.token.value.kind == TOK_IDENTIFIER && e.left == Literal(e.left.token.value)
                    && IdentifierLefts(e.right)))
  }

  /** Every link holds a LITERAL identifier. */
  predicate IdentifierLinks(links: seq<Link<Token>>) {
    forall k :: 0 <= k < |links| ==>
      links[k].left.Node? && links[k].left.kind == LITERAL && links[k].left.token.Some?
      && links[k].left.token.value.kind == TOK_IDENTIFIER && links[k].left == Literal(links[k].left.token.value)
  }

  lemma {:induction false} ChainIdentifierLefts(links: seq<Link<Token>>, close: Token)
    requires IdentifierLinks(links)
    ensures IdentifierLefts(Chain(links, Literal(close)))
    decreases |links|
  {
    if |links| > 0 {
      ChainIdentifierLefts(links[1..], close);
    }
  }

  lemma {:induction false} EnumLoopShape(ts: seq<Token>, i: nat, links: seq<Link<Token>>)
    requires ListLinks(links, TOK_LPAREN, TOK_COMMA) && IdentifierLinks(links) && EnumLoop(ts, i, links).Success?
    ensures BracketList(EnumLoop(ts, i, links).value.value, TOK_LPAREN, TOK_COMMA, TOK_RPAREN)
    ensures IdentifierLefts(EnumLoop(ts, i, links).value.value)
    decreases |ts| - i
  {
    if ts[i].kind == TOK_RPAREN {
      ListLinksClose(links, TOK_LPAREN, TOK_COMMA, ts[i]);
      ChainIdentifierLefts(links, ts[i]);
    } else {
      EnumLoopStep(ts, i, links);
      EnumLoopShape(ts, i + 2, links + [Link(BINARY, Some(ts[i]), Literal(ts[i + 1]))]);
    }
  }

  /** A comma and an identifier extend the links and keep their shape. */
  lemma EnumLoopStep(ts: seq<Token>, i: nat, links: seq<Link<Token>>)
    requires ListLinks(links, TOK_LPAREN, TOK_COMMA) && IdentifierLinks(links)
    requires i + 1 < |ts| && ts[i].kind == TOK_COMMA && ts[i + 1].kind == TOK_IDENTIFIER
    ensures var links' := links + [Link(BINARY, Some(ts[i]), Literal(ts[i + 1]))];
      EnumLoop(ts, i, links) == EnumLoop(ts, i + 2, links')
      && ListLinks(links', TOK_LPAREN, TOK_COMMA) && IdentifierLinks(links')
  {
  }

  /** An enumeration is a BINARY chain rooted at `(`, continuing with
      COMMA nodes, each holding a LITERAL identifier on its left, and
      closed by a LITERAL of `)`. */
  lemma EnumerationShape(ts: seq<Token>, i: nat)
    requires Enumeration(ts, i).Success?
    ensures BracketList(Enumeration(ts, i).value.value, TOK_LPAREN, TOK_COMMA, TOK_RPAREN)
    ensures IdentifierLefts(Enumeration(ts, i).value.value)
  {
    var first := Link(BINARY, Some(ts[i]), Literal(ts[i + 1]));
    assert ListLinks([first], TOK_LPAREN, TOK_COMMA);
    assert IdentifierLinks([first]);
    EnumLoopShape(ts, i + 2, [first]);
  }

  /** After an identifier of the enumeration, a token other than `,` or `)`
      is an error on it. */
  lemma EnumBadSeparator(ts: seq<Token>, i: nat, links: seq<Link<Token>>)
    requires i < |ts| && ts[i].kind != TOK_COMMA && ts[i].kind != TOK_RPAREN
    ensures EnumLoop(ts, i, links) == Failure(SyntaxError(ts[i]))
  {
  }

  /** A simple type not starting with `(` starts with a constant. */
  lemma SimpleTypeStart(ts: seq<Token>, i: nat, c: Parsed<PExpr>)
    requires Constant(ts, i) == Success(c)
    ensures SimpleType(ts, i) == ConstantTail(ts, c.next, c.value)
  {
  }

  /** `c1 .. c2` is BINARY(DOTDOT, c1, c2). */
  lemma SubrangeExact(ts: seq<Token>, i: nat, c: PExpr, hi: Parsed<PExpr>)
    requires i < |ts| && ts[i].kind == TOK_DOTDOT && Constant(ts, i + 1) == Success(hi)
    ensures ConstantTail(ts, i, c) == Success(Parsed(Binary(ts[i], c, hi.value), hi.next))
  {
    assert ConstantTail(ts, i, c) == Subrange(ts, i, c);
  }

  /** `c [ e ]` is BINARY(LBRACKET, c, e), and the `]` is required. */
  lemma IndexedConstantExact(ts: seq<Token>, i: nat, c: PExpr, e: Parsed<PExpr>)
    requires i < |ts| && ts[i].kind == TOK_LBRACKET && Expression(ts, i + 1) == Success(e)
    ensures e.next < |ts| && ts[e.next].kind == TOK_RBRACKET ==>
      ConstantTail(ts, i, c) == Success(Parsed(Binary(ts[i], c, e.value), e.next + 1))
    ensures e.next < |ts| && ts[e.next].kind != TOK_RBRACKET ==>
      ConstantTail(ts, i, c) == Failure(SyntaxError(ts[e.next]))
  {
    assert ConstantTail(ts, i, c) == IndexedConstant(ts, i, c);
  }

  /** A constant followed by anything else is GROUPING(c), and nothing
      after the constant is consumed. */
  lemma LoneConstant(ts: seq<Token>, i: nat, c: PExpr)
    requires i < |ts| && ts[i].kind != TOK_DOTDOT && ts[i].kind != TOK_LBRACKET
    ensures ConstantTail(ts, i, c) == Success(Parsed(Grouping(c), i))
  {
  }
}
