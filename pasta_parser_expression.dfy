/** Expressions (libpasta/parser-expression.c): relations over simple
    expressions over terms over factors, by recursive descent, plus the
    argument lists and set displays inside a factor. */
module PastaParserExpression {
  import opened Wrappers
  import opened PastaToken
  import opened Ast
  import opened PastaParser
  import opened PastaParserCommon
  import opened PastaParserConstant
  import opened PastaParserVariable

  predicate RelationalKind(k: TokenType) {
    k == TOK_GREATER || k == TOK_GREATEQL || k == TOK_LESSER || k == TOK_LESSEQL
    || k == TOK_EQUAL || k == TOK_NEQUAL || k == TOK_IN
  }

  predicate AddingKind(k: TokenType) {
    k == TOK_PLUS || k == TOK_MINUS || k == TOK_OR
  }

  predicate MultiplyingKind(k: TokenType) {
    k == TOK_ASTERISK || k == TOK_SLASH || k == TOK_DIV || k == TOK_MOD || k == TOK_AND
  }

  /** The kinds after an identifier that make a factor a variable. */
  predicate SelectorKind(k: TokenType) {
    k == TOK_LBRACKET || k == TOK_DOT || k == TOK_CARET
  }

  /** `parser_expression`: one optional relation, so relations do not chain. */
  function Expression(ts: seq<Token>, i: nat): (r: Outcome<PExpr>)
    ensures r.Success? ==> i < r.value.next <= |ts|
    decreases |ts| - i, 5
  {
    var s :- SimpleExpression(ts, i);
    RelationTail(ts, s.next, s.value)
  }

  /** The rest of `parser_expression` once the simple expression `s` is
      parsed and the position is `i`. */
  function RelationTail(ts: seq<Token>, i: nat, s: PExpr): (r: Outcome<PExpr>)
    requires i <= |ts|
    ensures r.Success? ==> i <= r.value.next <= |ts|
    decreases |ts| - i, 0
  {
    var token :- PeekAt(ts, i);
    if RelationalKind(token.kind) then
      var s2 :- SimpleExpression(ts, i + 1);
      Success(Parsed(Binary(token, s, s2.value), s2.next))
    else Success(Parsed(Grouping(s), i))
  }

  /** `parser_simple_expression`. */
  function SimpleExpression(ts: seq<Token>, i: nat): (r: Outcome<PExpr>)
    ensures r.Success? ==> i < r.value.next <= |ts|
    decreases |ts| - i, 4
  {
    var first :- PeekAt(ts, i);
    if SignKind(first.kind) then SignedSimpleExpression(ts, i)
    else
      var t :- Term(ts, i);
      AddingTail(ts, t.next, t.value)
  }

  /** A simple expression that starts with a sign at `i`: a second sign is
      an error on the first one. */
  function SignedSimpleExpression(ts: seq<Token>, i: nat): (r: Outcome<PExpr>)
    requires i < |ts|
    ensures r.Success? ==> i < r.value.next <= |ts|
    decreases |ts| - i, 3
  {
    var second :- PeekAt(ts, i + 1);
    if SignKind(second.kind) then Failure(SyntaxError(ts[i]))
    else
      var e :- SimpleExpression(ts, i + 1);
      Success(Parsed(Unary(ts[i], e.value), e.next))
  }

  /** The rest of `parser_simple_expression` once the term `t` is parsed:
      an adding operator not followed by a sign goes on. */
  function AddingTail(ts: seq<Token>, i: nat, t: PExpr): (r: Outcome<PExpr>)
    requires i <= |ts|
    ensures r.Success? ==> i <= r.value.next <= |ts|
    decreases |ts| - i, 0
  {
    var token :- PeekAt(ts, i);
    if AddingKind(token.kind) then
      var after :- PeekAt(ts, i + 1);
      if SignKind(after.kind) then Failure(SyntaxError(token))
      else
        var e :- SimpleExpression(ts, i + 1);
        Success(Parsed(Binary(token, t, e.value), e.next))
    else Success(Parsed(Grouping(t), i))
  }

  /** `parser_term`. */
  function Term(ts: seq<Token>, i: nat): (r: Outcome<PExpr>)
    ensures r.Success? ==> i < r.value.next <= |ts|
    decreases |ts| - i, 3
  {
    var f :- Factor(ts, i);
    MultiplyingTail(ts, f.next, f.value)
  }

  /** The rest of `parser_term` once the factor `f` is parsed. */
  function MultiplyingTail(ts: seq<Token>, i: nat, f: PExpr): (r: Outcome<PExpr>)
    requires i <= |ts|
    ensures r.Success? ==> i <= r.value.next <= |ts|
    decreases |ts| - i, 0
  {
    var token :- PeekAt(ts, i);
    if MultiplyingKind(token.kind) then
      var t :- Term(ts, i + 1);
      Success(Parsed(Binary(token, f, t.value), t.next))
    else Success(Parsed(Grouping(f), i))
  }

  /** `parser_factor`. */
  function Factor(ts: seq<Token>, i: nat): (r: Outcome<PExpr>)
    ensures r.Success? ==> i < r.value.next <= |ts|
    decreases |ts| - i, 2
  {
    var token :- PeekAt(ts, i);
    var k := token.kind;
    if k == TOK_IDENTIFIER then IdentifierFactor(ts, i)
    else if k == TOK_DIGIT || k == TOK_NIL || k == TOK_STRING then UnsignedConstant(ts, i)
    else if k == TOK_NOT then NotFactor(ts, i)
    else if k == TOK_LPAREN then ParenFactor(ts, i)
    else if k == TOK_LBRACKET then IdSet(ts, i)
    else Failure(SyntaxError(token))
  }

  /** `not` and the factor after it, as a UNARY node on the `not` token. */
  function NotFactor(ts: seq<Token>, i: nat): (r: Outcome<PExpr>)
    requires i < |ts|
    ensures r.Success? ==> i < r.value.next <= |ts|
    decreases |ts| - i, 1
  {
    var f :- Factor(ts, i + 1);
    Success(Parsed(Unary(ts[i], f.value), f.next))
  }

  /** A parenthesised expression: the expression itself, the parentheses
      leave no node. */
  function ParenFactor(ts: seq<Token>, i: nat): (r: Outcome<PExpr>)
    requires i < |ts|
    ensures r.Success? ==> i < r.value.next <= |ts|
    decreases |ts| - i, 1
  {
    var e :- Expression(ts, i + 1);
    var close :- TokenExpect(ts, e.next, TOK_RPAREN);
    Success(Parsed(e.value, close.next))
  }

  /** The identifier case of `parser_factor`, decided by the token after
      the identifier. */
  function IdentifierFactor(ts: seq<Token>, i: nat): (r: Outcome<PExpr>)
    requires i < |ts|
    ensures r.Success? ==> i < r.value.next <= |ts|
    decreases |ts| - i, 1
  {
    var token2 :- PeekFarAt(ts, i, 1);
    if SelectorKind(token2.kind) then Variable(ts, i) else CallOrConstant(ts, i)
  }

  /** An identifier not followed by a selector: a call when `(` follows,
      an unsigned constant otherwise. */
  function CallOrConstant(ts: seq<Token>, i: nat): (r: Outcome<PExpr>)
    requires i + 1 < |ts|
    ensures r.Success? ==> i < r.value.next <= |ts|
    decreases |ts| - i, 0
  {
    if ts[i + 1].kind == TOK_LPAREN then
      var args :- IdExpressionList(ts, i + 1);
      Success(Parsed(Unary(ts[i], args.value), args.next))
    else UnsignedConstant(ts, i)
  }

  /** `factor_id_expression_list`: `( e (, e)* )`. */
  function IdExpressionList(ts: seq<Token>, i: nat): (r: Outcome<PExpr>)
    ensures r.Success? ==> i < r.value.next <= |ts|
    decreases |ts| - i, 1
  {
    match TokenExpect(ts, i, TOK_LPAREN)
    case Failure(err) => Failure(err)
    case Success(lparen) =>
      match Expression(ts, lparen.next)
      case Failure(err) => Failure(err)
      case Success(e) => ArgsLoop(ts, e.next, [Link(BINARY, Some(lparen.value), e.value)])
  }

  /** The loop of `factor_id_expression_list` with the nodes `links` so far. */
  function ArgsLoop(ts: seq<Token>, i: nat, links: seq<Link<Token>>): (r: Outcome<PExpr>)
    ensures r.Success? ==> i < r.value.next <= |ts|
    decreases |ts| - i, 0
  {
    match TokenAt(ts, i)
    case Failure(err) => Failure(err)
    case Success(t) =>
      if t.value.kind == TOK_RPAREN then Success(Parsed(Chain(links, Literal(t.value)), t.next))
      else if t.value.kind == TOK_COMMA then
        match Expression(ts, t.next)
        case Failure(err) => Failure(err)
        case Success(e) => ArgsLoop(ts, e.next, links + [Link(BINARY, Some(t.value), e.value)])
      else Failure(SyntaxError(t.value))
  }

  /** `factor_id_set`: `[ e (.. e)? (, e (.. e)?)* ]`. */
  function IdSet(ts: seq<Token>, i: nat): (r: Outcome<PExpr>)
    ensures r.Success? ==> i < r.value.next <= |ts|
    decreases |ts| - i, 1
  {
    var lbracket :- TokenExpect(ts, i, TOK_LBRACKET);
    var e :- Expression(ts, lbracket.next);
    SetLoop(ts, e.next, [], Link(BINARY, Some(lbracket.value), e.value))
  }

  /** The loop of `factor_id_set`: the element `cur` may become a range,
      then the separator decides. */
  function SetLoop(ts: seq<Token>, i: nat, done: seq<Link<Token>>, cur: Link<Token>): (r: Outcome<PExpr>)
    ensures r.Success? ==> i < r.value.next <= |ts|
    decreases |ts| - i, 1
  {
    var t :- TokenAt(ts, i);
    if t.value.kind == TOK_DOTDOT then
      var hi :- Expression(ts, t.next);
      SetSeparator(ts, hi.next, done, cur.(left := Binary(t.value, cur.left, hi.value)))
    else SetSeparator(ts, i, done, cur)
  }

  /** The separator after a set element, at `i`: `]` closes, `,` goes on. */
  function SetSeparator(ts: seq<Token>, i: nat, done: seq<Link<Token>>, cur: Link<Token>): (r: Outcome<PExpr>)
    ensures r.Success? ==> i < r.value.next <= |ts|
    decreases |ts| - i, 0
  {
    var t :- TokenAt(ts, i);
    if t.value.kind == TOK_RBRACKET then Success(Parsed(Chain(done + [cur], Literal(t.value)), t.next))
    else if t.value.kind == TOK_COMMA then
      var e :- Expression(ts, t.next);
      SetLoop(ts, e.next, done + [cur], Link(BINARY, Some(t.value), e.value))
    else Failure(SyntaxError(t.value))
  }

  method ParseExpression(p: Parser) returns (r: Result<PExpr, ParseError>)
    modifies p`pos
    ensures Pack(r, p.pos) == Expression(p.tokens, old(p.pos))
    decreases |p.tokens| - p.pos, 5
  {
    var s :- ParseSimpleExpression(p);
    r := ParseRelationTail(p, s);
  }

  method ParseRelationTail(p: Parser, s: PExpr) returns (r: Result<PExpr, ParseError>)
    requires p.pos <= |p.tokens|
    modifies p`pos
    ensures Pack(r, p.pos) == RelationTail(p.tokens, old(p.pos), s)
    decreases |p.tokens| - p.pos, 0
  {
    var token :- p.Peek();
    if RelationalKind(token.kind) {
      var _ := p.Token();
      var s2 :- ParseSimpleExpression(p);
      return Success(Binary(token, s, s2));
    }
    return Success(Grouping(s));
  }

  method ParseSimpleExpression(p: Parser) returns (r: Result<PExpr, ParseError>)
    modifies p`pos
    ensures Pack(r, p.pos) == SimpleExpression(p.tokens, old(p.pos))
    decreases |p.tokens| - p.pos, 4
  {
    var first :- p.Peek();
    if SignKind(first.kind) {
      r := ParseSignedSimpleExpression(p);
      return;
    }
    var t :- ParseTerm(p);
    r := ParseAddingTail(p, t);
  }

  method ParseSignedSimpleExpression(p: Parser) returns (r: Result<PExpr, ParseError>)
    requires p.pos < |p.tokens|
    modifies p`pos
    ensures Pack(r, p.pos) == SignedSimpleExpression(p.tokens, old(p.pos))
    decreases |p.tokens| - p.pos, 3
  {
    var token := p.Token();
    var second :- p.Peek();
    if SignKind(second.kind) {
      return Failure(SyntaxError(token.value));
    }
    var e :- ParseSimpleExpression(p);
    return Success(Unary(token.value, e));
  }

  method ParseAddingTail(p: Parser, t: PExpr) returns (r: Result<PExpr, ParseError>)
    requires p.pos <= |p.tokens|
    modifies p`pos
    ensures Pack(r, p.pos) == AddingTail(p.tokens, old(p.pos), t)
    decreases |p.tokens| - p.pos, 0
  {
    var token :- p.Peek();
    if AddingKind(token.kind) {
      var _ := p.Token();
      var after :- p.Peek();
      if SignKind(after.kind) {
        return Failure(SyntaxError(token));
      }
      var e :- ParseSimpleExpression(p);
      return Success(Binary(token, t, e));
    }
    return Success(Grouping(t));
  }

  method ParseTerm(p: Parser) returns (r: Result<PExpr, ParseError>)
    modifies p`pos
    ensures Pack(r, p.pos) == Term(p.tokens, old(p.pos))
    decreases |p.tokens| - p.pos, 3
  {
    var f :- ParseFactor(p);
    r := ParseMultiplyingTail(p, f);
  }

  method ParseMultiplyingTail(p: Parser, f: PExpr) returns (r: Result<PExpr, ParseError>)
    requires p.pos <= |p.tokens|
    modifies p`pos
    ensures Pack(r, p.pos) == MultiplyingTail(p.tokens, old(p.pos), f)
    decreases |p.tokens| - p.pos, 0
  {
    var token :- p.Peek();
    if MultiplyingKind(token.kind) {
      var _ := p.Token();
      var t :- ParseTerm(p);
      return Success(Binary(token, f, t));
    }
    return Success(Grouping(f));
  }

  method ParseFactor(p: Parser) returns (r: Result<PExpr, ParseError>)
    modifies p`pos
    ensures Pack(r, p.pos) == Factor(p.tokens, old(p.pos))
    decreases |p.tokens| - p.pos, 2
  {
    var token :- p.Peek();
    var k := token.kind;
    if k == TOK_IDENTIFIER {
      r := ParseIdentifierFactor(p);
    } else if k == TOK_DIGIT || k == TOK_NIL || k == TOK_STRING {
      r := ParseUnsignedConstant(p);
    } else if k == TOK_NOT {
      r := ParseNotFactor(p);
    } else if k == TOK_LPAREN {
      r := ParseParenFactor(p);
    } else if k == TOK_LBRACKET {
      r := ParseIdSet(p);
    } else {
      r := Failure(SyntaxError(token));
    }
  }

  method ParseNotFactor(p: Parser) returns (r: Result<PExpr, ParseError>)
    requires p.pos < |p.tokens|
    modifies p`pos
    ensures Pack(r, p.pos) == NotFactor(p.tokens, old(p.pos))
    decreases |p.tokens| - p.pos, 1
  {
    var token := p.Token();
    var f :- ParseFactor(p);
    r := Success(Unary(token.value, f));
  }

  method ParseParenFactor(p: Parser) returns (r: Result<PExpr, ParseError>)
    requires p.pos < |p.tokens|
    modifies p`pos
    ensures Pack(r, p.pos) == ParenFactor(p.tokens, old(p.pos))
    decreases |p.tokens| - p.pos, 1
  {
    var _ := p.Token();
    var e :- ParseExpression(p);
    var _ :- ParseTokenExpect(p, TOK_RPAREN);
    r := Success(e);
  }

  method ParseIdentifierFactor(p: Parser) returns (r: Result<PExpr, ParseError>)
    requires p.pos < |p.tokens|
    modifies p`pos
    ensures Pack(r, p.pos) == IdentifierFactor(p.tokens, old(p.pos))
    decreases |p.tokens| - p.pos, 1
  {
    var token2 :- p.PeekFar(1);
    if SelectorKind(token2.kind) {
      r := ParseVariable(p);
    } else {
      r := ParseCallOrConstant(p);
    }
  }

  method ParseCallOrConstant(p: Parser) returns (r: Result<PExpr, ParseError>)
    requires p.pos + 1 < |p.tokens|
    modifies p`pos
    ensures Pack(r, p.pos) == CallOrConstant(p.tokens, old(p.pos))
    decreases |p.tokens| - p.pos, 0
  {
    if p.tokens[p.pos + 1].kind == TOK_LPAREN {
      var token := p.Token();
      var args :- ParseIdExpressionList(p);
      r := Success(Unary(token.value, args));
    } else {
      r := ParseUnsignedConstant(p);
    }
  }

  method ParseIdExpressionList(p: Parser) returns (r: Result<PExpr, ParseError>)
    modifies p`pos
    ensures Pack(r, p.pos) == IdExpressionList(p.tokens, old(p.pos))
    decreases |p.tokens| - p.pos, 1
  {
    ghost var pos0 := p.pos;
    var lparen :- ParseTokenExpect(p, TOK_LPAREN);
    var e :- ParseExpression(p);
    var links := [Link(BINARY, Some(lparen), e)];
    ghost var goal := ArgsLoop(p.tokens, p.pos, links);
    while true
      invariant pos0 < p.pos <= |p.tokens| && ArgsLoop(p.tokens, p.pos, links) == goal
      decreases |p.tokens| - p.pos
    {
      var t :- p.Token();
      if t.kind == TOK_RPAREN {
        return Success(Chain(links, Literal(t)));
      }
      if t.kind != TOK_COMMA {
        return Failure(SyntaxError(t));
      }
      var e :- ParseExpression(p);
      links := links + [Link(BINARY, Some(t), e)];
    }
  }

  method ParseIdSet(p: Parser) returns (r: Result<PExpr, ParseError>)
    modifies p`pos
    ensures Pack(r, p.pos) == IdSet(p.tokens, old(p.pos))
    decreases |p.tokens| - p.pos, 1
  {
    ghost var pos0 := p.pos;
    var lbracket :- ParseTokenExpect(p, TOK_LBRACKET);
    var e :- ParseExpression(p);
    var done: seq<Link<Token>> := [];
    var cur := Link(BINARY, Some(lbracket), e);
    ghost var goal := SetLoop(p.tokens, p.pos, done, cur);
    while true
      invariant pos0 < p.pos <= |p.tokens| && SetLoop(p.tokens, p.pos, done, cur) == goal
      decreases |p.tokens| - p.pos
    {
      ghost var at := p.pos;
      var t :- p.Token();
      if t.kind == TOK_DOTDOT {
        var hi :- ParseExpression(p);
        cur := cur.(left := Binary(t, cur.left, hi));
        t :- p.Token();
      } else {
        assert SetLoop(p.tokens, at, done, cur) == SetSeparator(p.tokens, at, done, cur);
      }
      if t.kind == TOK_RBRACKET {
        return Success(Chain(done + [cur], Literal(t)));
      }
      if t.kind != TOK_COMMA {
        return Failure(SyntaxError(t));
      }
      var e :- ParseExpression(p);
      done := done + [cur];
      cur := Link(BINARY, Some(t), e);
    }
  }
}
