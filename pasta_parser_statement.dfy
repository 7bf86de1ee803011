/** Statements (libpasta/parser-statement.c): an optional label, which is
    dropped, then an assignment, a procedure call, a compound statement
    `begin … end`, or the empty statement before END or SEMICOLON. */
module PastaParserStatement {
  import opened Wrappers
  import opened PastaToken
  import opened Ast
  import opened PastaParser
  import opened PastaParserCommon
  import opened PastaParserSimple
  import opened PastaParserVariable
  import opened PastaParserExpression

  /** Where the statement proper starts: `follows_label` looks for an
      identifier or a number followed by a colon, and `parser_statement`
      then takes those two tokens. */
  function LabelEnd(ts: seq<Token>, i: nat): (r: Result<nat, ParseError>)
    ensures r.Success? ==> r.value == i || (r.value == i + 2 && i + 1 < |ts|)
  {
    var first :- PeekAt(ts, i);
    if first.kind != TOK_IDENTIFIER && first.kind != TOK_DIGIT then Success(i)
    else
      var colon :- PeekFarAt(ts, i, 1);
      if colon.kind == TOK_COLON then Success(i + 2) else Success(i)
  }

  /** The kinds after an identifier that make the statement an assignment. */
  predicate AssignmentKind(k: TokenType) {
    k == TOK_LBRACKET || k == TOK_DOT || k == TOK_CARET || k == TOK_ASSIGN
  }

  /** `parser_statement`. */
  function Statement(ts: seq<Token>, i: nat): (r: Outcome<PExpr>)
    ensures r.Success? ==> i <= r.value.next <= |ts|
    decreases |ts| - i, 3
  {
    var j :- LabelEnd(ts, i);
    UnlabelledStatement(ts, j)
  }

  /** The switch of `parser_statement` on the token after any label. */
  function UnlabelledStatement(ts: seq<Token>, i: nat): (r: Outcome<PExpr>)
    ensures r.Success? ==> i <= r.value.next <= |ts|
    decreases |ts| - i, 2
  {
    var peek :- PeekAt(ts, i);
    if peek.kind == TOK_IDENTIFIER then AssignmentOrProcedure(ts, i)
    else if peek.kind == TOK_BEGIN then Begin(ts, i)
    else if peek.kind == TOK_END || peek.kind == TOK_SEMICOLON then Success(Parsed(Null, i))
    else Failure(SyntaxError(peek))
  }

  /** `assignment_or_procedure`: decided by the token after the identifier. */
  function AssignmentOrProcedure(ts: seq<Token>, i: nat): (r: Outcome<PExpr>)
    ensures r.Success? ==> i < r.value.next <= |ts|
  {
    var symbol :- PeekFarAt(ts, i, 1);
    if AssignmentKind(symbol.kind) then Assignment(ts, i) else Procedure(ts, i)
  }

  /** `assignment`: a variable, `:=` and an expression, rooted by the `:=`. */
  function Assignment(ts: seq<Token>, i: nat): (r: Outcome<PExpr>)
    ensures r.Success? ==> i < r.value.next <= |ts|
  {
    var v :- Variable(ts, i);
    var assign :- TokenExpect(ts, v.next, TOK_ASSIGN);
    var e :- Expression(ts, assign.next);
    Success(Parsed(Binary(assign.value, v.value, e.value), e.next))
  }

  /** `procedure`: the identifier alone, or rooted by the `(` of its
      arguments. */
  function Procedure(ts: seq<Token>, i: nat): (r: Outcome<PExpr>)
    ensures r.Success? ==> i < r.value.next <= |ts|
  {
    var id :- Identifier(ts, i);
    var token :- PeekAt(ts, id.next);
    if token.kind == TOK_LPAREN then
      var args :- Arguments(ts, id.next);
      Success(Parsed(Binary(token, id.value, args.value), args.next))
    else Success(id)
  }

  /** `arguments`: the `(` roots the first argument. */
  function Arguments(ts: seq<Token>, i: nat): (r: Outcome<PExpr>)
    ensures r.Success? ==> i < r.value.next <= |ts|
  {
    var lparen :- TokenExpect(ts, i, TOK_LPAREN);
    ArgumentsLoop(ts, lparen.next, [], lparen.value)
  }

  /** The loop of `arguments` once the arguments `links` are built: an
      expression on a node of the carried token `sep`, then `,` is carried
      to the next argument and `)` closes. */
  function ArgumentsLoop(ts: seq<Token>, i: nat, links: seq<Link<Token>>, sep: Token): (r: Outcome<PExpr>)
    ensures r.Success? ==> i < r.value.next <= |ts|
    decreases |ts| - i
  {
    var e :- Expression(ts, i);
    var following :- TokenAt(ts, e.next);
    var links' := links + [Link(BINARY, Some(sep), e.value)];
    if following.value.kind == TOK_COMMA then ArgumentsLoop(ts, following.next, links', following.value)
    else if following.value.kind == TOK_RPAREN then Success(Parsed(Chain(links', Literal(following.value)), following.next))
    else Failure(SyntaxError(following.value))
  }

  /** `begin`: the BEGIN token roots the first statement. */
  function Begin(ts: seq<Token>, i: nat): (r: Outcome<PExpr>)
    ensures r.Success? ==> i < r.value.next <= |ts|
    decreases |ts| - i, 1
  {
    var begin :- TokenExpect(ts, i, TOK_BEGIN);
    BeginLoop(ts, begin.next, [], begin.value)
  }

  /** The loop of `begin` once the statements `links` are built. */
  function BeginLoop(ts: seq<Token>, i: nat, links: seq<Link<Token>>, sep: Token): (r: Outcome<PExpr>)
    ensures r.Success? ==> i < r.value.next <= |ts|
    decreases |ts| - i, 4
  {
    var s :- Statement(ts, i);
    var following :- TokenAt(ts, s.next);
    var links' := links + [Link(BINARY, Some(sep), s.value)];
    if following.value.kind == TOK_SEMICOLON then BeginLoop(ts, following.next, links', following.value)
    else if following.value.kind == TOK_END then Success(Parsed(Chain(links', Literal(following.value)), following.next))
    else Failure(SyntaxError(following.value))
  }

  method ParseStatement(p: Parser) returns (r: Result<PExpr, ParseError>)
    modifies p`pos
    ensures Pack(r, p.pos) == Statement(p.tokens, old(p.pos))
    decreases |p.tokens| - p.pos, 3
  {
    var first :- p.Peek();
    if first.kind == TOK_IDENTIFIER || first.kind == TOK_DIGIT {
      var colon :- p.PeekFar(1);
      if colon.kind == TOK_COLON {
        var _ := p.Token();
        var _ := p.Token();
      }
    }
    r := ParseUnlabelledStatement(p);
  }

  method ParseUnlabelledStatement(p: Parser) returns (r: Result<PExpr, ParseError>)
    modifies p`pos
    ensures Pack(r, p.pos) == UnlabelledStatement(p.tokens, old(p.pos))
    decreases |p.tokens| - p.pos, 2
  {
    var peek :- p.Peek();
    if peek.kind == TOK_IDENTIFIER {
      r := ParseAssignmentOrProcedure(p);
    } else if peek.kind == TOK_BEGIN {
      r := ParseBegin(p);
    } else if peek.kind == TOK_END || peek.kind == TOK_SEMICOLON {
      r := Success(Null);
    } else {
      r := Failure(SyntaxError(peek));
    }
  }

  method ParseAssignmentOrProcedure(p: Parser) returns (r: Result<PExpr, ParseError>)
    modifies p`pos
    ensures Pack(r, p.pos) == AssignmentOrProcedure(p.tokens, old(p.pos))
  {
    var symbol :- p.PeekFar(1);
    if AssignmentKind(symbol.kind) {
      r := ParseAssignment(p);
    } else {
      r := ParseProcedure(p);
    }
  }

  method ParseAssignment(p: Parser) returns (r: Result<PExpr, ParseError>)
    modifies p`pos
    ensures Pack(r, p.pos) == Assignment(p.tokens, old(p.pos))
  {
    var v :- ParseVariable(p);
    var assign :- ParseTokenExpect(p, TOK_ASSIGN);
    var e :- ParseExpression(p);
    return Success(Binary(assign, v, e));
  }

  method ParseProcedure(p: Parser) returns (r: Result<PExpr, ParseError>)
    modifies p`pos
    ensures Pack(r, p.pos) == Procedure(p.tokens, old(p.pos))
  {
    var id :- ParseIdentifier(p);
    var token :- p.Peek();
    if token.kind == TOK_LPAREN {
      var args :- ParseArguments(p);
      return Success(Binary(token, id, args));
    }
    return Success(id);
  }

  method ParseArguments(p: Parser) returns (r: Result<PExpr, ParseError>)
    modifies p`pos
    ensures Pack(r, p.pos) == Arguments(p.tokens, old(p.pos))
  {
    var sep :- ParseTokenExpect(p, TOK_LPAREN);
    var links: seq<Link<Token>> := [];
    ghost var goal := ArgumentsLoop(p.tokens, p.pos, links, sep);
    while true
      invariant ArgumentsLoop(p.tokens, p.pos, links, sep) == goal
      decreases |p.tokens| - p.pos
    {
      var e :- ParseExpression(p);
      var following :- p.Token();
      links := links + [Link(BINARY, Some(sep), e)];
      if following.kind == TOK_RPAREN {
        return Success(Chain(links, Literal(following)));
      }
      if following.kind != TOK_COMMA {
        return Failure(SyntaxError(following));
      }
      sep := following;
    }
  }

  method ParseBegin(p: Parser) returns (r: Result<PExpr, ParseError>)
    modifies p`pos
    ensures Pack(r, p.pos) == Begin(p.tokens, old(p.pos))
    decreases |p.tokens| - p.pos, 1
  {
    ghost var pos0 := p.pos;
    var sep :- ParseTokenExpect(p, TOK_BEGIN);
    var links: seq<Link<Token>> := [];
    ghost var goal := BeginLoop(p.tokens, p.pos, links, sep);
    while true
      invariant pos0 < p.pos <= |p.tokens| && BeginLoop(p.tokens, p.pos, links, sep) == goal
      decreases |p.tokens| - p.pos
    {
      var s :- ParseStatement(p);
      var following :- p.Token();
      links := links + [Link(BINARY, Some(sep), s)];
      if following.kind == TOK_END {
        return Success(Chain(links, Literal(following)));
      }
      if following.kind != TOK_SEMICOLON {
        return Failure(SyntaxError(following));
      }
      sep := following;
    }
  }
}
