/** Properties of the statement parser (libpasta/parser-statement.c). */
module PastaParserStatementFacts {
  import opened Wrappers
  import opened PastaToken
  import opened Ast
  import opened PastaParser
  import opened PastaParserCommon
  import opened PastaParserSimple
  import opened PastaParserVariable
  import opened PastaParserExpression
  import opened PastaParserExpressionFacts
  import opened PastaParserStatement

  /** A leading `IDENT :` or `DIGIT :` is taken and dropped: the statement
      is the one after it. Anything else leaves the position alone. */
  lemma {:induction false} LabelDropped(ts: seq<Token>, i: nat)
    requires i + 1 < |ts|
    ensures (ts[i].kind == TOK_IDENTIFIER || ts[i].kind == TOK_DIGIT) && ts[i + 1].kind == TOK_COLON ==>
      Statement(ts, i) == UnlabelledStatement(ts, i + 2)
    ensures !((ts[i].kind == TOK_IDENTIFIER || ts[i].kind == TOK_DIGIT) && ts[i + 1].kind == TOK_COLON) ==>
      Statement(ts, i) == UnlabelledStatement(ts, i)
  {
  }

  /** END or SEMICOLON at the start is the empty statement: null, and
      nothing is consumed. */
  lemma {:induction false} EmptyStatement(ts: seq<Token>, i: nat)
    requires i < |ts| && (ts[i].kind == TOK_END || ts[i].kind == TOK_SEMICOLON)
    ensures Statement(ts, i) == Success(Parsed(Null, i))
  {
  }

  /** Any other start is an error on the first token, and so is a number
      that is not a label. */
  lemma {:induction false} BadStart(ts: seq<Token>, i: nat)
    requires i < |ts|
    ensures (ts[i].kind != TOK_IDENTIFIER && ts[i].kind != TOK_DIGIT && ts[i].kind != TOK_BEGIN
             && ts[i].kind != TOK_END && ts[i].kind != TOK_SEMICOLON) ==>
      Statement(ts, i) == Failure(SyntaxError(ts[i]))
    ensures ts[i].kind == TOK_DIGIT && i + 1 < |ts| && ts[i + 1].kind != TOK_COLON ==>
      Statement(ts, i) == Failure(SyntaxError(ts[i]))
  {
  }

  /** An identifier followed by `[`, `.`, `^` or `:=` starts an assignment
      BINARY(ASSIGN, variable, expression). */
  lemma {:induction false} AssignmentExact(ts: seq<Token>, i: nat, v: Parsed<PExpr>, e: Parsed<PExpr>)
    requires i + 1 < |ts| && ts[i].kind == TOK_IDENTIFIER && AssignmentKind(ts[i + 1].kind)
    requires Variable(ts, i) == Success(v) && v.next < |ts| && ts[v.next].kind == TOK_ASSIGN
    requires Expression(ts, v.next + 1) == Success(e)
    ensures Statement(ts, i) == Success(Parsed(Binary(ts[v.next], v.value, e.value), e.next))
  {
    assert UnlabelledStatement(ts, i) == AssignmentOrProcedure(ts, i);
  }

  /** As written, `x := e` stores UNARY(:=) as the variable, since
      `parser_variable` builds its root on the token after the identifier. */
  lemma {:induction false} PlainAssignment(ts: seq<Token>, i: nat, e: Parsed<PExpr>)
    requires i + 1 < |ts| && ts[i].kind == TOK_IDENTIFIER && ts[i + 1].kind == TOK_ASSIGN
    requires Expression(ts, i + 2) == Success(e)
    ensures Statement(ts, i) == Success(Parsed(Binary(ts[i + 1], Unary(ts[i + 1], Null), e.value), e.next))
  {
    NoSuffix(ts, i);
    AssignmentExact(ts, i, Parsed(Unary(ts[i + 1], Null), i + 1), e);
  }

  /** As written, `p^ := 1` is rejected: the variable takes the `:=`, and
      the assignment then expects `:=` on the number. */
  lemma {:induction false} PointerAssignmentRejected(ts: seq<Token>)
    requires |ts| == 5 && ts[0].kind == TOK_IDENTIFIER && ts[1].kind == TOK_CARET
    requires ts[2].kind == TOK_ASSIGN && ts[3].kind == TOK_DIGIT && ts[4].kind == TOK_EOF
    ensures Statement(ts, 0) == Failure(SyntaxError(ts[3]))
  {
    SwallowsFollowingToken(ts);
    assert Statement(ts, 0) == UnlabelledStatement(ts, 0);
    assert UnlabelledStatement(ts, 0) == AssignmentOrProcedure(ts, 0);
  }

  /** An identifier followed by anything else is a procedure call: the
      LITERAL alone, or BINARY(LPAREN, LITERAL, arguments). */
  lemma {:induction false} ProcedureExact(ts: seq<Token>, i: nat)
    requires i + 1 < |ts| && ts[i].kind == TOK_IDENTIFIER && !AssignmentKind(ts[i + 1].kind)
    requires ts[i + 1].kind != TOK_COLON
    ensures ts[i + 1].kind != TOK_LPAREN ==> Statement(ts, i) == Success(Parsed(Literal(ts[i]), i + 1))
    ensures ts[i + 1].kind == TOK_LPAREN && Arguments(ts, i + 1).Success? ==>
      Statement(ts, i) == Success(Parsed(Binary(ts[i + 1], Literal(ts[i]), Arguments(ts, i + 1).value.value),
                                         Arguments(ts, i + 1).value.next))
    ensures ts[i + 1].kind == TOK_LPAREN && Arguments(ts, i + 1).Failure? ==>
      Statement(ts, i) == Failure(Arguments(ts, i + 1).error)
  {
    assert Statement(ts, i) == UnlabelledStatement(ts, i);
    assert UnlabelledStatement(ts, i) == AssignmentOrProcedure(ts, i);
  }

  /** The argument loop of a call takes the same path as the argument loop
      of `factor_id_expression_list`, once its first expression is parsed. */
  lemma {:induction false} ArgumentsLoopAgree(ts: seq<Token>, i: nat, links: seq<Link<Token>>, sep: Token)
    requires Expression(ts, i).Success?
    ensures ArgumentsLoop(ts, i, links, sep) ==
      ArgsLoop(ts, Expression(ts, i).value.next, links + [Link(BINARY, Some(sep), Expression(ts, i).value.value)])
    decreases |ts| - i
  {
    var e := Expression(ts, i).value;
    var links' := links + [Link(BINARY, Some(sep), e.value)];
    if e.next < |ts| && ts[e.next].kind == TOK_COMMA && Expression(ts, e.next + 1).Success? {
      ArgumentsLoopAgree(ts, e.next + 1, links', ts[e.next]);
    }
  }

  /** A call's arguments are parsed exactly as an argument list in an
      expression. */
  lemma {:induction false} ArgumentsAgree(ts: seq<Token>, i: nat)
    ensures Arguments(ts, i) == IdExpressionList(ts, i)
  {
    if i < |ts| && ts[i].kind == TOK_LPAREN && Expression(ts, i + 1).Success? {
      ArgumentsLoopAgree(ts, i + 1, [], ts[i]);
      assert [] + [Link(BINARY, Some(ts[i]), Expression(ts, i + 1).value.value)]
        == [Link(BINARY, Some(ts[i]), Expression(ts, i + 1).value.value)];
    }
  }

  /** So the arguments are a BINARY chain rooted at `(`, continuing with
      COMMA nodes and closed by LITERAL(RPAREN). */
  lemma {:induction false} ArgumentsShape(ts: seq<Token>, i: nat)
    requires Arguments(ts, i).Success?
    ensures BracketList(Arguments(ts, i).value.value, TOK_LPAREN, TOK_COMMA, TOK_RPAREN)
  {
    ArgumentsAgree(ts, i);
    ArgumentListShape(ts, i);
  }

  /** After an argument, a token other than `,` or `)` is an error on it. */
  lemma {:induction false} ArgumentsBadSeparator(ts: seq<Token>, i: nat, links: seq<Link<Token>>, sep: Token, e: Parsed<PExpr>)
    requires Expression(ts, i) == Success(e) && e.next < |ts|
    requires ts[e.next].kind != TOK_COMMA && ts[e.next].kind != TOK_RPAREN
    ensures ArgumentsLoop(ts, i, links, sep) == Failure(SyntaxError(ts[e.next]))
  {
  }

  /** Collected statement links, before `sep` is carried to the next one. */
  predicate BeginLinks(links: seq<Link<Token>>, sep: Token) {
    if |links| == 0 then sep.kind == TOK_BEGIN
    else sep.kind == TOK_SEMICOLON && ListLinks(links, TOK_BEGIN, TOK_SEMICOLON)
  }

  /** The loop of `begin` closes a BINARY chain rooted at BEGIN, continuing
      with SEMICOLON nodes and ending in LITERAL(END). */
  lemma {:induction false} BeginLoopShape(ts: seq<Token>, i: nat, links: seq<Link<Token>>, sep: Token)
    requires BeginLinks(links, sep) && BeginLoop(ts, i, links, sep).Success?
    ensures BracketList(BeginLoop(ts, i, links, sep).value.value, TOK_BEGIN, TOK_SEMICOLON, TOK_END)
    decreases |ts| - i
  {
    var s := Statement(ts, i).value;
    var links' := links + [Link(BINARY, Some(sep), s.value)];
    assert ListLinks(links', TOK_BEGIN, TOK_SEMICOLON);
    if ts[s.next].kind == TOK_END {
      ListLinksClose(links', TOK_BEGIN, TOK_SEMICOLON, ts[s.next]);
    } else {
      BeginLoopShape(ts, s.next + 1, links', ts[s.next]);
    }
  }

  /** A compound statement is a BINARY chain rooted at BEGIN, continuing
      with SEMICOLON nodes and closed by LITERAL(END). */
  lemma {:induction false} BeginShape(ts: seq<Token>, i: nat)
    requires Begin(ts, i).Success?
    ensures BracketList(Begin(ts, i).value.value, TOK_BEGIN, TOK_SEMICOLON, TOK_END)
  {
    BeginLoopShape(ts, i + 1, [], ts[i]);
  }

  /** `begin end` holds one empty statement. */
  lemma {:induction false} EmptyCompound(ts: seq<Token>, i: nat)
    requires i + 1 < |ts| && ts[i].kind == TOK_BEGIN && ts[i + 1].kind == TOK_END
    ensures Statement(ts, i) == Success(Parsed(Binary(ts[i], Null, Literal(ts[i + 1])), i + 2))
  {
    EmptyStatement(ts, i + 1);
    var first := Link(BINARY, Some(ts[i]), Null);
    assert [] + [first] == [first];
    assert Chain([first], Literal(ts[i + 1])) == Binary(ts[i], Null, Literal(ts[i + 1]));
    assert BeginLoop(ts, i + 1, [], ts[i]) == Success(Parsed(Chain([first], Literal(ts[i + 1])), i + 2));
    assert Begin(ts, i) == BeginLoop(ts, i + 1, [], ts[i]);
    assert UnlabelledStatement(ts, i) == Begin(ts, i);
    assert Statement(ts, i) == UnlabelledStatement(ts, i);
  }

  /** After a statement, a token other than `;` or END is an error on it. */
  lemma {:induction false} BeginBadSeparator(ts: seq<Token>, i: nat, links: seq<Link<Token>>, sep: Token, s: Parsed<PExpr>)
    requires Statement(ts, i) == Success(s) && s.next < |ts|
    requires ts[s.next].kind != TOK_SEMICOLON && ts[s.next].kind != TOK_END
    ensures BeginLoop(ts, i, links, sep) == Failure(SyntaxError(ts[s.next]))
  {
  }
}
