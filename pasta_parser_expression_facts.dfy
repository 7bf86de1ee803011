/** Properties of the expression parser (libpasta/parser-expression.c), and a
    left-nesting `parser_term` as its doc comment describes it. */
module PastaParserExpressionFacts {
  import opened Wrappers
  import opened PastaToken
  import opened Ast
  import opened PastaParser
  import opened PastaParserCommon
  import opened PastaParserConstant
  import opened PastaParserVariable
  import opened PastaParserExpression

  /** What `parser_term` builds: multiplying nodes nested to the right,
      ending in a GROUPING of the last factor. */
  predicate TermShape(e: PExpr)
    decreases e
  {
    e.Node?
    && ((e.kind == GROUPING && e.token.None? && e.right.Null?)
        || (e.kind == BINARY && e.token.Some? && MultiplyingKind(e.token.value.kind) && TermShape(e.right)))
  }

  /** What `parser_simple_expression` builds: a sign over a simple
      expression, or adding nodes nested to the right over terms, ending in
      a GROUPING of the last term. */
  predicate SimpleShape(e: PExpr)
    decreases e
  {
    e.Node?
    && ((e.kind == UNARY && e.token.Some? && SignKind(e.token.value.kind) && e.right.Null? && SimpleShape(e.left))
        || (e.kind == BINARY && e.token.Some? && AddingKind(e.token.value.kind) && TermShape(e.left) && SimpleShape(e.right))
        || (e.kind == GROUPING && e.token.None? && e.right.Null? && TermShape(e.left)))
  }

  lemma {:induction false} TermHasShape(ts: seq<Token>, i: nat)
    requires Term(ts, i).Success?
    ensures TermShape(Term(ts, i).value.value)
    decreases |ts| - i
  {
    var f := Factor(ts, i).value;
    var token := ts[f.next];
    if MultiplyingKind(token.kind) {
      TermHasShape(ts, f.next + 1);
    }
  }

  lemma {:induction false} SimpleHasShape(ts: seq<Token>, i: nat)
    requires SimpleExpression(ts, i).Success?
    ensures SimpleShape(SimpleExpression(ts, i).value.value)
    decreases |ts| - i, 4
  {
    if SignKind(ts[i].kind) {
      SignedHasShape(ts, i);
    } else {
      TermHasShape(ts, i);
      var t := Term(ts, i).value;
      AddingTailHasShape(ts, t.next, t.value);
    }
  }

  lemma {:induction false} SignedHasShape(ts: seq<Token>, i: nat)
    requires i < |ts| && SignKind(ts[i].kind) && SignedSimpleExpression(ts, i).Success?
    ensures SimpleShape(SignedSimpleExpression(ts, i).value.value)
    decreases |ts| - i, 3
  {
    var e := SimpleExpression(ts, i + 1).value;
    assert SignedSimpleExpression(ts, i) == Success(Parsed(Unary(ts[i], e.value), e.next));
    SimpleHasShape(ts, i + 1);
  }

  lemma {:induction false} AddingTailHasShape(ts: seq<Token>, i: nat, t: PExpr)
    requires i <= |ts| && TermShape(t) && AddingTail(ts, i, t).Success?
    ensures SimpleShape(AddingTail(ts, i, t).value.value)
    decreases |ts| - i, 0
  {
    if AddingKind(ts[i].kind) {
      SimpleHasShape(ts, i + 1);
    }
  }

  /** An expression is a GROUPING of one simple expression or a relation
      between two: a relation never has a relation as an operand. */
  lemma ExpressionShape(ts: seq<Token>, i: nat)
    requires Expression(ts, i).Success?
    ensures var e := Expression(ts, i).value.value;
      (e.Node? && e.kind == GROUPING && e.token.None? && e.right.Null? && SimpleShape(e.left))
      || (e.Node? && e.kind == BINARY && e.token.Some? && RelationalKind(e.token.value.kind)
          && SimpleShape(e.left) && SimpleShape(e.right))
  {
    SimpleHasShape(ts, i);
    var s := SimpleExpression(ts, i).value;
    if RelationalKind(ts[s.next].kind) {
      SimpleHasShape(ts, s.next + 1);
    }
  }

  /** A simple expression followed by a relational operator and a second
      simple expression is their BINARY on the operator; followed by
      anything else it is grouped and the next token is left alone. */
  lemma ExpressionRelation(ts: seq<Token>, i: nat)
    requires SimpleExpression(ts, i).Success?
    requires SimpleExpression(ts, i).value.next < |ts|
    ensures var s := SimpleExpression(ts, i).value;
      var op := ts[s.next];
      (!RelationalKind(op.kind) ==> Expression(ts, i) == Success(Parsed(Grouping(s.value), s.next)))
      && (RelationalKind(op.kind) && SimpleExpression(ts, s.next + 1).Success? ==>
            var s2 := SimpleExpression(ts, s.next + 1).value;
            Expression(ts, i) == Success(Parsed(Binary(op, s.value, s2.value), s2.next)))
      && (RelationalKind(op.kind) && SimpleExpression(ts, s.next + 1).Failure? ==>
            Expression(ts, i) == Failure(SimpleExpression(ts, s.next + 1).error))
  {
  }

  /** Two signs in a row are an error on the first. */
  lemma DoubleSign(ts: seq<Token>, i: nat)
    requires i + 1 < |ts| && SignKind(ts[i].kind) && SignKind(ts[i + 1].kind)
    ensures SimpleExpression(ts, i) == Failure(SyntaxError(ts[i]))
    ensures Expression(ts, i) == Failure(SyntaxError(ts[i]))
  {
  }

  /** One sign gives a UNARY node on it over the simple expression after it. */
  lemma LeadingSign(ts: seq<Token>, i: nat)
    requires i + 1 < |ts| && SignKind(ts[i].kind) && !SignKind(ts[i + 1].kind)
    ensures SimpleExpression(ts, i).Success? <==> SimpleExpression(ts, i + 1).Success?
    ensures SimpleExpression(ts, i).Success? ==>
      SimpleExpression(ts, i) == Success(Parsed(Unary(ts[i], SimpleExpression(ts, i + 1).value.value),
                                                SimpleExpression(ts, i + 1).value.next))
  {
  }

  /** A sign right after an adding operator is an error on the operator. */
  lemma SignAfterAddingOp(ts: seq<Token>, i: nat)
    requires i < |ts| && !SignKind(ts[i].kind) && Term(ts, i).Success?
    requires var j := Term(ts, i).value.next;
      j + 1 < |ts| && AddingKind(ts[j].kind) && SignKind(ts[j + 1].kind)
    ensures SimpleExpression(ts, i) == Failure(SyntaxError(ts[Term(ts, i).value.next]))
  {
    var t := Term(ts, i).value;
    assert SimpleExpression(ts, i) == AddingTail(ts, t.next, t.value);
  }

  /** Factors by their first token. */
  lemma FactorCases(ts: seq<Token>, i: nat)
    requires i < |ts|
    ensures ts[i].kind in {TOK_DIGIT, TOK_NIL, TOK_STRING} ==> Factor(ts, i) == Success(Parsed(Literal(ts[i]), i + 1))
    ensures ts[i].kind == TOK_NOT ==>
      (Factor(ts, i).Success? <==> Factor(ts, i + 1).Success?)
      && (Factor(ts, i).Success? ==>
            Factor(ts, i) == Success(Parsed(Unary(ts[i], Factor(ts, i + 1).value.value), Factor(ts, i + 1).value.next)))
    ensures ts[i].kind == TOK_LBRACKET ==> Factor(ts, i) == IdSet(ts, i)
    ensures ts[i].kind !in {TOK_IDENTIFIER, TOK_DIGIT, TOK_NIL, TOK_STRING, TOK_NOT, TOK_LPAREN, TOK_LBRACKET} ==>
      Factor(ts, i) == Failure(SyntaxError(ts[i]))
  {
  }

  /** `( e )` is `e` itself: the parentheses leave no node. */
  lemma ParenthesesVanish(ts: seq<Token>, i: nat)
    requires i < |ts| && ts[i].kind == TOK_LPAREN && Expression(ts, i + 1).Success?
    ensures var e := Expression(ts, i + 1).value;
      (e.next < |ts| && ts[e.next].kind == TOK_RPAREN ==> Factor(ts, i) == Success(Parsed(e.value, e.next + 1)))
      && (e.next < |ts| && ts[e.next].kind != TOK_RPAREN ==> Factor(ts, i) == Failure(SyntaxError(ts[e.next])))
  {
    assert Factor(ts, i) == ParenFactor(ts, i);
  }

  /** An identifier is a variable before `[`, `.` or `^`, a call before
      `(`, and an unsigned constant before anything else; as the last token
      it is an error, as `parser_peek_far` finds nothing after it. */
  lemma IdentifierCases(ts: seq<Token>, i: nat)
    requires i < |ts| && ts[i].kind == TOK_IDENTIFIER
    ensures i + 1 == |ts| ==> Factor(ts, i) == Failure(SyntaxError(ts[i]))
    ensures i + 1 < |ts| && SelectorKind(ts[i + 1].kind) ==> Factor(ts, i) == Variable(ts, i)
    ensures i + 1 < |ts| && ts[i + 1].kind == TOK_LPAREN ==>
      (Factor(ts, i).Success? <==> IdExpressionList(ts, i + 1).Success?)
      && (Factor(ts, i).Success? ==>
            Factor(ts, i) == Success(Parsed(Unary(ts[i], IdExpressionList(ts, i + 1).value.value),
                                            IdExpressionList(ts, i + 1).value.next)))
    ensures i + 1 < |ts| && !SelectorKind(ts[i + 1].kind) && ts[i + 1].kind != TOK_LPAREN ==>
      Factor(ts, i) == Success(Parsed(Literal(ts[i]), i + 1))
  {
    assert Factor(ts, i) == IdentifierFactor(ts, i);
  }

  lemma {:induction false} ArgsLoopShape(ts: seq<Token>, i: nat, links: seq<Link<Token>>)
    requires ListLinks(links, TOK_LPAREN, TOK_COMMA) && ArgsLoop(ts, i, links).Success?
    ensures BracketList(ArgsLoop(ts, i, links).value.value, TOK_LPAREN, TOK_COMMA, TOK_RPAREN)
    decreases |ts| - i
  {
    if ts[i].kind == TOK_RPAREN {
      ListLinksClose(links, TOK_LPAREN, TOK_COMMA, ts[i]);
    } else {
      var e := Expression(ts, i + 1).value;
      var links' := links + [Link(BINARY, Some(ts[i]), e.value)];
      assert ListLinks(links', TOK_LPAREN, TOK_COMMA);
      ArgsLoopShape(ts, e.next, links');
    }
  }

  /** An argument list is a BINARY chain rooted at `(`, continuing with
      COMMA nodes and closed by a LITERAL of `)`. */
  lemma ArgumentListShape(ts: seq<Token>, i: nat)
    requires IdExpressionList(ts, i).Success?
    ensures BracketList(IdExpressionList(ts, i).value.value, TOK_LPAREN, TOK_COMMA, TOK_RPAREN)
  {
    var e := Expression(ts, i + 1).value;
    ArgsLoopShape(ts, e.next, [Link(BINARY, Some(ts[i]), e.value)]);
  }

  /** After an argument, a token other than `,` or `)` is an error on it. */
  lemma ArgumentBadSeparator(ts: seq<Token>, i: nat, links: seq<Link<Token>>)
    requires i < |ts| && ts[i].kind != TOK_COMMA && ts[i].kind != TOK_RPAREN
    ensures ArgsLoop(ts, i, links) == Failure(SyntaxError(ts[i]))
  {
  }

  lemma {:induction false} SetLoopShape(ts: seq<Token>, i: nat, done: seq<Link<Token>>, cur: Link<Token>)
    requires ListLinks(done + [cur], TOK_LBRACKET, TOK_COMMA) && SetLoop(ts, i, done, cur).Success?
    ensures BracketList(SetLoop(ts, i, done, cur).value.value, TOK_LBRACKET, TOK_COMMA, TOK_RBRACKET)
    decreases |ts| - i, 1
  {
    if ts[i].kind == TOK_DOTDOT {
      var hi := Expression(ts, i + 1).value;
      var cur' := cur.(left := Binary(ts[i], cur.left, hi.value));
      forall k | 0 <= k < |done| + 1
        ensures (done + [cur'])[k].kind == (done + [cur])[k].kind && (done + [cur'])[k].token == (done + [cur])[k].token
      {
      }
      assert ListLinks(done + [cur'], TOK_LBRACKET, TOK_COMMA);
      SetSeparatorShape(ts, hi.next, done, cur');
    } else {
      assert SetLoop(ts, i, done, cur) == SetSeparator(ts, i, done, cur);
      SetSeparatorShape(ts, i, done, cur);
    }
  }

  lemma {:induction false} SetSeparatorShape(ts: seq<Token>, i: nat, done: seq<Link<Token>>, cur: Link<Token>)
    requires ListLinks(done + [cur], TOK_LBRACKET, TOK_COMMA) && SetSeparator(ts, i, done, cur).Success?
    ensures BracketList(SetSeparator(ts, i, done, cur).value.value, TOK_LBRACKET, TOK_COMMA, TOK_RBRACKET)
    decreases |ts| - i, 0
  {
    if ts[i].kind == TOK_RBRACKET {
      ListLinksClose(done + [cur], TOK_LBRACKET, TOK_COMMA, ts[i]);
    } else {
      var e := Expression(ts, i + 1).value;
      var next := Link(BINARY, Some(ts[i]), e.value);
      assert (done + [cur]) + [next] == done + [cur] + [next];
      assert ListLinks(done + [cur] + [next], TOK_LBRACKET, TOK_COMMA);
      SetLoopShape(ts, e.next, done + [cur], next);
    }
  }

  /** A set is a BINARY chain rooted at `[`, continuing with COMMA nodes and
      closed by a LITERAL of `]`. */
  lemma SetShape(ts: seq<Token>, i: nat)
    requires IdSet(ts, i).Success?
    ensures BracketList(IdSet(ts, i).value.value, TOK_LBRACKET, TOK_COMMA, TOK_RBRACKET)
  {
    var e := Expression(ts, i + 1).value;
    assert [] + [Link(BINARY, Some(ts[i]), e.value)] == [Link(BINARY, Some(ts[i]), e.value)];
    SetLoopShape(ts, e.next, [], Link(BINARY, Some(ts[i]), e.value));
  }

  /** A set starts with `[` and its first element. */
  lemma SetStart(ts: seq<Token>, i: nat, lo: Parsed<PExpr>)
    requires i < |ts| && ts[i].kind == TOK_LBRACKET && Expression(ts, i + 1) == Success(lo)
    ensures IdSet(ts, i) == SetLoop(ts, lo.next, [], Link(BINARY, Some(ts[i]), lo.value))
  {
  }

  /** In a set, `..` after an element makes it BINARY(DOTDOT, lo, hi). */
  lemma SetRangeStep(ts: seq<Token>, i: nat, done: seq<Link<Token>>, cur: Link<Token>, hi: Parsed<PExpr>)
    requires i < |ts| && ts[i].kind == TOK_DOTDOT && Expression(ts, i + 1) == Success(hi)
    ensures SetLoop(ts, i, done, cur) == SetSeparator(ts, hi.next, done, cur.(left := Binary(ts[i], cur.left, hi.value)))
  {
  }

  /** `]` after an element closes the set with a LITERAL of it. */
  lemma SetClose(ts: seq<Token>, i: nat, done: seq<Link<Token>>, cur: Link<Token>)
    requires i < |ts| && ts[i].kind == TOK_RBRACKET
    ensures SetSeparator(ts, i, done, cur) == Success(Parsed(Chain(done + [cur], Literal(ts[i])), i + 1))
  {
  }

  /** `]` after the first element closes a set of one element. */
  lemma SetCloseFirst(ts: seq<Token>, i: nat, cur: Link<Token>)
    requires i < |ts| && ts[i].kind == TOK_RBRACKET
    ensures SetSeparator(ts, i, [], cur) == Success(Parsed(Node(cur.kind, cur.left, Literal(ts[i]), cur.token), i + 1))
  {
    SetClose(ts, i, [], cur);
    assert [] + [cur] == [cur];
  }

  /** `parser_term` as the doc comment above it describes it: factors
      folded to the left, and a GROUPING only around a lone factor. */
  function TermIntended(ts: seq<Token>, i: nat): (r: Outcome<PExpr>)
    ensures r.Success? ==> i < r.value.next <= |ts|
  {
    var f :- Factor(ts, i);
    TermIntendedLoop(ts, f.next, f.value, true)
  }

  /** The loop of the left fold: `acc` is the tree so far, `lone` says it
      is still the first factor alone. */
  function TermIntendedLoop(ts: seq<Token>, i: nat, acc: PExpr, lone: bool): (r: Outcome<PExpr>)
    requires i <= |ts|
    ensures r.Success? ==> i <= r.value.next <= |ts|
    decreases |ts| - i
  {
    var token :- PeekAt(ts, i);
    if MultiplyingKind(token.kind) then
      var f :- Factor(ts, i + 1);
      TermIntendedLoop(ts, f.next, Binary(token, acc, f.value), false)
    else Success(Parsed(if lone then Grouping(acc) else acc, i))
  }

  /** Both the code and the fold start with a factor. */
  lemma TermStart(ts: seq<Token>, i: nat, f: Parsed<PExpr>)
    requires Factor(ts, i) == Success(f)
    ensures Term(ts, i) == MultiplyingTail(ts, f.next, f.value)
  {
  }

  lemma TermIntendedStart(ts: seq<Token>, i: nat, f: Parsed<PExpr>)
    requires Factor(ts, i) == Success(f)
    ensures TermIntended(ts, i) == TermIntendedLoop(ts, f.next, f.value, true)
  {
  }

  /** Both stop before a token that is not a multiplying operator. */
  lemma TermStop(ts: seq<Token>, j: nat, acc: PExpr)
    requires j < |ts| && !MultiplyingKind(ts[j].kind)
    ensures MultiplyingTail(ts, j, acc) == Success(Parsed(Grouping(acc), j))
  {
  }

  lemma TermIntendedStop(ts: seq<Token>, j: nat, acc: PExpr, lone: bool)
    requires j < |ts| && !MultiplyingKind(ts[j].kind)
    ensures TermIntendedLoop(ts, j, acc, lone) == Success(Parsed(if lone then Grouping(acc) else acc, j))
  {
  }

  /** On a multiplying operator the code recurses into a whole term on the
      right, while the fold takes one factor and goes on. */
  lemma TermStep(ts: seq<Token>, j: nat, acc: PExpr, t: Parsed<PExpr>)
    requires j < |ts| && MultiplyingKind(ts[j].kind) && Term(ts, j + 1) == Success(t)
    ensures MultiplyingTail(ts, j, acc) == Success(Parsed(Binary(ts[j], acc, t.value), t.next))
  {
  }

  lemma TermIntendedStep(ts: seq<Token>, j: nat, acc: PExpr, lone: bool, f: Parsed<PExpr>)
    requires j < |ts| && MultiplyingKind(ts[j].kind) && Factor(ts, j + 1) == Success(f)
    ensures TermIntendedLoop(ts, j, acc, lone) == TermIntendedLoop(ts, f.next, Binary(ts[j], acc, f.value), false)
  {
  }

  /** One factor: as written and as intended agree on GROUPING(f). */
  lemma TermOneFactor(ts: seq<Token>, i: nat, f1: Parsed<PExpr>)
    requires Factor(ts, i) == Success(f1) && f1.next < |ts| && !MultiplyingKind(ts[f1.next].kind)
    ensures Term(ts, i) == Success(Parsed(Grouping(f1.value), f1.next))
    ensures TermIntended(ts, i) == Term(ts, i)
  {
    TermStart(ts, i, f1);
    TermStop(ts, f1.next, f1.value);
    TermIntendedStart(ts, i, f1);
    TermIntendedStop(ts, f1.next, f1.value, true);
  }

  /** Two factors: the code wraps the right one in a GROUPING, the comment
      does not. */
  lemma TermTwoFactors(ts: seq<Token>, i: nat, f1: Parsed<PExpr>, f2: Parsed<PExpr>)
    requires Factor(ts, i) == Success(f1) && f1.next < |ts| && MultiplyingKind(ts[f1.next].kind)
    requires Factor(ts, f1.next + 1) == Success(f2) && f2.next < |ts| && !MultiplyingKind(ts[f2.next].kind)
    ensures Term(ts, i) == Success(Parsed(Binary(ts[f1.next], f1.value, Grouping(f2.value)), f2.next))
    ensures TermIntended(ts, i) == Success(Parsed(Binary(ts[f1.next], f1.value, f2.value), f2.next))
  {
    TermStart(ts, i, f1);
    TermStart(ts, f1.next + 1, f2);
    TermStop(ts, f2.next, f2.value);
    TermStep(ts, f1.next, f1.value, Parsed(Grouping(f2.value), f2.next));
    TermIntendedStart(ts, i, f1);
    TermIntendedStep(ts, f1.next, f1.value, true, f2);
    TermIntendedStop(ts, f2.next, Binary(ts[f1.next], f1.value, f2.value), false);
  }

  /** Three factors as written: nested to the right, `f1 op1 (f2 op2 f3)`,
      so `8 / 4 / 2` divides 8 by the quotient of 4 and 2. */
  lemma TermNestsRight(ts: seq<Token>, i: nat, f1: Parsed<PExpr>, f2: Parsed<PExpr>, f3: Parsed<PExpr>)
    requires Factor(ts, i) == Success(f1) && f1.next < |ts| && MultiplyingKind(ts[f1.next].kind)
    requires Factor(ts, f1.next + 1) == Success(f2) && f2.next < |ts| && MultiplyingKind(ts[f2.next].kind)
    requires Factor(ts, f2.next + 1) == Success(f3) && f3.next < |ts| && !MultiplyingKind(ts[f3.next].kind)
    ensures Term(ts, i)
         == Success(Parsed(Binary(ts[f1.next], f1.value, Binary(ts[f2.next], f2.value, Grouping(f3.value))), f3.next))
  {
    var t3 := Parsed(Grouping(f3.value), f3.next);
    TermStart(ts, f2.next + 1, f3);
    TermStop(ts, f3.next, f3.value);
    var t2 := Parsed(Binary(ts[f2.next], f2.value, t3.value), f3.next);
    TermStep(ts, f2.next, f2.value, t3);
    TermStart(ts, f1.next + 1, f2);
    TermStep(ts, f1.next, f1.value, t2);
    TermStart(ts, i, f1);
  }

  /** Three factors as the comment shows them: nested to the left,
      `(f1 op1 f2) op2 f3`. */
  lemma TermIntendedNestsLeft(ts: seq<Token>, i: nat, f1: Parsed<PExpr>, f2: Parsed<PExpr>, f3: Parsed<PExpr>)
    requires Factor(ts, i) == Success(f1) && f1.next < |ts| && MultiplyingKind(ts[f1.next].kind)
    requires Factor(ts, f1.next + 1) == Success(f2) && f2.next < |ts| && MultiplyingKind(ts[f2.next].kind)
    requires Factor(ts, f2.next + 1) == Success(f3) && f3.next < |ts| && !MultiplyingKind(ts[f3.next].kind)
    ensures TermIntended(ts, i)
         == Success(Parsed(Binary(ts[f2.next], Binary(ts[f1.next], f1.value, f2.value), f3.value), f3.next))
  {
    TermIntendedStart(ts, i, f1);
    TermIntendedStep(ts, f1.next, f1.value, true, f2);
    var acc := Binary(ts[f1.next], f1.value, f2.value);
    TermIntendedStep(ts, f2.next, acc, false, f3);
    TermIntendedStop(ts, f3.next, Binary(ts[f2.next], acc, f3.value), false);
  }
}
