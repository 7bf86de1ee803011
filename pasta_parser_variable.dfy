/** Variable references (libpasta/parser-variable.c).

    After the identifier, the loop dispatches on its local `token`: first
    the token peeked after the identifier, later the last token it took.
    Each `^` or `[` takes the token at the position and dispatches on that
    one; a `.` takes one token as the node's token and then an identifier,
    after which the loop ends. The identifier read first is not kept in
    the tree. */
module PastaParserVariable {
  import opened Wrappers
  import opened PastaToken
  import opened Ast
  import opened PastaParser
  import opened PastaParserCommon

  /** The suffix loop at position `i`, dispatching on `token`, with the
      suffix nodes `nodes` built so far (to be linked through `exp_left`). */
  function SuffixLoop(ts: seq<Token>, i: nat, token: Token, nodes: seq<PExpr>): (r: Outcome<PExpr>)
    requires i <= |ts|
    ensures r.Success? ==> i <= r.value.next <= |ts|
    decreases |ts| - i
  {
    if token.kind == TOK_CARET then
      var t :- TokenAt(ts, i);
      SuffixLoop(ts, t.next, t.value, nodes + [Unary(t.value, Null)])
    else if token.kind == TOK_LBRACKET then
      var t :- TokenAt(ts, i);
      SuffixLoop(ts, t.next, t.value, nodes)
    else if token.kind == TOK_DOT then
      var t :- TokenAt(ts, i);
      var id :- TokenExpect(ts, t.next, TOK_IDENTIFIER);
      SuffixLoop(ts, id.next, id.value, nodes + [Binary(t.value, Null, Literal(id.value))])
    else Success(Parsed(Unary(token, LeftLinked(nodes)), i))
  }

  /** `parser_variable`. */
  function Variable(ts: seq<Token>, i: nat): (r: Outcome<PExpr>)
    ensures r.Success? ==> i < r.value.next <= |ts|
  {
    var first :- TokenAt(ts, i);
    if first.value.kind != TOK_IDENTIFIER then Failure(SyntaxError(first.value))
    else
      var token :- PeekAt(ts, first.next);
      SuffixLoop(ts, first.next, token, [])
  }

  method ParseVariable(p: Parser) returns (r: Result<PExpr, ParseError>)
    modifies p`pos
    ensures Pack(r, p.pos) == Variable(p.tokens, old(p.pos))
  {
    var first :- p.Token();
    if first.kind != TOK_IDENTIFIER {
      return Failure(SyntaxError(first));
    }
    var token :- p.Peek();
    var nodes: seq<PExpr> := [];
    ghost var goal := SuffixLoop(p.tokens, p.pos, token, nodes);
    while true
      invariant p.pos <= |p.tokens| && SuffixLoop(p.tokens, p.pos, token, nodes) == goal
      decreases |p.tokens| - p.pos
    {
      if token.kind == TOK_CARET {
        token :- p.Token();
        nodes := nodes + [Unary(token, Null)];
      } else if token.kind == TOK_LBRACKET {
        token :- p.Token();
      } else if token.kind == TOK_DOT {
        var t :- p.Token();
        token :- ParseTokenExpect(p, TOK_IDENTIFIER);
        nodes := nodes + [Binary(t, Null, Literal(token))];
      } else {
        return Success(Unary(token, LeftLinked(nodes)));
      }
    }
  }

  /** The first token must be an identifier. */
  lemma NotIdentifier(ts: seq<Token>, i: nat)
    requires i < |ts| && ts[i].kind != TOK_IDENTIFIER
    ensures Variable(ts, i) == Failure(SyntaxError(ts[i]))
  {
  }

  /** With no suffix, only the identifier is taken, and the tree is a UNARY
      on the token after it. */
  lemma NoSuffix(ts: seq<Token>, i: nat)
    requires i + 1 < |ts| && ts[i].kind == TOK_IDENTIFIER
    requires ts[i + 1].kind != TOK_CARET && ts[i + 1].kind != TOK_LBRACKET && ts[i + 1].kind != TOK_DOT
    ensures Variable(ts, i) == Success(Parsed(Unary(ts[i + 1], Null), i + 1))
  {
  }

  /** A `^` or `[` dispatch takes exactly the token at the position and
      dispatches on it next; `^` adds a UNARY node on it, `[` adds nothing. */
  lemma PointerAndIndexStep(ts: seq<Token>, i: nat, token: Token, nodes: seq<PExpr>)
    requires i < |ts|
    ensures token.kind == TOK_CARET ==> SuffixLoop(ts, i, token, nodes) == SuffixLoop(ts, i + 1, ts[i], nodes + [Unary(ts[i], Null)])
    ensures token.kind == TOK_LBRACKET ==> SuffixLoop(ts, i, token, nodes) == SuffixLoop(ts, i + 1, ts[i], nodes)
  {
  }

  /** A `.` dispatch takes two tokens, the second an identifier (or an
      error on it), adds `BINARY(_, _, LITERAL id)` and ends the loop on
      the identifier. */
  lemma FieldSuffix(ts: seq<Token>, i: nat, token: Token, nodes: seq<PExpr>)
    requires i + 1 < |ts| && token.kind == TOK_DOT
    ensures ts[i + 1].kind == TOK_IDENTIFIER ==>
      SuffixLoop(ts, i, token, nodes) == Success(Parsed(Unary(ts[i + 1], LeftLinked(nodes + [Binary(ts[i], Null, Literal(ts[i + 1]))])), i + 2))
    ensures ts[i + 1].kind != TOK_IDENTIFIER ==> SuffixLoop(ts, i, token, nodes) == Failure(SyntaxError(ts[i + 1]))
  {
  }

  /** As written: `p^ := 1` takes the `:=` into the variable, since the
      second dispatch is on the `^` just taken; and for `x := 1` the tree
      holds `:=`, not `x`. The root is the `:=` in both. */
  lemma SwallowsFollowingToken(ts: seq<Token>)
    requires |ts| == 5 && ts[0].kind == TOK_IDENTIFIER && ts[1].kind == TOK_CARET
    requires ts[2].kind == TOK_ASSIGN && ts[3].kind == TOK_DIGIT && ts[4].kind == TOK_EOF
    ensures Variable(ts, 0) == Success(Parsed(Unary(ts[2], LeftLinked([Unary(ts[1], Null), Unary(ts[2], Null)])), 3))
    ensures Variable(ts[1..], 0).Failure?
    ensures Variable([ts[0]] + ts[2..], 0) == Success(Parsed(Unary(ts[2], Null), 1))
  {
    PointerAndIndexStep(ts, 1, ts[1], []);
    PointerAndIndexStep(ts, 2, ts[1], [Unary(ts[1], Null)]);
    assert ts[1..][0].kind == TOK_CARET && ts[1..][1].kind == TOK_ASSIGN;
    assert ([ts[0]] + ts[2..])[1] == ts[2];
  }

  /** The suffix loop as evidently intended: it dispatches on the token at
      the position, takes only suffix tokens, and keeps the identifier. */
  function IntendedLoop(ts: seq<Token>, i: nat, id: Token, nodes: seq<PExpr>): (r: Outcome<PExpr>)
    ensures r.Success? ==> i <= r.value.next < |ts|
    decreases |ts| - i
  {
    var token :- PeekAt(ts, i);
    if token.kind == TOK_CARET then IntendedLoop(ts, i + 1, id, nodes + [Unary(token, Null)])
    else if token.kind == TOK_LBRACKET then IntendedLoop(ts, i + 1, id, nodes)
    else if token.kind == TOK_DOT then
      var field :- TokenExpect(ts, i + 1, TOK_IDENTIFIER);
      IntendedLoop(ts, field.next, id, nodes + [Binary(token, Null, Literal(field.value))])
    else Success(Parsed(Unary(id, LeftLinked(nodes)), i))
  }

  /** `parser_variable` as evidently intended. */
  function VariableIntended(ts: seq<Token>, i: nat): Outcome<PExpr> {
    var first :- TokenExpect(ts, i, TOK_IDENTIFIER);
    IntendedLoop(ts, first.next, first.value, [])
  }

  /** The intended loop stops, without taking it, at the first token that
      does not continue the suffix, and the tree's root holds the identifier. */
  lemma {:induction false} IntendedStops(ts: seq<Token>, i: nat, id: Token, nodes: seq<PExpr>)
    requires IntendedLoop(ts, i, id, nodes).Success?
    ensures var r := IntendedLoop(ts, i, id, nodes).value;
      r.value.Node? && r.value.token == Some(id) && r.value.kind == UNARY
      && ts[r.next].kind != TOK_CARET && ts[r.next].kind != TOK_LBRACKET && ts[r.next].kind != TOK_DOT
    decreases |ts| - i
  {
    if ts[i].kind == TOK_CARET {
      IntendedStops(ts, i + 1, id, nodes + [Unary(ts[i], Null)]);
    } else if ts[i].kind == TOK_LBRACKET {
      IntendedStops(ts, i + 1, id, nodes);
    } else if ts[i].kind == TOK_DOT {
      IntendedStops(ts, i + 2, id, nodes + [Binary(ts[i], Null, Literal(ts[i + 1]))]);
    }
  }

  /** As intended, `p^ := 1` stops before the `:=` and `x := 1` keeps `x`. */
  lemma IntendedKeepsAssign(ts: seq<Token>)
    requires |ts| == 5 && ts[0].kind == TOK_IDENTIFIER && ts[1].kind == TOK_CARET
    requires ts[2].kind == TOK_ASSIGN && ts[3].kind == TOK_DIGIT && ts[4].kind == TOK_EOF
    ensures VariableIntended(ts, 0) == Success(Parsed(Unary(ts[0], LeftLinked([Unary(ts[1], Null)])), 2))
    ensures VariableIntended([ts[0]] + ts[2..], 0) == Success(Parsed(Unary(ts[0], Null), 1))
  {
    assert PeekAt(ts, 1) == Success(ts[1]);
    assert [] + [Unary(ts[1], Null)] == [Unary(ts[1], Null)];
    assert IntendedLoop(ts, 1, ts[0], []) == IntendedLoop(ts, 2, ts[0], [Unary(ts[1], Null)]);
    assert IntendedLoop(ts, 2, ts[0], [Unary(ts[1], Null)]) == Success(Parsed(Unary(ts[0], LeftLinked([Unary(ts[1], Null)])), 2));
    assert ([ts[0]] + ts[2..])[1] == ts[2];
  }
}
