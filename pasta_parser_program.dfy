/** Programs (libpasta/parser-program.c): `program id [( ids )] ; block .`. */
module PastaParserProgram {
  import opened Wrappers
  import opened PastaToken
  import opened Ast
  import opened PastaParser
  import opened PastaParserCommon
  import opened PastaParserSimple
  import opened PastaParserBlock

  /** `parser_program`: BINARY(PROGRAM, id-node, block); the final `.` is
      required. */
  function Program(ts: seq<Token>, i: nat): (r: Outcome<PExpr>)
    ensures r.Success? ==> i < r.value.next <= |ts|
  {
    var programkw :- TokenExpect(ts, i, TOK_PROGRAM);
    var ident :- ProgIdent(ts, programkw.next);
    var semi :- TokenExpect(ts, ident.next, TOK_SEMICOLON);
    var block :- Block(ts, semi.next);
    var dot :- TokenExpect(ts, block.next, TOK_DOT);
    Success(Parsed(Binary(programkw.value, ident.value, block.value), dot.next))
  }

  /** `progident`: the identifier's LITERAL, promoted in place to UNARY
      over the parameters when a `(` follows. */
  function ProgIdent(ts: seq<Token>, i: nat): (r: Outcome<PExpr>)
    ensures r.Success? ==> i < r.value.next <= |ts|
  {
    var ident :- Identifier(ts, i);
    var token :- PeekAt(ts, ident.next);
    if token.kind == TOK_LPAREN then
      var params :- ProgParam(ts, ident.next);
      Success(Parsed(ident.value.(kind := UNARY, left := params.value), params.next))
    else Success(ident)
  }

  /** The parameter chain `progparam` builds from the identifiers `ids`:
      the last stays a LITERAL, each earlier one is promoted to UNARY with
      the next one as its left child. */
  function ParamChain(ids: seq<Token>): (e: PExpr)
    requires |ids| > 0
    ensures e.Node? && e.token == Some(ids[0])
    decreases |ids|
  {
    if |ids| == 1 then Literal(ids[0]) else Unary(ids[0], ParamChain(ids[1..]))
  }

  /** `progparam`: `( id (, id)* )`. */
  function ProgParam(ts: seq<Token>, i: nat): (r: Outcome<PExpr>)
    ensures r.Success? ==> i < r.value.next <= |ts|
  {
    var lparen :- TokenExpect(ts, i, TOK_LPAREN);
    ProgParamLoop(ts, lparen.next, [])
  }

  /** The loop of `progparam` once the identifiers `ids` are taken. */
  function ProgParamLoop(ts: seq<Token>, i: nat, ids: seq<Token>): (r: Outcome<PExpr>)
    ensures r.Success? ==> i < r.value.next <= |ts|
    decreases |ts| - i
  {
    var id :- Identifier(ts, i);
    var peek :- PeekAt(ts, id.next);
    if peek.kind == TOK_COMMA then ProgParamLoop(ts, id.next + 1, ids + [ts[i]])
    else if peek.kind == TOK_RPAREN then Success(Parsed(ParamChain(ids + [ts[i]]), id.next + 1))
    else Failure(SyntaxError(peek))
  }

  method ParseProgram(p: Parser) returns (r: Result<PExpr, ParseError>)
    modifies p`pos
    ensures Pack(r, p.pos) == Program(p.tokens, old(p.pos))
  {
    var programkw :- ParseTokenExpect(p, TOK_PROGRAM);
    var ident :- ParseProgIdent(p);
    var _ :- ParseTokenExpect(p, TOK_SEMICOLON);
    var block :- ParseBlock(p);
    var _ :- ParseTokenExpect(p, TOK_DOT);
    return Success(Binary(programkw, ident, block));
  }

  method ParseProgIdent(p: Parser) returns (r: Result<PExpr, ParseError>)
    modifies p`pos
    ensures Pack(r, p.pos) == ProgIdent(p.tokens, old(p.pos))
  {
    var ident :- ParseIdentifier(p);
    var token :- p.Peek();
    if token.kind == TOK_LPAREN {
      var params :- ParseProgParam(p);
      return Success(ident.(kind := UNARY, left := params));
    }
    return Success(ident);
  }

  method ParseProgParam(p: Parser) returns (r: Result<PExpr, ParseError>)
    modifies p`pos
    ensures Pack(r, p.pos) == ProgParam(p.tokens, old(p.pos))
  {
    var _ :- ParseTokenExpect(p, TOK_LPAREN);
    var ids: seq<Token> := [];
    ghost var goal := ProgParamLoop(p.tokens, p.pos, ids);
    while true
      invariant ProgParamLoop(p.tokens, p.pos, ids) == goal
      decreases |p.tokens| - p.pos
    {
      var id :- ParseIdentifier(p);
      ids := ids + [id.token.value];
      var peek :- p.Peek();
      if peek.kind == TOK_RPAREN {
        var _ := p.Token();
        return Success(ParamChain(ids));
      }
      if peek.kind != TOK_COMMA {
        return Failure(SyntaxError(peek));
      }
      var _ := p.Token();
    }
  }

  /** A parameter chain holds the identifiers in source order along
      `exp_left`: UNARY nodes, then a LITERAL of the last one. */
  lemma {:induction false} ParamChainOrder(ids: seq<Token>)
    requires |ids| > 0
    ensures |LeftSpine(ParamChain(ids))| == |ids|
    ensures forall k :: 0 <= k < |ids| ==> LeftSpine(ParamChain(ids))[k].token == Some(ids[k])
    ensures forall k :: 0 <= k < |ids| ==>
      LeftSpine(ParamChain(ids))[k].kind == (if k == |ids| - 1 then LITERAL else UNARY)
      && LeftSpine(ParamChain(ids))[k].right.Null?
    decreases |ids|
  {
    if |ids| > 1 {
      ParamChainOrder(ids[1..]);
    }
  }

  /** The nodes met along `exp_left` from `e`. */
  function LeftSpine(e: PExpr): (s: seq<PExpr>)
    ensures forall k :: 0 <= k < |s| ==> s[k].Node?
    decreases e
  {
    if e.Null? then [] else [e] + LeftSpine(e.left)
  }

  /** Without parameters the id-node is LITERAL(id), and the whole program
      is BINARY(PROGRAM, LITERAL id, block) closed by the `.`. */
  lemma {:induction false} ProgramExact(ts: seq<Token>, i: nat, block: Parsed<PExpr>)
    requires i + 2 < |ts| && ts[i].kind == TOK_PROGRAM && ts[i + 1].kind == TOK_IDENTIFIER
    requires ts[i + 2].kind == TOK_SEMICOLON && Block(ts, i + 3) == Success(block)
    ensures block.next < |ts| && ts[block.next].kind == TOK_DOT ==>
      Program(ts, i) == Success(Parsed(Binary(ts[i], Literal(ts[i + 1]), block.value), block.next + 1))
    ensures block.next < |ts| && ts[block.next].kind != TOK_DOT ==>
      Program(ts, i) == Failure(SyntaxError(ts[block.next]))
  {
  }

  /** With parameters the id-node is UNARY(id) over the parameter chain. */
  lemma {:induction false} ProgIdentWithParams(ts: seq<Token>, i: nat, params: Parsed<PExpr>)
    requires i + 1 < |ts| && ts[i].kind == TOK_IDENTIFIER && ts[i + 1].kind == TOK_LPAREN
    requires ProgParam(ts, i + 1) == Success(params)
    ensures ProgIdent(ts, i) == Success(Parsed(Unary(ts[i], params.value), params.next))
  {
  }

  /** After a parameter, a token other than `,` or `)` is an error on it. */
  lemma {:induction false} ProgParamBadSeparator(ts: seq<Token>, i: nat, ids: seq<Token>)
    requires i + 1 < |ts| && ts[i].kind == TOK_IDENTIFIER
    requires ts[i + 1].kind != TOK_COMMA && ts[i + 1].kind != TOK_RPAREN
    ensures ProgParamLoop(ts, i, ids) == Failure(SyntaxError(ts[i + 1]))
  {
  }

  /** `( id (, id)* )` with `n` identifiers, as `IdentListForm` reads them,
      closed by `)`. */
  lemma {:induction false} ProgParamLoopOnForm(ts: seq<Token>, i: nat, n: nat, ids: seq<Token>)
    requires IdentListForm(ts, i, n) && i + 2 * n <= |ts| && ts[i + 2 * n - 1].kind == TOK_RPAREN
    ensures ProgParamLoop(ts, i, ids) == Success(Parsed(ParamChain(ids + Names(ts, i, n)), i + 2 * n))
    decreases n
  {
    if n == 1 {
      assert Names(ts, i, n) == [ts[i]];
    } else {
      ProgParamLoopOnForm(ts, i + 2, n - 1, ids + [ts[i]]);
      assert ids + [ts[i]] + Names(ts, i + 2, n - 1) == ids + Names(ts, i, n);
    }
  }

  /** So a parameter list keeps its identifiers in source order. */
  lemma {:induction false} ProgParamOrder(ts: seq<Token>, i: nat, n: nat)
    requires i < |ts| && ts[i].kind == TOK_LPAREN
    requires IdentListForm(ts, i + 1, n) && i + 2 * n < |ts| && ts[i + 2 * n].kind == TOK_RPAREN
    ensures ProgParam(ts, i) == Success(Parsed(ParamChain(Names(ts, i + 1, n)), i + 2 * n + 1))
    ensures |LeftSpine(ProgParam(ts, i).value.value)| == n
    ensures forall k :: 0 <= k < n ==> LeftSpine(ProgParam(ts, i).value.value)[k].token == Some(ts[i + 1 + 2 * k])
  {
    ProgParamLoopOnForm(ts, i + 1, n, []);
    assert [] + Names(ts, i + 1, n) == Names(ts, i + 1, n);
    NamesAt(ts, i + 1, n);
    ParamChainOrder(Names(ts, i + 1, n));
  }

  /** The `k`-th name is the token at `i + 2k`. */
  lemma {:induction false} NamesAt(ts: seq<Token>, i: nat, n: nat)
    requires i + 2 * n <= |ts| + 1
    ensures |Names(ts, i, n)| == n
    ensures forall k :: 0 <= k < n ==> Names(ts, i, n)[k] == ts[i + 2 * k]
    decreases n
  {
    if n > 0 {
      NamesAt(ts, i + 2, n - 1);
    }
  }
}
