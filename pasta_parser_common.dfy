/** Shared parsing steps of libpasta (libpasta/parser-common.c): expecting a
    token of one kind, and comma-separated identifier lists. */
module PastaParserCommon {
  import opened Wrappers
  import opened PastaToken
  import opened Ast
  import opened PastaParser

  /** `parser_token_expect`: takes the next token; it must be of `kind`. */
  function TokenExpect(ts: seq<Token>, i: nat, kind: TokenType): (r: Outcome<Token>)
    ensures r.Success? <==> i < |ts| && ts[i].kind == kind
    ensures r.Success? ==> r.value == Parsed(ts[i], i + 1)
    ensures r.Failure? ==> r.error == if i < |ts| then SyntaxError(ts[i]) else PastEnd
  {
    var t :- TokenAt(ts, i);
    if t.value.kind != kind then Failure(SyntaxError(t.value)) else Success(t)
  }

  method ParseTokenExpect(p: Parser, kind: TokenType) returns (r: Result<Token, ParseError>)
    modifies p`pos
    ensures Pack(r, p.pos) == TokenExpect(p.tokens, old(p.pos), kind)
  {
    r := p.Token();
    if r.Success? && r.value.kind != kind {
      r := Failure(SyntaxError(r.value));
    }
  }

  /** The loop of `parser_identifier_list` once the identifiers `ids` are
      taken: an identifier, then a comma to go on or anything else to stop. */
  function IdListLoop(ts: seq<Token>, i: nat, ids: seq<Token>): (r: Outcome<PExpr>)
    ensures r.Success? ==> i < r.value.next <= |ts|
    decreases |ts| - i
  {
    var t :- TokenExpect(ts, i, TOK_IDENTIFIER);
    var peek :- PeekAt(ts, t.next);
    if peek.kind != TOK_COMMA then Success(Parsed(UnaryChain(ids + [t.value]), t.next))
    else
      var c :- TokenExpect(ts, t.next, TOK_COMMA);
      IdListLoop(ts, c.next, ids + [t.value])
  }

  /** `parser_identifier_list`. */
  function IdentifierList(ts: seq<Token>, i: nat): (r: Outcome<PExpr>)
    ensures r.Success? ==> i < r.value.next <= |ts|
  {
    IdListLoop(ts, i, [])
  }

  method ParseIdentifierList(p: Parser) returns (r: Result<PExpr, ParseError>)
    modifies p`pos
    ensures Pack(r, p.pos) == IdentifierList(p.tokens, old(p.pos))
  {
    ghost var goal := IdentifierList(p.tokens, p.pos);
    var ids: seq<Token> := [];
    while true
      invariant IdListLoop(p.tokens, p.pos, ids) == goal
      decreases |p.tokens| - p.pos
    {
      var t :- ParseTokenExpect(p, TOK_IDENTIFIER);
      ids := ids + [t];
      var peek :- p.Peek();
      if peek.kind != TOK_COMMA {
        return Success(UnaryChain(ids));
      }
      var _ :- ParseTokenExpect(p, TOK_COMMA);
    }
  }

  /** The grammar `IDENT (, IDENT)*` with `n` identifiers from `i`, followed
      by a token that is not a comma. */
  predicate IdentListForm(ts: seq<Token>, i: nat, n: nat)
    decreases n
  {
    n >= 1 && i + 1 < |ts| && ts[i].kind == TOK_IDENTIFIER
    && (if n == 1 then ts[i + 1].kind != TOK_COMMA
        else ts[i + 1].kind == TOK_COMMA && IdentListForm(ts, i + 2, n - 1))
  }

  /** The identifiers, at every second position from `i`. */
  function Names(ts: seq<Token>, i: nat, n: nat): seq<Token>
    requires i + 2 * n <= |ts| + 1
    decreases n
  {
    if n == 0 then [] else [ts[i]] + Names(ts, i + 2, n - 1)
  }

  /** How many identifiers a list from `i` holds: one more for each comma. */
  function ListCount(ts: seq<Token>, i: nat): (n: nat)
    decreases |ts| - i
  {
    if i + 1 < |ts| && ts[i + 1].kind == TOK_COMMA then 1 + ListCount(ts, i + 2) else 1
  }

  lemma {:induction false} LoopOnForm(ts: seq<Token>, i: nat, n: nat, ids: seq<Token>)
    requires IdentListForm(ts, i, n)
    ensures i + 2 * n <= |ts|
    ensures IdListLoop(ts, i, ids) == Success(Parsed(UnaryChain(ids + Names(ts, i, n)), i + 2 * n - 1))
    decreases n
  {
    if n == 1 {
      assert Names(ts, i, n) == [ts[i]];
      assert TokenExpect(ts, i, TOK_IDENTIFIER) == Success(Parsed(ts[i], i + 1));
      assert PeekAt(ts, i + 1) == Success(ts[i + 1]);
    } else {
      LoopOnForm(ts, i + 2, n - 1, ids + [ts[i]]);
      assert ids + [ts[i]] + Names(ts, i + 2, n - 1) == ids + Names(ts, i, n);
    }
  }

  lemma {:induction false} FormOfLoop(ts: seq<Token>, i: nat, ids: seq<Token>)
    requires IdListLoop(ts, i, ids).Success?
    ensures IdentListForm(ts, i, ListCount(ts, i))
    decreases |ts| - i
  {
    if i + 1 < |ts| && ts[i + 1].kind == TOK_COMMA {
      FormOfLoop(ts, i + 2, ids + [ts[i]]);
    }
  }

  /** A list of `n` identifiers is accepted exactly when it has the grammar's
      form; it consumes 2n-1 tokens, stops before the first non-comma after
      an identifier, and yields one UNARY node per identifier, in order. */
  lemma IdentifierListExact(ts: seq<Token>, i: nat)
    ensures IdentifierList(ts, i).Success? <==> IdentListForm(ts, i, ListCount(ts, i))
    ensures forall n: nat :: IdentListForm(ts, i, n) ==>
      i + 2 * n <= |ts| && IdentifierList(ts, i) == Success(Parsed(UnaryChain(Names(ts, i, n)), i + 2 * n - 1))
  {
    if IdentifierList(ts, i).Success? {
      FormOfLoop(ts, i, []);
    }
    if IdentListForm(ts, i, ListCount(ts, i)) {
      LoopOnForm(ts, i, ListCount(ts, i), []);
    }
    forall n: nat | IdentListForm(ts, i, n)
      ensures i + 2 * n <= |ts| && IdentifierList(ts, i) == Success(Parsed(UnaryChain(Names(ts, i, n)), i + 2 * n - 1))
    {
      LoopOnForm(ts, i, n, []);
      assert [] + Names(ts, i, n) == Names(ts, i, n);
    }
  }

  /** A comma not followed by an identifier is an error on that token. */
  lemma {:induction false} DanglingComma(ts: seq<Token>, i: nat, ids: seq<Token>)
    requires i + 2 < |ts| && ts[i].kind == TOK_IDENTIFIER && ts[i + 1].kind == TOK_COMMA
    requires ts[i + 2].kind != TOK_IDENTIFIER
    ensures IdListLoop(ts, i, ids) == Failure(SyntaxError(ts[i + 2]))
  {
  }
}
