/** Constants, signed and unsigned (libpasta/parser-constant.c). */
module PastaParserConstant {
  import opened Wrappers
  import opened PastaToken
  import opened Ast
  import opened PastaParser

  /** The kinds that are an unsigned constant on their own. */
  predicate UnsignedKind(k: TokenType) {
    k == TOK_STRING || k == TOK_NIL || k == TOK_DIGIT || k == TOK_IDENTIFIER
  }

  predicate SignKind(k: TokenType) {
    k == TOK_PLUS || k == TOK_MINUS
  }

  /** `parser_unsigned_constant`. */
  function UnsignedConstant(ts: seq<Token>, i: nat): (r: Outcome<PExpr>)
    ensures r.Success? ==> r.value.next == i + 1 <= |ts|
  {
    var t :- TokenAt(ts, i);
    if UnsignedKind(t.value.kind) then Success(Parsed(Literal(t.value), t.next))
    else Failure(SyntaxError(t.value))
  }

  method ParseUnsignedConstant(p: Parser) returns (r: Result<PExpr, ParseError>)
    modifies p`pos
    ensures Pack(r, p.pos) == UnsignedConstant(p.tokens, old(p.pos))
  {
    var t :- p.Token();
    if UnsignedKind(t.kind) {
      return Success(Literal(t));
    }
    return Failure(SyntaxError(t));
  }

  /** `parser_constant`: an unsigned constant, or a sign and then an
      identifier or a number. */
  function Constant(ts: seq<Token>, i: nat): (r: Outcome<PExpr>)
    ensures r.Success? ==> i < r.value.next <= |ts|
  {
    var token :- PeekAt(ts, i);
    if UnsignedKind(token.kind) then UnsignedConstant(ts, i)
    else if !SignKind(token.kind) then Failure(SyntaxError(token))
    else
      var sign :- TokenAt(ts, i);
      var t :- TokenAt(ts, sign.next);
      if t.value.kind == TOK_IDENTIFIER || t.value.kind == TOK_DIGIT then
        Success(Parsed(Unary(sign.value, Literal(t.value)), t.next))
      else Failure(SyntaxError(t.value))
  }

  method ParseConstant(p: Parser) returns (r: Result<PExpr, ParseError>)
    modifies p`pos
    ensures Pack(r, p.pos) == Constant(p.tokens, old(p.pos))
  {
    var token :- p.Peek();
    if UnsignedKind(token.kind) {
      r := ParseUnsignedConstant(p);
      return;
    }
    if !SignKind(token.kind) {
      return Failure(SyntaxError(token));
    }
    var sign :- p.Token();
    var t :- p.Token();
    if t.kind == TOK_IDENTIFIER || t.kind == TOK_DIGIT {
      return Success(Unary(sign, Literal(t)));
    }
    return Failure(SyntaxError(t));
  }

  /** An unsigned constant is one token of the four kinds, as a LITERAL;
      any other token is an error on it. */
  lemma UnsignedConstantExact(ts: seq<Token>, i: nat)
    ensures UnsignedConstant(ts, i).Success? <==> i < |ts| && UnsignedKind(ts[i].kind)
    ensures UnsignedConstant(ts, i).Success? ==> UnsignedConstant(ts, i).value == Parsed(Literal(ts[i]), i + 1)
    ensures i < |ts| && !UnsignedKind(ts[i].kind) ==> UnsignedConstant(ts, i) == Failure(SyntaxError(ts[i]))
  {
  }

  /** Without a sign a constant is an unsigned constant; with one, it is the
      sign over the literal that follows, two tokens in all. */
  lemma ConstantCases(ts: seq<Token>, i: nat)
    requires i < |ts|
    ensures UnsignedKind(ts[i].kind) ==> Constant(ts, i) == UnsignedConstant(ts, i)
    ensures SignKind(ts[i].kind) && i + 1 < |ts| && (ts[i + 1].kind == TOK_IDENTIFIER || ts[i + 1].kind == TOK_DIGIT)
      ==> Constant(ts, i) == Success(Parsed(Unary(ts[i], Literal(ts[i + 1])), i + 2))
    ensures SignKind(ts[i].kind) && i + 1 < |ts| && !(ts[i + 1].kind == TOK_IDENTIFIER || ts[i + 1].kind == TOK_DIGIT)
      ==> Constant(ts, i) == Failure(SyntaxError(ts[i + 1]))
    ensures !UnsignedKind(ts[i].kind) && !SignKind(ts[i].kind) ==> Constant(ts, i) == Failure(SyntaxError(ts[i]))
  {
  }
}
