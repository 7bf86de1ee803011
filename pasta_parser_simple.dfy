/** Literals made from single tokens (libpasta/parser-simple.c). */
module PastaParserSimple {
  import opened Wrappers
  import opened PastaToken
  import opened Ast
  import opened PastaParser
  import opened PastaParserCommon

  /** Every character of `s` is a decimal digit. */
  predicate AllDigits(s: string) {
    forall k :: 0 <= k < |s| ==> '0' <= s[k] <= '9'
  }

  /** `parser_identifier`. */
  function Identifier(ts: seq<Token>, i: nat): (r: Outcome<PExpr>)
    ensures r.Success? <==> i < |ts| && ts[i].kind == TOK_IDENTIFIER
    ensures r.Success? ==> r.value == Parsed(Literal(ts[i]), i + 1)
    ensures r.Failure? ==> r == Failure(if i < |ts| then SyntaxError(ts[i]) else PastEnd)
  {
    var t :- TokenExpect(ts, i, TOK_IDENTIFIER);
    Success(Parsed(Literal(t.value), t.next))
  }

  method ParseIdentifier(p: Parser) returns (r: Result<PExpr, ParseError>)
    modifies p`pos
    ensures Pack(r, p.pos) == Identifier(p.tokens, old(p.pos))
  {
    var t :- ParseTokenExpect(p, TOK_IDENTIFIER);
    return Success(Literal(t));
  }

  /** `parser_unsigned_number`: any TOK_DIGIT, whatever its lexeme. */
  function UnsignedNumber(ts: seq<Token>, i: nat): (r: Outcome<PExpr>)
    ensures r.Success? <==> i < |ts| && ts[i].kind == TOK_DIGIT
    ensures r.Success? ==> r.value == Parsed(Literal(ts[i]), i + 1)
    ensures r.Failure? ==> r == Failure(if i < |ts| then SyntaxError(ts[i]) else PastEnd)
  {
    var t :- TokenExpect(ts, i, TOK_DIGIT);
    Success(Parsed(Literal(t.value), t.next))
  }

  method ParseUnsignedNumber(p: Parser) returns (r: Result<PExpr, ParseError>)
    modifies p`pos
    ensures Pack(r, p.pos) == UnsignedNumber(p.tokens, old(p.pos))
  {
    var t :- ParseTokenExpect(p, TOK_DIGIT);
    return Success(Literal(t));
  }

  /** `parser_unsigned_integer`: a TOK_DIGIT whose text is digits only. */
  function UnsignedInteger(ts: seq<Token>, i: nat): Outcome<PExpr> {
    var t :- TokenExpect(ts, i, TOK_DIGIT);
    if t.value.meta.None? || !AllDigits(t.value.meta.value) then Failure(SyntaxError(t.value))
    else Success(Parsed(Literal(t.value), t.next))
  }

  /** The walk over `meta` stops with an error at the first non-digit. */
  method ParseUnsignedInteger(p: Parser) returns (r: Result<PExpr, ParseError>)
    modifies p`pos
    ensures Pack(r, p.pos) == UnsignedInteger(p.tokens, old(p.pos))
  {
    var t :- ParseTokenExpect(p, TOK_DIGIT);
    if t.meta.None? {
      return Failure(SyntaxError(t));
    }
    var value := t.meta.value;
    var k := 0;
    while k < |value|
      invariant 0 <= k <= |value|
      invariant forall j :: 0 <= j < k ==> '0' <= value[j] <= '9'
    {
      if value[k] < '0' || value[k] > '9' {
        return Failure(SyntaxError(t));
      }
      k := k + 1;
    }
    return Success(Literal(t));
  }

  /** An unsigned integer is a DIGIT token with a meta of digits only; it
      yields the same tree as an unsigned number. */
  lemma UnsignedIntegerExact(ts: seq<Token>, i: nat)
    ensures UnsignedInteger(ts, i).Success? <==>
      i < |ts| && ts[i].kind == TOK_DIGIT && ts[i].meta.Some? && AllDigits(ts[i].meta.value)
    ensures UnsignedInteger(ts, i).Success? ==> UnsignedInteger(ts, i) == UnsignedNumber(ts, i)
    ensures UnsignedInteger(ts, i).Failure? && i < |ts| ==> UnsignedInteger(ts, i).error == SyntaxError(ts[i])
  {
  }

  /** `12` is an integer, `1.5` and `4e11` are numbers only, and a DIGIT
      token without text is no integer. */
  lemma IntegerExamples(t: Token)
    ensures UnsignedInteger([t.(kind := TOK_DIGIT, meta := Some("12"))], 0).Success?
    ensures UnsignedInteger([t.(kind := TOK_DIGIT, meta := Some("1.5"))], 0).Failure?
    ensures UnsignedInteger([t.(kind := TOK_DIGIT, meta := Some("4e11"))], 0).Failure?
    ensures UnsignedNumber([t.(kind := TOK_DIGIT, meta := Some("4e11"))], 0).Success?
    ensures UnsignedInteger([t.(kind := TOK_DIGIT, meta := None)], 0).Failure?
  {
    assert "1.5"[1] == '.';
    assert "4e11"[1] == 'e';
  }
}
