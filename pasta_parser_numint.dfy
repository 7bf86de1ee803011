/** The alternative definitions of the number literals
    (libpasta/parser-unsigned-numint.c). They define the same names as
    libpasta/parser-simple.c, so they live in a module of their own; their
    agreement with that file is proved below. */
module PastaParserNumint {
  import opened Wrappers
  import opened PastaToken
  import opened Ast
  import opened PastaParser
  import opened PastaParserCommon
  import PastaParserSimple

  /** `parser_unsigned_number`. */
  function UnsignedNumber(ts: seq<Token>, i: nat): Outcome<PExpr> {
    var t :- TokenExpect(ts, i, TOK_DIGIT);
    Success(Parsed(Literal(t.value), t.next))
  }

  method ParseUnsignedNumber(p: Parser) returns (r: Result<PExpr, ParseError>)
    modifies p`pos
    ensures Pack(r, p.pos) == UnsignedNumber(p.tokens, old(p.pos))
  {
    var t :- ParseTokenExpect(p, TOK_DIGIT);
    return Success(Literal(t));
  }

  /** The index of the first character of `s` that is not a digit, or |s|. */
  function FirstNonDigit(s: string, k: nat): (r: nat)
    requires k <= |s|
    ensures k <= r <= |s|
    decreases |s| - k
  {
    if k == |s| || s[k] < '0' || s[k] > '9' then k else FirstNonDigit(s, k + 1)
  }

  /** `parser_unsigned_integer`: it fails at the first non-digit of `meta`. */
  function UnsignedInteger(ts: seq<Token>, i: nat): Outcome<PExpr> {
    var t :- TokenExpect(ts, i, TOK_DIGIT);
    if t.value.meta.None? then Failure(SyntaxError(t.value))
    else if FirstNonDigit(t.value.meta.value, 0) < |t.value.meta.value| then Failure(SyntaxError(t.value))
    else Success(Parsed(Literal(t.value), t.next))
  }

  method ParseUnsignedInteger(p: Parser) returns (r: Result<PExpr, ParseError>)
    modifies p`pos
    ensures Pack(r, p.pos) == UnsignedInteger(p.tokens, old(p.pos))
  {
    var t :- ParseTokenExpect(p, TOK_DIGIT);
    if t.meta.None? {
      return Failure(SyntaxError(t));
    }
    var value := t.meta.value;
    var k := 0;
    while k < |value|
      invariant 0 <= k <= |value| && FirstNonDigit(value, k) == FirstNonDigit(value, 0)
    {
      if value[k] < '0' || value[k] > '9' {
        return Failure(SyntaxError(t));
      }
      k := k + 1;
    }
    return Success(Literal(t));
  }

  /** The first-non-digit scan reaches the end exactly when every
      character from `k` on is a digit. */
  lemma {:induction false} FirstNonDigitAll(s: string, k: nat)
    requires k <= |s|
    ensures FirstNonDigit(s, k) == |s| <==> forall j :: k <= j < |s| ==> '0' <= s[j] <= '9'
    ensures FirstNonDigit(s, k) < |s| ==> !('0' <= s[FirstNonDigit(s, k)] <= '9')
    decreases |s| - k
  {
    if k < |s| && '0' <= s[k] <= '9' {
      FirstNonDigitAll(s, k + 1);
    }
  }

  /** Both files accept the same tokens and build the same trees. */
  lemma SameAsSimple(ts: seq<Token>, i: nat)
    ensures UnsignedNumber(ts, i) == PastaParserSimple.UnsignedNumber(ts, i)
    ensures UnsignedInteger(ts, i) == PastaParserSimple.UnsignedInteger(ts, i)
  {
    if i < |ts| && ts[i].meta.Some? {
      FirstNonDigitAll(ts[i].meta.value, 0);
    }
  }

  /** Any DIGIT token is a number; `12` is an integer and `1.5` is not. */
  lemma NumintExamples(t: Token)
    ensures UnsignedNumber([t.(kind := TOK_DIGIT)], 0) == Success(Parsed(Literal(t.(kind := TOK_DIGIT)), 1))
    ensures UnsignedInteger([t.(kind := TOK_DIGIT, meta := Some("12"))], 0).Success?
    ensures UnsignedInteger([t.(kind := TOK_DIGIT, meta := Some("1.5"))], 0).Failure?
    ensures UnsignedInteger([t.(kind := TOK_DIGIT, meta := None)], 0).Failure?
    ensures t.kind != TOK_DIGIT ==> UnsignedNumber([t], 0) == Failure(SyntaxError(t))
    ensures t.kind != TOK_DIGIT ==> UnsignedInteger([t], 0) == Failure(SyntaxError(t))
  {
    assert FirstNonDigit("1.5", 0) == 1 by {
      assert "1.5"[0] == '1' && "1.5"[1] == '.';
    }
    assert FirstNonDigit("12", 0) == 2 by {
      assert "12"[0] == '1' && "12"[1] == '2';
    }
  }
}
