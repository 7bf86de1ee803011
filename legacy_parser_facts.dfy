/** Properties of the token walk of `parser_unsigned_number` (parser.c). */
module LegacyParserFacts {
  import opened Wrappers
  import opened LegacyToken
  import opened Ast
  import opened LegacyParser

  /** The tokens a number is read from, in order. */
  function Spelling(n: UnsignedNum): seq<Token> {
    [n.integer] + FractionSpelling(n.fraction) + ExponentSpelling(n.exponent)
  }

  function FractionSpelling(f: Option<Fraction>): seq<Token> {
    match f
    case None => []
    case Some(fr) => [fr.dot, fr.digits]
  }

  function ExponentSpelling(e: Option<Exponent>): seq<Token> {
    match e
    case None => []
    case Some(x) => [x.marker] + (match x.sign case None => [] case Some(s) => [s]) + [x.digits]
  }

  /** The syntax of an unsigned number:
      DIGIT [DOT DIGIT] [e|E [PLUS|MINUS] DIGIT]. */
  predicate WellFormed(n: UnsignedNum) {
    n.integer.kind == TOK_DIGIT
    && (n.fraction.Some? ==> n.fraction.value.dot.kind == TOK_DOT && n.fraction.value.digits.kind == TOK_DIGIT)
    && (n.exponent.Some? ==>
          ExponentMarker(n.exponent.value.marker) && n.exponent.value.digits.kind == TOK_DIGIT
          && (n.exponent.value.sign.Some? ==>
                n.exponent.value.sign.value.kind == TOK_PLUS || n.exponent.value.sign.value.kind == TOK_MINUS))
  }

  /** What the walk looks at after `n` without taking it: the token after a
      number without an exponent must be there, and must start neither the
      exponent nor, when there is no fraction, the fraction. */
  predicate Ends(n: UnsignedNum, rest: seq<Token>) {
    n.exponent.Some?
    || (|rest| > 0 && !ExponentMarker(rest[0]) && (n.fraction.None? ==> rest[0].kind != TOK_DOT))
  }

  /** The exponent part reads exactly the tokens it spells, and after a
      marker these are a well-formed exponent. */
  lemma ExponentSound(ts: seq<Token>, f: nat)
    requires ExponentPart(ts, f).Success?
    ensures var r := ExponentPart(ts, f).value; ts[f..r.next] == ExponentSpelling(r.value)
    ensures var x := ExponentPart(ts, f).value.value.value;
      x.marker == ts[f] && x.digits.kind == TOK_DIGIT
      && (x.sign.Some? ==> x.sign.value.kind == TOK_PLUS || x.sign.value.kind == TOK_MINUS)
  {
    var r := ExponentPart(ts, f).value;
    var x := r.value.value;
    if ts[f + 1].kind == TOK_PLUS || ts[f + 1].kind == TOK_MINUS {
      assert ts[f..r.next] == [x.marker, x.sign.value, x.digits];
    } else {
      assert ts[f..r.next] == [x.marker, x.digits];
    }
  }

  /** Where the optional fraction of the number at `i` ends. */
  function FractionEnd(ts: seq<Token>, i: nat): nat {
    if i + 1 < |ts| && ts[i + 1].kind == TOK_DOT then i + 3 else i + 1
  }

  /** The integer and fraction tokens of a successful walk. */
  lemma NumberHead(ts: seq<Token>, i: nat)
    requires UnsignedNumber(ts, i).Success?
    ensures var n := UnsignedNumber(ts, i).value.value; var f := FractionEnd(ts, i);
      f < |ts| && ts[i..f] == [n.integer] + FractionSpelling(n.fraction) && n.integer.kind == TOK_DIGIT
      && (n.fraction.Some? ==> n.fraction.value.dot.kind == TOK_DOT && n.fraction.value.digits.kind == TOK_DIGIT)
      && (n.fraction.None? ==> ts[f].kind != TOK_DOT)
  {
    var n := UnsignedNumber(ts, i).value.value;
    var fr := if ts[i + 1].kind == TOK_DOT then FractionPart(ts, i + 1) else Success(Parsed(None, i + 1));
    assert fr.Success? && n.fraction == fr.value.value && fr.value.next == FractionEnd(ts, i);
  }

  /** The exponent of a successful walk is what the exponent part reads
      after the fraction, when a marker is there. */
  lemma NumberTail(ts: seq<Token>, i: nat)
    requires UnsignedNumber(ts, i).Success? && FractionEnd(ts, i) < |ts|
    ensures var r := UnsignedNumber(ts, i).value; var f := FractionEnd(ts, i);
      if ExponentMarker(ts[f]) then
        ExponentPart(ts, f).Success? && r.value.exponent == ExponentPart(ts, f).value.value && r.next == ExponentPart(ts, f).value.next
      else r.value.exponent.None? && r.next == f
  {
    var r := UnsignedNumber(ts, i).value;
    var fr := if ts[i + 1].kind == TOK_DOT then FractionPart(ts, i + 1) else Success(Parsed(None, i + 1));
    assert fr.Success? && fr.value.next == FractionEnd(ts, i);
  }

  /** Two adjacent slices join into one. */
  lemma SliceJoin(ts: seq<Token>, a: nat, b: nat, c: nat)
    requires a <= b <= c <= |ts|
    ensures ts[a..c] == ts[a..b] + ts[b..c]
  {
  }

  /** What a successful walk reads is a well-formed number: exactly the
      tokens it spells, and it stops where the number ends. */
  lemma {:induction false} NumberSound(ts: seq<Token>, i: nat)
    requires UnsignedNumber(ts, i).Success?
    ensures var r := UnsignedNumber(ts, i).value;
      WellFormed(r.value) && ts[i..r.next] == Spelling(r.value) && Ends(r.value, ts[r.next..])
  {
    var r := UnsignedNumber(ts, i).value;
    var f := FractionEnd(ts, i);
    NumberHead(ts, i);
    NumberTail(ts, i);
    if ExponentMarker(ts[f]) {
      ExponentSound(ts, f);
    }
    SliceJoin(ts, i, f, r.next);
  }

  /** Every well-formed number followed by a token that ends it is read
      back whole, consuming exactly its tokens. */
  lemma {:induction false} NumberComplete(n: UnsignedNum, rest: seq<Token>)
    requires WellFormed(n) && Ends(n, rest)
    ensures UnsignedNumber(Spelling(n) + rest, 0) == Success(Parsed(n, |Spelling(n)|))
  {
    var ts := Spelling(n) + rest;
    var f := if n.fraction.Some? then 3 else 1;
    assert ts[0] == n.integer;
    if n.fraction.Some? {
      assert ts[1] == n.fraction.value.dot && ts[2] == n.fraction.value.digits;
      assert FractionPart(ts, 1) == Success(Parsed(n.fraction, 3));
    }
    assert f < |ts|;
    if n.exponent.Some? {
      var x := n.exponent.value;
      assert ts[f] == x.marker;
      if x.sign.Some? {
        assert ts[f + 1] == x.sign.value && ts[f + 2] == x.digits;
        assert ExponentPart(ts, f) == Success(Parsed(n.exponent, f + 3));
      } else {
        assert ts[f + 1] == x.digits;
        assert ExponentPart(ts, f) == Success(Parsed(n.exponent, f + 2));
      }
    } else {
      assert ts[f] == rest[0];
    }
  }

  /** `1.5e-3`, as the scanner splits it. */
  lemma ScientificExample(one: Token, dot: Token, five: Token, e: Token, minus: Token, three: Token, semi: Token)
    requires one.kind == TOK_DIGIT && dot.kind == TOK_DOT && five.kind == TOK_DIGIT
    requires e == Token(TOK_IDENTIFIER, Some("e")) && minus.kind == TOK_MINUS && three.kind == TOK_DIGIT
    ensures UnsignedNumber([one, dot, five, e, minus, three, semi], 0)
      == Success(Parsed(UnsignedNum(one, Some(Fraction(dot, five)), Some(Exponent(e, Some(minus), three))), 6))
  {
    var n := UnsignedNum(one, Some(Fraction(dot, five)), Some(Exponent(e, Some(minus), three)));
    assert Spelling(n) + [semi] == [one, dot, five, e, minus, three, semi];
    NumberComplete(n, [semi]);
  }

  /** Only the one-letter texts `e` and `E` start an exponent: after `1`,
      the identifier `ex` ends the number. */
  lemma MarkerTextExample(one: Token, ex: Token, three: Token)
    requires one.kind == TOK_DIGIT && ex == Token(TOK_IDENTIFIER, Some("ex"))
    ensures UnsignedNumber([one, ex, three], 0) == Success(Parsed(UnsignedNum(one, None, None), 1))
  {
    var m := UnsignedNum(one, None, None);
    assert Spelling(m) + [ex, three] == [one, ex, three];
    NumberComplete(m, [ex, three]);
  }

  /** A sign without digits after the marker is an error on what follows. */
  lemma ExponentNeedsDigits(one: Token, e: Token, plus: Token, semi: Token)
    requires one.kind == TOK_DIGIT && ExponentMarker(e) && plus.kind == TOK_PLUS && semi.kind == TOK_SEMICOLON
    ensures UnsignedNumber([one, e, plus, semi], 0) == Failure(SyntaxError(semi))
  {
    var ts := [one, e, plus, semi];
    assert ExponentPart(ts, 1) == Failure(SyntaxError(semi));
  }
}
