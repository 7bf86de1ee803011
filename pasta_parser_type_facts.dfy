/** Properties of the type and field-list parsers (libpasta/parser-type.c,
    libpasta/parser-field-list.c). */
module PastaParserTypeFacts {
  import opened Wrappers
  import opened PastaToken
  import opened Ast
  import opened PastaParser
  import opened PastaParserCommon
  import opened PastaParserSimple
  import opened PastaParserConstant
  import opened PastaParserSimpleType
  import opened PastaParserType

  // ---------------------------------------------------------------------
  // Types

  /** `packed` before a structured type wraps that type in a UNARY on the
      `packed` token. */
  lemma {:induction false} PackedWraps(ts: seq<Token>, i: nat, body: Parsed<PExpr>)
    requires i + 1 < |ts| && ts[i].kind == TOK_PACKED && StructuredKind(ts[i + 1].kind)
    requires StructuredType(ts, i + 1) == Success(body)
    ensures Type(ts, i) == Success(Parsed(Unary(ts[i], body.value), body.next))
  {
  }

  /** `packed` before anything but `array`, `file`, `set` or `record` (a
      `^`, a simple type, another `packed`) is an error on that token. */
  lemma {:induction false} PackedRejects(ts: seq<Token>, i: nat)
    requires i + 1 < |ts| && ts[i].kind == TOK_PACKED && !StructuredKind(ts[i + 1].kind)
    ensures Type(ts, i) == Failure(SyntaxError(ts[i + 1]))
  {
    assert Type(ts, i) == PackedType(ts, i);
  }

  /** `^ id` is UNARY(CARET, LITERAL id), and `^` needs an identifier. */
  lemma {:induction false} PointerExact(ts: seq<Token>, i: nat)
    requires i < |ts| && ts[i].kind == TOK_CARET
    ensures Type(ts, i).Success? <==> i + 1 < |ts| && ts[i + 1].kind == TOK_IDENTIFIER
    ensures Type(ts, i).Success? ==> Type(ts, i).value == Parsed(Unary(ts[i], Literal(ts[i + 1])), i + 2)
  {
  }

  /** `array [ ... ] of T` is BINARY(ARRAY, index list, T). */
  lemma {:induction false} ArrayExact(ts: seq<Token>, i: nat, index: Parsed<PExpr>, elem: Parsed<PExpr>)
    requires i < |ts| && ts[i].kind == TOK_ARRAY && IndexList(ts, i + 1) == Success(index)
    requires index.next < |ts| && ts[index.next].kind == TOK_OF && Type(ts, index.next + 1) == Success(elem)
    ensures Type(ts, i) == Success(Parsed(Binary(ts[i], index.value, elem.value), elem.next))
  {
    assert Type(ts, i) == ArrayType(ts, i);
  }

  /** Without `of` after the index list the array type is an error on the
      token found there. */
  lemma {:induction false} ArrayNeedsOf(ts: seq<Token>, i: nat, index: Parsed<PExpr>)
    requires i < |ts| && ts[i].kind == TOK_ARRAY && IndexList(ts, i + 1) == Success(index)
    requires index.next < |ts| && ts[index.next].kind != TOK_OF
    ensures Type(ts, i) == Failure(SyntaxError(ts[index.next]))
  {
    assert Type(ts, i) == ArrayType(ts, i);
  }

  /** The links of an index list: the first on `[`, the others on commas. */
  lemma {:induction false} IndexLoopShape(ts: seq<Token>, i: nat, links: seq<Link<Token>>)
    requires ListLinks(links, TOK_LBRACKET, TOK_COMMA) && IndexLoop(ts, i, links).Success?
    ensures BracketList(IndexLoop(ts, i, links).value.value, TOK_LBRACKET, TOK_COMMA, TOK_RBRACKET)
    decreases |ts| - i
  {
    if ts[i].kind == TOK_RBRACKET {
      ListLinksClose(links, TOK_LBRACKET, TOK_COMMA, ts[i]);
    } else {
      var st := SimpleType(ts, i + 1).value;
      IndexLoopStep(ts, i, links, st);
      IndexLoopShape(ts, st.next, links + [Link(BINARY, Some(ts[i]), st.value)]);
    }
  }

  /** A comma and a simple type extend the index links and keep their shape. */
  lemma {:induction false} IndexLoopStep(ts: seq<Token>, i: nat, links: seq<Link<Token>>, st: Parsed<PExpr>)
    requires ListLinks(links, TOK_LBRACKET, TOK_COMMA)
    requires i < |ts| && ts[i].kind == TOK_COMMA && SimpleType(ts, i + 1) == Success(st)
    ensures var links' := links + [Link(BINARY, Some(ts[i]), st.value)];
      IndexLoop(ts, i, links) == IndexLoop(ts, st.next, links')
      && ListLinks(links', TOK_LBRACKET, TOK_COMMA)
  {
  }

  /** The index list is a BINARY chain rooted at `[`, continuing with
      COMMA nodes, and closed by a LITERAL of `]`. */
  lemma {:induction false} IndexListShape(ts: seq<Token>, i: nat)
    requires IndexList(ts, i).Success?
    ensures BracketList(IndexList(ts, i).value.value, TOK_LBRACKET, TOK_COMMA, TOK_RBRACKET)
  {
    var st := SimpleType(ts, i + 1).value;
    var links := [Link(BINARY, Some(ts[i]), st.value)];
    assert ListLinks(links, TOK_LBRACKET, TOK_COMMA);
    IndexLoopShape(ts, st.next, links);
  }

  /** After a simple type of the index list, a token other than `,` or `]`
      is an error on it. */
  lemma {:induction false} IndexBadSeparator(ts: seq<Token>, i: nat, links: seq<Link<Token>>)
    requires i < |ts| && ts[i].kind != TOK_COMMA && ts[i].kind != TOK_RBRACKET
    ensures IndexLoop(ts, i, links) == Failure(SyntaxError(ts[i]))
  {
  }

  /** `file of T` is UNARY(FILE, T), with T any type. */
  lemma {:induction false} FileExact(ts: seq<Token>, i: nat, t: Parsed<PExpr>)
    requires i + 1 < |ts| && ts[i].kind == TOK_FILE && ts[i + 1].kind == TOK_OF && Type(ts, i + 2) == Success(t)
    ensures Type(ts, i) == Success(Parsed(Unary(ts[i], t.value), t.next))
  {
    assert Type(ts, i) == FileType(ts, i);
  }

  /** `set of S` is UNARY(SET, S), with S a simple type. */
  lemma {:induction false} SetExact(ts: seq<Token>, i: nat, st: Parsed<PExpr>)
    requires i + 1 < |ts| && ts[i].kind == TOK_SET && ts[i + 1].kind == TOK_OF && SimpleType(ts, i + 2) == Success(st)
    ensures Type(ts, i) == Success(Parsed(Unary(ts[i], st.value), st.next))
  {
    assert Type(ts, i) == SetType(ts, i);
  }

  /** `file` and `set` need `of` right after them. */
  lemma {:induction false} FileSetNeedOf(ts: seq<Token>, i: nat)
    requires i + 1 < |ts| && (ts[i].kind == TOK_FILE || ts[i].kind == TOK_SET) && ts[i + 1].kind != TOK_OF
    ensures Type(ts, i) == Failure(SyntaxError(ts[i + 1]))
  {
    assert Type(ts, i) == (if ts[i].kind == TOK_FILE then FileType(ts, i) else SetType(ts, i));
  }

  /** `record F end` is UNARY(RECORD, F). */
  lemma {:induction false} RecordExact(ts: seq<Token>, i: nat, fields: Parsed<PExpr>)
    requires i < |ts| && ts[i].kind == TOK_RECORD && FieldList(ts, i + 1) == Success(fields)
    requires fields.next < |ts| && ts[fields.next].kind == TOK_END
    ensures Type(ts, i) == Success(Parsed(Unary(ts[i], fields.value), fields.next + 1))
  {
    assert Type(ts, i) == RecordType(ts, i);
  }

  /** A record must be closed by `end`. */
  lemma {:induction false} RecordNeedsEnd(ts: seq<Token>, i: nat, fields: Parsed<PExpr>)
    requires i < |ts| && ts[i].kind == TOK_RECORD && FieldList(ts, i + 1) == Success(fields)
    requires fields.next < |ts| && ts[fields.next].kind != TOK_END
    ensures Type(ts, i) == Failure(SyntaxError(ts[fields.next]))
  {
    assert Type(ts, i) == RecordType(ts, i);
  }

  /** Any other start is a simple type. */
  lemma {:induction false} TypeFallsThrough(ts: seq<Token>, i: nat)
    requires i < |ts| && ts[i].kind != TOK_PACKED && ts[i].kind != TOK_CARET && !StructuredKind(ts[i].kind)
    ensures Type(ts, i) == SimpleType(ts, i)
  {
  }

  // ---------------------------------------------------------------------
  // Field lists

  /** The first `|links|` items of `s` are the items of `links`; true of
      `links` when it holds for `links` with one more link. */
  lemma {:induction false} PrefixOfSnoc(s: seq<PExpr>, links: seq<Link<Token>>, last: Link<Token>)
    requires |s| > |links| && s[..|links| + 1] == LinkLefts(links + [last])
    ensures s[..|links|] == LinkLefts(links)
  {
    assert s[..|links|] == s[..|links| + 1][..|links|];
  }

  /** A fixed line `ids : T` is BINARY(colon, ids, T). */
  lemma {:induction false} FixedLineExact(ts: seq<Token>, i: nat, ids: Parsed<PExpr>, t: Parsed<PExpr>)
    requires IdentifierList(ts, i) == Success(ids)
    requires ids.next < |ts| && ts[ids.next].kind == TOK_COLON && Type(ts, ids.next + 1) == Success(t)
    ensures FixedLine(ts, i) == Success(Parsed(Binary(ts[ids.next], ids.value, t.value), t.next))
  {
  }

  /** A fixed line needs a colon after its identifiers. */
  lemma {:induction false} FixedLineNeedsColon(ts: seq<Token>, i: nat, ids: Parsed<PExpr>)
    requires IdentifierList(ts, i) == Success(ids) && ids.next < |ts| && ts[ids.next].kind != TOK_COLON
    ensures FixedLine(ts, i) == Failure(SyntaxError(ts[ids.next]))
  {
  }

  /** A fixed line not followed by a semicolon ends the field list there:
      the lines so far become the chain, and nothing after the line is
      looked at, not even a `case`. */
  lemma {:induction false} LineWithoutSemicolon(ts: seq<Token>, i: nat, links: seq<Link<Token>>, line: Parsed<PExpr>)
    requires i < |ts| && ts[i].kind == TOK_IDENTIFIER && FixedLine(ts, i) == Success(line)
    requires line.next < |ts| && ts[line.next].kind != TOK_SEMICOLON
    ensures FixedPart(ts, i, links) == Success(Parsed(Chain(links + [Link(BINARY, None, line.value)], Null), line.next))
  {
    FixedPartLine(ts, i, links, line);
  }

  /** A field list with neither a fixed line nor a `case` is an error on
      its first token. */
  lemma {:induction false} EmptyFieldList(ts: seq<Token>, i: nat)
    requires i < |ts| && ts[i].kind != TOK_IDENTIFIER && ts[i].kind != TOK_CASE
    ensures FieldList(ts, i) == Failure(SyntaxError(ts[i]))
  {
    assert FixedPart(ts, i, []) == CasePart(ts, i, []);
  }

  /** The fixed part yields a non-empty chain of tokenless BINARY nodes,
      beginning with the items already collected, in order. */
  lemma {:induction false} FixedPartShape(ts: seq<Token>, i: nat, links: seq<Link<Token>>)
    requires BareLinks(links) && FixedPart(ts, i, links).Success?
    ensures var e := FixedPart(ts, i, links).value.value;
      BareChain(e) && |Lefts(e)| > 0 && |Lefts(e)| >= |links| && Lefts(e)[..|links|] == LinkLefts(links)
    decreases |ts| - i, 1
  {
    if ts[i].kind != TOK_IDENTIFIER {
      CasePartShape(ts, i, links);
    } else {
      var line := FixedLine(ts, i).value;
      var last := Link(BINARY, None, line.value);
      FixedPartLine(ts, i, links, line);
      FixedAfterShape(ts, line.next, links + [last]);
      PrefixOfSnoc(Lefts(FixedPart(ts, i, links).value.value), links, last);
    }
  }

  /** What follows a fixed line keeps the chain's shape and its items. */
  lemma {:induction false} FixedAfterShape(ts: seq<Token>, i: nat, links: seq<Link<Token>>)
    requires |links| > 0 && BareLinks(links) && FixedAfter(ts, i, links).Success?
    ensures var e := FixedAfter(ts, i, links).value.value;
      BareChain(e) && |Lefts(e)| >= |links| && Lefts(e)[..|links|] == LinkLefts(links)
    decreases |ts| - i, 0
  {
    if ts[i].kind != TOK_SEMICOLON {
      ChainBare(links, Null);
    } else {
      FixedPartShape(ts, i + 1, links);
    }
  }

  /** The variant part adds the selector and at least one branch to the
      chain; without `case` it closes the lines so far. */
  lemma {:induction false} CasePartShape(ts: seq<Token>, i: nat, links: seq<Link<Token>>)
    requires BareLinks(links) && CasePart(ts, i, links).Success?
    ensures var e := CasePart(ts, i, links).value.value;
      BareChain(e) && |Lefts(e)| > 0 && |Lefts(e)| >= |links| && Lefts(e)[..|links|] == LinkLefts(links)
      && (ts[i].kind == TOK_CASE ==> |Lefts(e)| >= |links| + 2)
    decreases |ts| - i, 0
  {
    if ts[i].kind == TOK_CASE {
      var selector := CaseSelector(ts, i).value;
      var branch := Branch(ts, selector.next).value;
      var mid := links + [Link(BINARY, None, selector.value)];
      var links' := mid + [Link(BINARY, None, branch.value)];
      assert links + [Link(BINARY, None, selector.value), Link(BINARY, None, branch.value)] == links';
      BranchLoopShape(ts, branch.next, links');
      var s := Lefts(CasePart(ts, i, links).value.value);
      PrefixOfSnoc(s, mid, Link(BINARY, None, branch.value));
      PrefixOfSnoc(s, links, Link(BINARY, None, selector.value));
    } else {
      ChainBare(links, Null);
    }
  }

  /** Each branch after a semicolon is appended to the same chain. */
  lemma {:induction false} BranchLoopShape(ts: seq<Token>, i: nat, links: seq<Link<Token>>)
    requires BareLinks(links) && BranchLoop(ts, i, links).Success?
    ensures var e := BranchLoop(ts, i, links).value.value;
      BareChain(e) && |Lefts(e)| >= |links| && Lefts(e)[..|links|] == LinkLefts(links)
    decreases |ts| - i
  {
    if ts[i].kind != TOK_SEMICOLON {
      ChainBare(links, Null);
    } else {
      var branch := Branch(ts, i + 1).value;
      var last := Link(BINARY, None, branch.value);
      BranchSemicolon(ts, i, links);
      BranchLoopShape(ts, branch.next, links + [last]);
      PrefixOfSnoc(Lefts(BranchLoop(ts, i, links).value.value), links, last);
    }
  }

  /** A field list is a non-empty chain of tokenless BINARY nodes ending
      in null; one starting with `case` holds the selector and a branch. */
  lemma {:induction false} FieldListShape(ts: seq<Token>, i: nat)
    requires FieldList(ts, i).Success?
    ensures BareChain(FieldList(ts, i).value.value) && |Lefts(FieldList(ts, i).value.value)| > 0
    ensures ts[i].kind == TOK_CASE ==> |Lefts(FieldList(ts, i).value.value)| >= 2
  {
    FixedPartShape(ts, i, []);
    if ts[i].kind == TOK_CASE {
      CasePartShape(ts, i, []);
    }
  }

  // ---------------------------------------------------------------------
  // The variant part

  /** `case t of` is UNARY(OF, LITERAL t). */
  lemma {:induction false} SelectorPlain(ts: seq<Token>, i: nat)
    requires i + 2 < |ts| && ts[i + 1].kind == TOK_IDENTIFIER && ts[i + 2].kind == TOK_OF
    ensures CaseSelector(ts, i) == Success(Parsed(Unary(ts[i + 2], Literal(ts[i + 1])), i + 3))
  {
  }

  /** `case x : t of` is BINARY(OF, LITERAL t, LITERAL x). */
  lemma {:induction false} SelectorTagged(ts: seq<Token>, i: nat)
    requires i + 4 < |ts| && ts[i + 1].kind == TOK_IDENTIFIER && ts[i + 2].kind == TOK_COLON
    requires ts[i + 3].kind == TOK_IDENTIFIER && ts[i + 4].kind == TOK_OF
    ensures CaseSelector(ts, i) == Success(Parsed(Binary(ts[i + 4], Literal(ts[i + 3]), Literal(ts[i + 1])), i + 5))
  {
  }

  /** Every other selector is an error: on a non-identifier after `case`,
      on the first identifier when neither `of` nor `:` follows it, on a
      non-identifier after the colon, and on the second identifier when
      `of` does not follow it. */
  lemma {:induction false} SelectorErrors(ts: seq<Token>, i: nat)
    requires i + 1 < |ts|
    ensures ts[i + 1].kind != TOK_IDENTIFIER ==> CaseSelector(ts, i) == Failure(SyntaxError(ts[i + 1]))
    ensures i + 2 < |ts| && ts[i + 1].kind == TOK_IDENTIFIER && ts[i + 2].kind != TOK_OF && ts[i + 2].kind != TOK_COLON
      ==> CaseSelector(ts, i) == Failure(SyntaxError(ts[i + 1]))
    ensures i + 3 < |ts| && ts[i + 1].kind == TOK_IDENTIFIER && ts[i + 2].kind == TOK_COLON && ts[i + 3].kind != TOK_IDENTIFIER
      ==> CaseSelector(ts, i) == Failure(SyntaxError(ts[i + 3]))
    ensures i + 4 < |ts| && ts[i + 1].kind == TOK_IDENTIFIER && ts[i + 2].kind == TOK_COLON
      && ts[i + 3].kind == TOK_IDENTIFIER && ts[i + 4].kind != TOK_OF
      ==> CaseSelector(ts, i) == Failure(SyntaxError(ts[i + 3]))
  {
  }

  /** A branch `c (, c)* : ( F )` is BINARY(colon, constants, F). */
  lemma {:induction false} BranchExact(ts: seq<Token>, i: nat, cs: Parsed<PExpr>, fields: Parsed<PExpr>)
    requires ConstantList(ts, i) == Success(cs)
    requires cs.next + 1 < |ts| && ts[cs.next].kind == TOK_COLON && ts[cs.next + 1].kind == TOK_LPAREN
    requires FieldList(ts, cs.next + 2) == Success(fields) && fields.next < |ts| && ts[fields.next].kind == TOK_RPAREN
    ensures Branch(ts, i) == Success(Parsed(Binary(ts[cs.next], cs.value, fields.value), fields.next + 1))
  {
  }

  /** A branch needs a colon after its constants. */
  lemma {:induction false} BranchNeedsColon(ts: seq<Token>, i: nat, cs: Parsed<PExpr>)
    requires ConstantList(ts, i) == Success(cs) && cs.next < |ts| && ts[cs.next].kind != TOK_COLON
    ensures Branch(ts, i) == Failure(SyntaxError(ts[cs.next]))
  {
  }

  /** A constant followed by a comma is chained before the next one. */
  lemma {:induction false} ConstantLoopStep(ts: seq<Token>, i: nat, links: seq<Link<Token>>, c: Parsed<PExpr>)
    requires Constant(ts, i) == Success(c) && c.next < |ts| && ts[c.next].kind == TOK_COMMA
    ensures ConstantLoop(ts, i, links) == ConstantLoop(ts, c.next + 1, links + [Link(BINARY, None, c.value)])
  {
  }

  /** The constant loop yields a chain of tokenless BINARY nodes holding
      the constants collected before, in order, and at least one more. */
  lemma {:induction false} ConstantLoopShape(ts: seq<Token>, i: nat, links: seq<Link<Token>>)
    requires BareLinks(links) && ConstantLoop(ts, i, links).Success?
    ensures var e := ConstantLoop(ts, i, links).value.value;
      BareChain(e) && |Lefts(e)| > |links| && Lefts(e)[..|links|] == LinkLefts(links)
    decreases |ts| - i
  {
    var c := Constant(ts, i).value;
    var last := Link(BINARY, None, c.value);
    var links' := links + [last];
    var s := Lefts(ConstantLoop(ts, i, links).value.value);
    if ts[c.next].kind != TOK_COMMA {
      ChainBare(links', Null);
    } else {
      ConstantLoopStep(ts, i, links, c);
      ConstantLoopShape(ts, c.next + 1, links');
    }
    PrefixOfSnoc(s, links, last);
  }

  /** A constant list is a chain of tokenless BINARY nodes whose first
      item is the first constant. */
  lemma {:induction false} ConstantListShape(ts: seq<Token>, i: nat)
    requires ConstantList(ts, i).Success?
    ensures var e := ConstantList(ts, i).value.value;
      BareChain(e) && |Lefts(e)| > 0 && Lefts(e)[0] == Constant(ts, i).value.value
  {
    var c := Constant(ts, i).value;
    var first := Link(BINARY, None, c.value);
    assert [] + [first] == [first];
    if ts[c.next].kind != TOK_COMMA {
      ChainBare([first], Null);
    } else {
      ConstantLoopStep(ts, i, [], c);
      ConstantLoopShape(ts, c.next + 1, [first]);
    }
  }
}
