/** Types and record field lists (libpasta/parser-type.c,
    libpasta/parser-field-list.c). The two files call each other: a record
    type holds a field list, and a field line holds a type. */
module PastaParserType {
  import opened Wrappers
  import opened PastaToken
  import opened Ast
  import opened PastaParser
  import opened PastaParserCommon
  import opened PastaParserSimple
  import opened PastaParserConstant
  import opened PastaParserSimpleType

  /** The kinds that may follow `packed`. */
  predicate StructuredKind(k: TokenType) {
    k == TOK_ARRAY || k == TOK_FILE || k == TOK_SET || k == TOK_RECORD
  }

  /** `parser_type`. */
  function Type(ts: seq<Token>, i: nat): (r: Outcome<PExpr>)
    ensures r.Success? ==> i < r.value.next <= |ts|
    decreases |ts| - i, 3
  {
    var first :- PeekAt(ts, i);
    if first.kind == TOK_PACKED then PackedType(ts, i)
    else if first.kind == TOK_CARET then PointerType(ts, i)
    else if StructuredKind(first.kind) then StructuredType(ts, i)
    else SimpleType(ts, i)
  }

  /** `packed` at `i`: only a structured type may follow, and the result is
      wrapped in a UNARY on the `packed` token. */
  function PackedType(ts: seq<Token>, i: nat): (r: Outcome<PExpr>)
    requires i < |ts|
    ensures r.Success? ==> i < r.value.next <= |ts|
    decreases |ts| - i, 2
  {
    var next :- PeekAt(ts, i + 1);
    if !StructuredKind(next.kind) then Failure(SyntaxError(next))
    else
      var body :- StructuredType(ts, i + 1);
      Success(Parsed(Unary(ts[i], body.value), body.next))
  }

  /** `^ id`. */
  function PointerType(ts: seq<Token>, i: nat): (r: Outcome<PExpr>)
    requires i < |ts|
    ensures r.Success? ==> i < r.value.next <= |ts|
  {
    var id :- Identifier(ts, i + 1);
    Success(Parsed(Unary(ts[i], id.value), id.next))
  }

  /** An array, file, set or record type, by its keyword at `i`. */
  function StructuredType(ts: seq<Token>, i: nat): (r: Outcome<PExpr>)
    requires i < |ts| && StructuredKind(ts[i].kind)
    ensures r.Success? ==> i < r.value.next <= |ts|
    decreases |ts| - i, 1
  {
    if ts[i].kind == TOK_ARRAY then ArrayType(ts, i)
    else if ts[i].kind == TOK_FILE then FileType(ts, i)
    else if ts[i].kind == TOK_SET then SetType(ts, i)
    else RecordType(ts, i)
  }

  /** `array [ st (, st)* ] of T`. */
  function ArrayType(ts: seq<Token>, i: nat): (r: Outcome<PExpr>)
    requires i < |ts|
    ensures r.Success? ==> i < r.value.next <= |ts|
    decreases |ts| - i, 0
  {
    var index :- IndexList(ts, i + 1);
    var of :- TokenExpect(ts, index.next, TOK_OF);
    var elem :- Type(ts, of.next);
    Success(Parsed(Binary(ts[i], index.value, elem.value), elem.next))
  }

  /** `[ st (, st)* ]`: the `[` roots the first node, each later simple
      type hangs off its comma, and a LITERAL of `]` closes the chain. */
  function IndexList(ts: seq<Token>, i: nat): (r: Outcome<PExpr>)
    ensures r.Success? ==> i < r.value.next <= |ts|
  {
    var lbracket :- TokenExpect(ts, i, TOK_LBRACKET);
    var st :- SimpleType(ts, lbracket.next);
    IndexLoop(ts, st.next, [Link(BINARY, Some(lbracket.value), st.value)])
  }

  /** The loop of the index list once the nodes `links` are built. */
  function IndexLoop(ts: seq<Token>, i: nat, links: seq<Link<Token>>): (r: Outcome<PExpr>)
    ensures r.Success? ==> i < r.value.next <= |ts|
    decreases |ts| - i
  {
    var t :- TokenAt(ts, i);
    if t.value.kind == TOK_COMMA then
      var st :- SimpleType(ts, t.next);
      IndexLoop(ts, st.next, links + [Link(BINARY, Some(t.value), st.value)])
    else if t.value.kind == TOK_RBRACKET then Success(Parsed(Chain(links, Literal(t.value)), t.next))
    else Failure(SyntaxError(t.value))
  }

  /** `file of T`. */
  function FileType(ts: seq<Token>, i: nat): (r: Outcome<PExpr>)
    requires i < |ts|
    ensures r.Success? ==> i < r.value.next <= |ts|
    decreases |ts| - i, 0
  {
    var of :- TokenExpect(ts, i + 1, TOK_OF);
    var t :- Type(ts, of.next);
    Success(Parsed(Unary(ts[i], t.value), t.next))
  }

  /** `set of S`, with S a simple type. */
  function SetType(ts: seq<Token>, i: nat): (r: Outcome<PExpr>)
    requires i < |ts|
    ensures r.Success? ==> i < r.value.next <= |ts|
  {
    var of :- TokenExpect(ts, i + 1, TOK_OF);
    var st :- SimpleType(ts, of.next);
    Success(Parsed(Unary(ts[i], st.value), st.next))
  }

  /** `record F end`. */
  function RecordType(ts: seq<Token>, i: nat): (r: Outcome<PExpr>)
    requires i < |ts|
    ensures r.Success? ==> i < r.value.next <= |ts|
    decreases |ts| - i, 0
  {
    var fields :- FieldList(ts, i + 1);
    var end :- TokenExpect(ts, fields.next, TOK_END);
    Success(Parsed(Unary(ts[i], fields.value), end.next))
  }

  /** `parser_field_list`: fixed lines, then perhaps a variant part, as a
      chain of tokenless BINARY nodes ending in null. */
  function FieldList(ts: seq<Token>, i: nat): (r: Outcome<PExpr>)
    ensures r.Success? ==> i < r.value.next <= |ts|
    decreases |ts| - i, 3
  {
    FixedPart(ts, i, [])
  }

  /** The first loop of `parser_field_list` once the nodes `links` are
      built: an identifier starts another line. */
  function FixedPart(ts: seq<Token>, i: nat, links: seq<Link<Token>>): (r: Outcome<PExpr>)
    ensures r.Success? ==> i <= r.value.next <= |ts| && (|links| == 0 ==> i < r.value.next)
    decreases |ts| - i, 2
  {
    var token :- PeekAt(ts, i);
    if token.kind != TOK_IDENTIFIER then CasePart(ts, i, links)
    else
      var line :- FixedLine(ts, i);
      FixedAfter(ts, line.next, links + [Link(BINARY, None, line.value)])
  }

  /** After a fixed line, at `i`: a semicolon goes on to the next line,
      anything else ends the field list with no variant part. */
  function FixedAfter(ts: seq<Token>, i: nat, links: seq<Link<Token>>): (r: Outcome<PExpr>)
    requires |links| > 0
    ensures r.Success? ==> i <= r.value.next <= |ts|
    decreases |ts| - i, 0
  {
    var after :- PeekAt(ts, i);
    if after.kind != TOK_SEMICOLON then Success(Parsed(Chain(links, Null), i))
    else FixedPart(ts, i + 1, links)
  }

  /** A fixed line `ids : T`, as BINARY(colon, ids, T). */
  function FixedLine(ts: seq<Token>, i: nat): (r: Outcome<PExpr>)
    ensures r.Success? ==> i < r.value.next <= |ts|
    decreases |ts| - i, 1
  {
    var ids :- IdentifierList(ts, i);
    var colon :- TokenAt(ts, ids.next);
    if colon.value.kind != TOK_COLON then Failure(SyntaxError(colon.value))
    else
      var t :- Type(ts, colon.next);
      Success(Parsed(Binary(colon.value, ids.value, t.value), t.next))
  }

  /** The variant part at `i`, after the fixed lines `links`: `case`, its
      selector and at least one branch; without `case`, the lines so far,
      of which there must be one. */
  function CasePart(ts: seq<Token>, i: nat, links: seq<Link<Token>>): (r: Outcome<PExpr>)
    ensures r.Success? ==> i <= r.value.next <= |ts| && (|links| == 0 ==> i < r.value.next)
    decreases |ts| - i, 1
  {
    var token :- PeekAt(ts, i);
    if token.kind == TOK_CASE then
      var selector :- CaseSelector(ts, i);
      var branch :- Branch(ts, selector.next);
      BranchLoop(ts, branch.next, links + [Link(BINARY, None, selector.value), Link(BINARY, None, branch.value)])
    else if |links| == 0 then Failure(SyntaxError(token))
    else Success(Parsed(Chain(links, Null), i))
  }

  /** `case t of` as UNARY(OF, LITERAL t), or `case x : t of` as
      BINARY(OF, LITERAL t, LITERAL x); `case` is at `i`. */
  function CaseSelector(ts: seq<Token>, i: nat): (r: Outcome<PExpr>)
    ensures r.Success? ==> i < r.value.next <= |ts|
  {
    var id :- TokenAt(ts, i + 1);
    if id.value.kind != TOK_IDENTIFIER then Failure(SyntaxError(id.value))
    else
      var after :- TokenAt(ts, id.next);
      if after.value.kind == TOK_OF then Success(Parsed(Unary(after.value, Literal(id.value)), after.next))
      else if after.value.kind == TOK_COLON then
        var t :- TokenAt(ts, after.next);
        if t.value.kind != TOK_IDENTIFIER then Failure(SyntaxError(t.value))
        else
          var of :- TokenAt(ts, t.next);
          if of.value.kind != TOK_OF then Failure(SyntaxError(t.value))
          else Success(Parsed(Node(BINARY, Literal(t.value), Literal(id.value), Some(of.value)), of.next))
      else Failure(SyntaxError(id.value))
  }

  /** The loop over variant branches: a semicolon means another branch. */
  function BranchLoop(ts: seq<Token>, i: nat, links: seq<Link<Token>>): (r: Outcome<PExpr>)
    ensures r.Success? ==> i <= r.value.next <= |ts|
    decreases |ts| - i, 0
  {
    var token :- PeekAt(ts, i);
    if token.kind != TOK_SEMICOLON then Success(Parsed(Chain(links, Null), i))
    else
      var branch :- Branch(ts, i + 1);
      BranchLoop(ts, branch.next, links + [Link(BINARY, None, branch.value)])
  }

  /** `parser_field_list_branch`: `c (, c)* : ( F )` as
      BINARY(colon, constants, F). */
  function Branch(ts: seq<Token>, i: nat): (r: Outcome<PExpr>)
    ensures r.Success? ==> i < r.value.next <= |ts|
    decreases |ts| - i, 0
  {
    var constants :- ConstantList(ts, i);
    var colon :- TokenAt(ts, constants.next);
    if colon.value.kind != TOK_COLON then Failure(SyntaxError(colon.value))
    else
      var lparen :- TokenExpect(ts, colon.next, TOK_LPAREN);
      var fields :- FieldList(ts, lparen.next);
      var rparen :- TokenExpect(ts, fields.next, TOK_RPAREN);
      Success(Parsed(Binary(colon.value, constants.value, fields.value), rparen.next))
  }

  /** `parse_constant_list`: constants separated by commas, as a chain of
      tokenless BINARY nodes ending in null. */
  function ConstantList(ts: seq<Token>, i: nat): (r: Outcome<PExpr>)
    ensures r.Success? ==> i < r.value.next <= |ts|
  {
    ConstantLoop(ts, i, [])
  }

  function ConstantLoop(ts: seq<Token>, i: nat, links: seq<Link<Token>>): (r: Outcome<PExpr>)
    ensures r.Success? ==> i < r.value.next <= |ts|
    decreases |ts| - i
  {
    var c :- Constant(ts, i);
    var links' := links + [Link(BINARY, None, c.value)];
    var after :- PeekAt(ts, c.next);
    if after.kind != TOK_COMMA then Success(Parsed(Chain(links', Null), c.next))
    else ConstantLoop(ts, c.next + 1, links')
  }

  method ParseType(p: Parser) returns (r: Result<PExpr, ParseError>)
    modifies p`pos
    ensures Pack(r, p.pos) == Type(p.tokens, old(p.pos))
    decreases |p.tokens| - p.pos, 3
  {
    var first :- p.Peek();
    if first.kind == TOK_PACKED {
      r := ParsePackedType(p);
    } else if first.kind == TOK_CARET {
      r := ParsePointerType(p);
    } else if StructuredKind(first.kind) {
      r := ParseStructuredType(p);
    } else {
      r := ParseSimpleType(p);
    }
  }

  method ParsePackedType(p: Parser) returns (r: Result<PExpr, ParseError>)
    requires p.pos < |p.tokens|
    modifies p`pos
    ensures Pack(r, p.pos) == PackedType(p.tokens, old(p.pos))
    decreases |p.tokens| - p.pos, 2
  {
    var packed := p.Token();
    var next :- p.Peek();
    if !StructuredKind(next.kind) {
      return Failure(SyntaxError(next));
    }
    var body :- ParseStructuredType(p);
    return Success(Unary(packed.value, body));
  }

  method ParsePointerType(p: Parser) returns (r: Result<PExpr, ParseError>)
    requires p.pos < |p.tokens|
    modifies p`pos
    ensures Pack(r, p.pos) == PointerType(p.tokens, old(p.pos))
  {
    var caret := p.Token();
    var id :- ParseIdentifier(p);
    return Success(Unary(caret.value, id));
  }

  method ParseStructuredType(p: Parser) returns (r: Result<PExpr, ParseError>)
    requires p.pos < |p.tokens| && StructuredKind(p.tokens[p.pos].kind)
    modifies p`pos
    ensures Pack(r, p.pos) == StructuredType(p.tokens, old(p.pos))
    decreases |p.tokens| - p.pos, 1
  {
    var kind := p.tokens[p.pos].kind;
    if kind == TOK_ARRAY {
      r := ParseArrayType(p);
    } else if kind == TOK_FILE {
      r := ParseFileType(p);
    } else if kind == TOK_SET {
      r := ParseSetType(p);
    } else {
      r := ParseRecordType(p);
    }
  }

  method ParseArrayType(p: Parser) returns (r: Result<PExpr, ParseError>)
    requires p.pos < |p.tokens|
    modifies p`pos
    ensures Pack(r, p.pos) == ArrayType(p.tokens, old(p.pos))
    decreases |p.tokens| - p.pos, 0
  {
    var arrayKw := p.Token();
    var index :- ParseIndexList(p);
    var _ :- ParseTokenExpect(p, TOK_OF);
    var elem :- ParseType(p);
    return Success(Binary(arrayKw.value, index, elem));
  }

  method ParseIndexList(p: Parser) returns (r: Result<PExpr, ParseError>)
    modifies p`pos
    ensures Pack(r, p.pos) == IndexList(p.tokens, old(p.pos))
  {
    ghost var pos0 := p.pos;
    var lbracket :- ParseTokenExpect(p, TOK_LBRACKET);
    var st :- ParseSimpleType(p);
    var links := [Link(BINARY, Some(lbracket), st)];
    ghost var goal := IndexLoop(p.tokens, p.pos, links);
    while true
      invariant pos0 < p.pos <= |p.tokens| && IndexLoop(p.tokens, p.pos, links) == goal
      decreases |p.tokens| - p.pos
    {
      var t :- p.Token();
      if t.kind == TOK_COMMA {
        var st :- ParseSimpleType(p);
        links := links + [Link(BINARY, Some(t), st)];
      } else if t.kind == TOK_RBRACKET {
        return Success(Chain(links, Literal(t)));
      } else {
        return Failure(SyntaxError(t));
      }
    }
  }

  method ParseFileType(p: Parser) returns (r: Result<PExpr, ParseError>)
    requires p.pos < |p.tokens|
    modifies p`pos
    ensures Pack(r, p.pos) == FileType(p.tokens, old(p.pos))
    decreases |p.tokens| - p.pos, 0
  {
    var file := p.Token();
    var _ :- ParseTokenExpect(p, TOK_OF);
    var t :- ParseType(p);
    return Success(Unary(file.value, t));
  }

  method ParseSetType(p: Parser) returns (r: Result<PExpr, ParseError>)
    requires p.pos < |p.tokens|
    modifies p`pos
    ensures Pack(r, p.pos) == SetType(p.tokens, old(p.pos))
  {
    var setKw := p.Token();
    var _ :- ParseTokenExpect(p, TOK_OF);
    var st :- ParseSimpleType(p);
    return Success(Unary(setKw.value, st));
  }

  method ParseRecordType(p: Parser) returns (r: Result<PExpr, ParseError>)
    requires p.pos < |p.tokens|
    modifies p`pos
    ensures Pack(r, p.pos) == RecordType(p.tokens, old(p.pos))
    decreases |p.tokens| - p.pos, 0
  {
    var record := p.Token();
    var fields :- ParseFieldList(p);
    var _ :- ParseTokenExpect(p, TOK_END);
    return Success(Unary(record.value, fields));
  }

  method ParseFieldList(p: Parser) returns (r: Result<PExpr, ParseError>)
    modifies p`pos
    ensures Pack(r, p.pos) == FieldList(p.tokens, old(p.pos))
    decreases |p.tokens| - p.pos, 3
  {
    var links: seq<Link<Token>> := [];
    ghost var goal := FixedPart(p.tokens, p.pos, links);
    while true
      invariant FixedPending(p.tokens, p.pos, links, goal)
      decreases |p.tokens| - p.pos
    {
      var token :- p.Peek();
      if token.kind != TOK_IDENTIFIER {
        break;
      }
      var turn :- ParseFixedTurn(p, links, goal);
      if turn.Closed? {
        return Success(turn.list);
      }
      links := turn.links;
    }
    r := ParseCasePart(p, links);
  }

  /** How one turn of the fixed-part loop ends: with more lines to come,
      or with the finished field list. */
  datatype FixedTurn = More(links: seq<Link<Token>>) | Closed(list: PExpr)

  /** One turn of the fixed-part loop of `parser_field_list`: a fixed
      line, then either a semicolon (consumed) or the end of the list. */
  method ParseFixedTurn(p: Parser, links: seq<Link<Token>>, ghost goal: Outcome<PExpr>) returns (r: Result<FixedTurn, ParseError>)
    requires p.pos < |p.tokens| && p.tokens[p.pos].kind == TOK_IDENTIFIER && FixedPending(p.tokens, p.pos, links, goal)
    modifies p`pos
    ensures r.Failure? ==> goal == Failure(r.error)
    ensures r.Success? && r.value.Closed? ==> goal == Success(Parsed(r.value.list, p.pos))
    ensures r.Success? && r.value.More? ==>
      old(p.pos) < p.pos <= |p.tokens| && FixedPending(p.tokens, p.pos, r.value.links, goal)
    decreases |p.tokens| - p.pos, 2
  {
    ghost var at := p.pos;
    var line := ParseFixedLine(p);
    if line.Failure? {
      assert FixedPart(p.tokens, at, links) == Failure(line.error);
      return Failure(line.error);
    }
    FixedPartLine(p.tokens, at, links, Parsed(line.value, p.pos));
    var more := links + [Link(BINARY, None, line.value)];
    var after :- p.Peek();
    if after.kind != TOK_SEMICOLON {
      return Success(Closed(Chain(more, Null)));
    }
    var _ := p.Token();
    return Success(More(more));
  }

  /** The fixed lines still to parse from `i`, after the nodes `links`,
      give `goal`. */
  predicate FixedPending(ts: seq<Token>, i: nat, links: seq<Link<Token>>, goal: Outcome<PExpr>) {
    FixedPart(ts, i, links) == goal
  }

  lemma FixedPartLine(ts: seq<Token>, i: nat, links: seq<Link<Token>>, line: Parsed<PExpr>)
    requires i < |ts| && ts[i].kind == TOK_IDENTIFIER && FixedLine(ts, i) == Success(line)
    ensures FixedPart(ts, i, links) == FixedAfter(ts, line.next, links + [Link(BINARY, None, line.value)])
  {
  }

  method ParseFixedLine(p: Parser) returns (r: Result<PExpr, ParseError>)
    modifies p`pos
    ensures Pack(r, p.pos) == FixedLine(p.tokens, old(p.pos))
    decreases |p.tokens| - p.pos, 1
  {
    var ids :- ParseIdentifierList(p);
    var colon :- p.Token();
    if colon.kind != TOK_COLON {
      return Failure(SyntaxError(colon));
    }
    var t :- ParseType(p);
    return Success(Binary(colon, ids, t));
  }

  method ParseCasePart(p: Parser, links: seq<Link<Token>>) returns (r: Result<PExpr, ParseError>)
    modifies p`pos
    ensures Pack(r, p.pos) == CasePart(p.tokens, old(p.pos), links)
    decreases |p.tokens| - p.pos, 2
  {
    var token :- p.Peek();
    if token.kind != TOK_CASE {
      if |links| == 0 {
        return Failure(SyntaxError(token));
      }
      return Success(Chain(links, Null));
    }
    var selector :- ParseCaseSelector(p);
    var branch :- ParseBranch(p);
    r := ParseBranchLoop(p, links + [Link(BINARY, None, selector), Link(BINARY, None, branch)]);
  }

  /** The tail-recursive branch loop `(; branch)*` of `parser_field_list`
      after the first branch. */
  method ParseBranchLoop(p: Parser, links: seq<Link<Token>>) returns (r: Result<PExpr, ParseError>)
    modifies p`pos
    ensures Pack(r, p.pos) == BranchLoop(p.tokens, old(p.pos), links)
    decreases |p.tokens| - p.pos, 1
  {
    var chain := links;
    ghost var goal := BranchLoop(p.tokens, p.pos, chain);
    while true
      invariant BranchPending(p.tokens, p.pos, chain, goal)
      decreases |p.tokens| - p.pos
    {
      var token :- p.Peek();
      if token.kind != TOK_SEMICOLON {
        return Success(Chain(chain, Null));
      }
      var _ := p.Token();
      ghost var at := p.pos;
      var branch := ParseBranch(p);
      BranchSemicolon(p.tokens, at - 1, chain);
      if branch.Failure? {
        return Failure(branch.error);
      }
      chain := chain + [Link(BINARY, None, branch.value)];
    }
  }

  /** The branches still to parse from `i`, after the nodes `links`,
      give `goal`. */
  predicate BranchPending(ts: seq<Token>, i: nat, links: seq<Link<Token>>, goal: Outcome<PExpr>) {
    BranchLoop(ts, i, links) == goal
  }

  lemma BranchSemicolon(ts: seq<Token>, i: nat, links: seq<Link<Token>>)
    requires i < |ts| && ts[i].kind == TOK_SEMICOLON
    ensures Branch(ts, i + 1).Failure? ==> BranchLoop(ts, i, links) == Failure(Branch(ts, i + 1).error)
    ensures Branch(ts, i + 1).Success? ==>
      BranchLoop(ts, i, links) == BranchLoop(ts, Branch(ts, i + 1).value.next, links + [Link(BINARY, None, Branch(ts, i + 1).value.value)])
  {
  }

  method ParseCaseSelector(p: Parser) returns (r: Result<PExpr, ParseError>)
    modifies p`pos
    ensures Pack(r, p.pos) == CaseSelector(p.tokens, old(p.pos))
  {
    if p.pos >= |p.tokens| {
      return Failure(PastEnd);
    }
    var _ := p.Token();
    var id :- p.Token();
    if id.kind != TOK_IDENTIFIER {
      return Failure(SyntaxError(id));
    }
    var after :- p.Token();
    if after.kind == TOK_OF {
      return Success(Unary(after, Literal(id)));
    }
    if after.kind != TOK_COLON {
      return Failure(SyntaxError(id));
    }
    var t :- p.Token();
    if t.kind != TOK_IDENTIFIER {
      return Failure(SyntaxError(t));
    }
    var of :- p.Token();
    if of.kind != TOK_OF {
      return Failure(SyntaxError(t));
    }
    return Success(Node(BINARY, Literal(t), Literal(id), Some(of)));
  }

  method ParseBranch(p: Parser) returns (r: Result<PExpr, ParseError>)
    modifies p`pos
    ensures Pack(r, p.pos) == Branch(p.tokens, old(p.pos))
    decreases |p.tokens| - p.pos, 0
  {
    var constants :- ParseConstantList(p);
    var colon :- p.Token();
    if colon.kind != TOK_COLON {
      return Failure(SyntaxError(colon));
    }
    var _ :- ParseTokenExpect(p, TOK_LPAREN);
    var fields :- ParseFieldList(p);
    var _ :- ParseTokenExpect(p, TOK_RPAREN);
    return Success(Binary(colon, constants, fields));
  }

  method ParseConstantList(p: Parser) returns (r: Result<PExpr, ParseError>)
    modifies p`pos
    ensures Pack(r, p.pos) == ConstantList(p.tokens, old(p.pos))
  {
    ghost var pos0 := p.pos;
    var links: seq<Link<Token>> := [];
    ghost var goal := ConstantLoop(p.tokens, p.pos, links);
    while true
      invariant pos0 <= p.pos && ConstantLoop(p.tokens, p.pos, links) == goal
      invariant |links| > 0 ==> p.pos <= |p.tokens|
      decreases |p.tokens| - p.pos
    {
      var c :- ParseConstant(p);
      links := links + [Link(BINARY, None, c)];
      var after :- p.Peek();
      if after.kind != TOK_COMMA {
        return Success(Chain(links, Null));
      }
      var _ := p.Token();
    }
  }
}
