/** Properties of the block parser (libpasta/parser-block.c). */
module PastaParserBlockFacts {
  import opened Wrappers
  import opened PastaToken
  import opened Ast
  import opened PastaParser
  import opened PastaParserCommon
  import opened PastaParserSimple
  import opened PastaParserConstant
  import opened PastaParserType
  import opened PastaParserParameterList
  import opened PastaParserStatement
  import opened PastaParserStatementFacts
  import opened PastaParserBlock

  /** A spine through `exp_right` of BINARY nodes on `sep` tokens, ending
      in null. */
  predicate NullTail(e: PExpr, sep: TokenType)
    decreases e
  {
    e.Null? || (e.kind == BINARY && e.token.Some? && e.token.value.kind == sep && NullTail(e.right, sep))
  }

  /** Closing links on `sep` tokens with null gives such a spine. */
  lemma {:induction false} ChainNullTail(links: seq<Link<Token>>, sep: TokenType)
    requires forall k :: 0 <= k < |links| ==> links[k].kind == BINARY && links[k].token.Some? && links[k].token.value.kind == sep
    ensures NullTail(Chain(links, Null), sep)
    decreases |links|
  {
    if |links| > 0 {
      ChainNullTail(links[1..], sep);
    }
  }

  /** A declaration of section `s`: rooted by `:` for VAR and by `=`
      otherwise, and naming a single identifier outside VAR. */
  predicate DeclNode(e: PExpr, s: Section) {
    e.Node? && e.kind == BINARY && e.token.Some?
    && e.token.value.kind == (if s == VarSection then TOK_COLON else TOK_EQUAL)
    && (s != VarSection ==>
          e.left.Node? && e.left.kind == LITERAL && e.left.token.Some? && e.left.token.value.kind == TOK_IDENTIFIER)
  }

  predicate AllDecls(ds: seq<PExpr>, s: Section) {
    forall k :: 0 <= k < |ds| ==> DeclNode(ds[k], s)
  }

  /** A section as its loop leaves it: a BINARY root on the section's
      keyword, SEMICOLON nodes after it ending in null, a declaration on
      every node. */
  predicate SectionShape(e: PExpr, s: Section) {
    e.Node? && e.kind == BINARY && e.token.Some? && e.token.value.kind == SectionKeyword(s)
    && NullTail(e.right, TOK_SEMICOLON) && AllDecls(Lefts(e), s)
  }

  /** Collected section links, before `sep` is carried to the next one. */
  predicate SectionLinks(links: seq<Link<Token>>, s: Section, sep: Token) {
    (if |links| == 0 then sep.kind == SectionKeyword(s)
     else sep.kind == TOK_SEMICOLON && ListLinks(links, SectionKeyword(s), TOK_SEMICOLON))
    && AllDecls(LinkLefts(links), s)
  }

  /** Each of the three declarations has its section's form. */
  lemma {:induction false} DeclarationNode(ts: seq<Token>, i: nat, s: Section)
    requires Declaration(ts, i, s).Success?
    ensures DeclNode(Declaration(ts, i, s).value.value, s)
  {
  }

  /** `const id = c`: BINARY(=, LITERAL id, constant). */
  lemma {:induction false} ConstDeclarationExact(ts: seq<Token>, i: nat, c: Parsed<PExpr>)
    requires i + 1 < |ts| && ts[i].kind == TOK_IDENTIFIER && ts[i + 1].kind == TOK_EQUAL
    requires Constant(ts, i + 2) == Success(c)
    ensures Declaration(ts, i, ConstSection) == Success(Parsed(Binary(ts[i + 1], Literal(ts[i]), c.value), c.next))
  {
  }

  /** `type id = T`: BINARY(=, LITERAL id, type). */
  lemma {:induction false} TypeDeclarationExact(ts: seq<Token>, i: nat, t: Parsed<PExpr>)
    requires i + 1 < |ts| && ts[i].kind == TOK_IDENTIFIER && ts[i + 1].kind == TOK_EQUAL
    requires Type(ts, i + 2) == Success(t)
    ensures Declaration(ts, i, TypeSection) == Success(Parsed(Binary(ts[i + 1], Literal(ts[i]), t.value), t.next))
  {
  }

  /** `var ids : T`: BINARY(:, identifier list, type). */
  lemma {:induction false} VarDeclarationExact(ts: seq<Token>, i: nat, ids: Parsed<PExpr>, t: Parsed<PExpr>)
    requires IdentifierList(ts, i) == Success(ids) && ids.next < |ts| && ts[ids.next].kind == TOK_COLON
    requires Type(ts, ids.next + 1) == Success(t)
    ensures Declaration(ts, i, VarSection) == Success(Parsed(Binary(ts[ids.next], ids.value, t.value), t.next))
  {
  }

  /** A declaration not followed by `;` is an error on the token there. */
  lemma {:induction false} SectionMissingSemicolon(ts: seq<Token>, i: nat, s: Section, links: seq<Link<Token>>, sep: Token, d: Parsed<PExpr>)
    requires Declaration(ts, i, s) == Success(d) && d.next < |ts| && ts[d.next].kind != TOK_SEMICOLON
    ensures SectionLoop(ts, i, s, links, sep) == Failure(SyntaxError(ts[d.next]))
  {
  }

  /** After a declaration and its `;`, a prologue kind ends the section
      without being taken; anything else starts the next declaration, on
      a node of that `;`. */
  lemma {:induction false} SectionStep(ts: seq<Token>, i: nat, s: Section, links: seq<Link<Token>>, sep: Token, d: Parsed<PExpr>)
    requires Declaration(ts, i, s) == Success(d) && d.next + 1 < |ts| && ts[d.next].kind == TOK_SEMICOLON
    ensures Prologue(ts[d.next + 1].kind) ==>
      SectionLoop(ts, i, s, links, sep) == Success(Parsed(Chain(links + [Link(BINARY, Some(sep), d.value)], Null), d.next + 1))
    ensures !Prologue(ts[d.next + 1].kind) ==>
      SectionLoop(ts, i, s, links, sep) == SectionLoop(ts, d.next + 1, s, links + [Link(BINARY, Some(sep), d.value)], ts[d.next])
  {
  }

  /** Adding a declaration and carrying its `;` keeps the links collected. */
  lemma SectionLinksAdd(links: seq<Link<Token>>, s: Section, sep: Token, d: PExpr, semicolon: Token)
    requires SectionLinks(links, s, sep) && DeclNode(d, s) && semicolon.kind == TOK_SEMICOLON
    ensures SectionLinks(links + [Link(BINARY, Some(sep), d)], s, semicolon)
  {
    assert LinkLefts(links + [Link(BINARY, Some(sep), d)]) == LinkLefts(links) + [d];
  }

  /** Closing the collected links and a last declaration with null gives a
      section shape. */
  lemma SectionLinksClose(links: seq<Link<Token>>, s: Section, sep: Token, d: PExpr)
    requires SectionLinks(links, s, sep) && DeclNode(d, s)
    ensures SectionShape(Chain(links + [Link(BINARY, Some(sep), d)], Null), s)
  {
    var links' := links + [Link(BINARY, Some(sep), d)];
    assert LinkLefts(links') == LinkLefts(links) + [d];
    assert ListLinks(links', SectionKeyword(s), TOK_SEMICOLON);
    ChainNullTail(links'[1..], TOK_SEMICOLON);
    ChainLefts(links', Null);
  }

  /** A section parsed in `ts`: its shape, and a token of a prologue kind
      right after it. */
  predicate SectionDone(ts: seq<Token>, r: Parsed<PExpr>, s: Section) {
    SectionShape(r.value, s) && r.next < |ts| && Prologue(ts[r.next].kind)
  }

  /** The loop of a section closes a section shape, and stops on a token
      of a prologue kind. */
  lemma {:induction false} SectionLoopShape(ts: seq<Token>, i: nat, s: Section, links: seq<Link<Token>>, sep: Token)
    requires SectionLinks(links, s, sep) && SectionLoop(ts, i, s, links, sep).Success?
    ensures SectionDone(ts, SectionLoop(ts, i, s, links, sep).value, s)
    decreases |ts| - i
  {
    var d := Declaration(ts, i, s).value;
    DeclarationNode(ts, i, s);
    if Prologue(ts[d.next + 1].kind) {
      SectionLinksClose(links, s, sep, d.value);
    } else {
      SectionLinksAdd(links, s, sep, d.value, ts[d.next]);
      SectionLoopShape(ts, d.next + 1, s, links + [Link(BINARY, Some(sep), d.value)], ts[d.next]);
    }
  }

  /** A CONST, TYPE or VAR section holds at least one declaration of its
      form, and the token after it is of a prologue kind. */
  lemma {:induction false} SectionBlockShape(ts: seq<Token>, i: nat, s: Section)
    requires SectionBlock(ts, i, s).Success?
    ensures SectionShape(SectionBlock(ts, i, s).value.value, s)
    ensures SectionBlock(ts, i, s).value.next < |ts|
    ensures Prologue(ts[SectionBlock(ts, i, s).value.next].kind)
  {
    SectionLoopShape(ts, i + 1, s, [], ts[i]);
  }

  /** After the prototype: `; block ;`, rooted by the routine's keyword. */
  lemma {:induction false} RoutineBodyExact(ts: seq<Token>, i: nat, keyword: Token, prototype: PExpr, b: Parsed<PExpr>)
    requires i < |ts| && ts[i].kind == TOK_SEMICOLON
    requires Block(ts, i + 1) == Success(b) && b.next < |ts| && ts[b.next].kind == TOK_SEMICOLON
    ensures RoutineBody(ts, i, keyword, prototype) == Success(Parsed(Binary(keyword, prototype, b.value), b.next + 1))
  {
  }

  /** `procedure id params ; block ;`: BINARY(PROCEDURE, BINARY(id, params,
      null), block). */
  lemma {:induction false} ProcedureDeclarationExact(ts: seq<Token>, i: nat, pl: Parsed<PExpr>, b: Parsed<PExpr>)
    requires i + 1 < |ts| && ts[i].kind == TOK_PROCEDURE && ts[i + 1].kind == TOK_IDENTIFIER
    requires ParameterList(ts, i + 2) == Success(pl) && pl.next < |ts| && ts[pl.next].kind == TOK_SEMICOLON
    requires Block(ts, pl.next + 1) == Success(b) && b.next < |ts| && ts[b.next].kind == TOK_SEMICOLON
    ensures FunctionProc(ts, i) == Success(Parsed(Binary(ts[i], Binary(ts[i + 1], pl.value, Null), b.value), b.next + 1))
  {
    var prototype := Binary(ts[i + 1], pl.value, Null);
    assert FunctionProc(ts, i) == RoutineBody(ts, pl.next, ts[i], prototype);
    RoutineBodyExact(ts, pl.next, ts[i], prototype, b);
  }

  /** `function id params : T ; block ;`: BINARY(FUNCTION, BINARY(id,
      params, type), block). */
  lemma {:induction false} FunctionDeclarationExact(ts: seq<Token>, i: nat, pl: Parsed<PExpr>, t: Parsed<PExpr>, b: Parsed<PExpr>)
    requires i + 1 < |ts| && ts[i].kind == TOK_FUNCTION && ts[i + 1].kind == TOK_IDENTIFIER
    requires ParameterList(ts, i + 2) == Success(pl) && pl.next < |ts| && ts[pl.next].kind == TOK_COLON
    requires Type(ts, pl.next + 1) == Success(t) && t.next < |ts| && ts[t.next].kind == TOK_SEMICOLON
    requires Block(ts, t.next + 1) == Success(b) && b.next < |ts| && ts[b.next].kind == TOK_SEMICOLON
    ensures FunctionProc(ts, i) == Success(Parsed(Binary(ts[i], Binary(ts[i + 1], pl.value, t.value), b.value), b.next + 1))
  {
    var prototype := Binary(ts[i + 1], pl.value, t.value);
    assert ReturnType(ts, pl.next, true) == Success(t);
    assert FunctionProc(ts, i) == RoutineBody(ts, t.next, ts[i], prototype);
    RoutineBodyExact(ts, t.next, ts[i], prototype, b);
  }

  /** Only a function takes a return type: a function without the `:`
      and a procedure with one are both errors on the token there. */
  lemma {:induction false} ReturnTypeByKeyword(ts: seq<Token>, i: nat, pl: Parsed<PExpr>)
    requires i + 1 < |ts| && ts[i + 1].kind == TOK_IDENTIFIER
    requires ParameterList(ts, i + 2) == Success(pl) && pl.next < |ts|
    ensures ts[i].kind == TOK_FUNCTION && ts[pl.next].kind != TOK_COLON ==>
      FunctionProc(ts, i) == Failure(SyntaxError(ts[pl.next]))
    ensures ts[i].kind == TOK_PROCEDURE && ts[pl.next].kind == TOK_COLON ==>
      FunctionProc(ts, i) == Failure(SyntaxError(ts[pl.next]))
  {
  }

  /** A token that opens neither a section, a routine nor the compound
      part, EOF among them, is an error on that token. */
  lemma {:induction false} BlockBadStart(ts: seq<Token>, i: nat, links: seq<Link<Token>>)
    requires i < |ts| && (!Prologue(ts[i].kind) || ts[i].kind == TOK_EOF)
    ensures BlockLoop(ts, i, links) == Failure(SyntaxError(ts[i]))
  {
  }

  /** The kinds a block part other than BEGIN starts with. */
  predicate PartKind(k: TokenType) {
    k == TOK_CONST || k == TOK_TYPE || k == TOK_VAR || k == TOK_FUNCTION || k == TOK_PROCEDURE
  }

  /** A block part is a BINARY node on a token of the kind that starts it. */
  lemma {:induction false} BlockPartRoot(ts: seq<Token>, i: nat)
    requires i < |ts| && BlockPart(ts, i).Success?
    ensures PartKind(ts[i].kind)
    ensures BlockPart(ts, i).value.value.Node? && BlockPart(ts, i).value.value.kind == BINARY
    ensures BlockPart(ts, i).value.value.token.Some?
    ensures BlockPart(ts, i).value.value.token.value.kind == ts[i].kind
  {
    var k := ts[i].kind;
    if k == TOK_CONST {
      SectionBlockShape(ts, i, ConstSection);
    } else if k == TOK_TYPE {
      SectionBlockShape(ts, i, TypeSection);
    } else if k == TOK_VAR {
      SectionBlockShape(ts, i, VarSection);
    } else {
      FunctionProcRoot(ts, i);
    }
  }

  /** A routine is a BINARY node on its keyword. */
  lemma {:induction false} FunctionProcRoot(ts: seq<Token>, i: nat)
    requires FunctionProc(ts, i).Success?
    ensures FunctionProc(ts, i).value.value.Node? && FunctionProc(ts, i).value.value.kind == BINARY
    ensures FunctionProc(ts, i).value.value.token == Some(ts[i])
  {
    var ident := Identifier(ts, i + 1).value;
    var parlist := ParameterList(ts, ident.next).value;
    var ret := ReturnType(ts, parlist.next, ts[i].kind == TOK_FUNCTION).value;
    assert FunctionProc(ts, i) == RoutineBody(ts, ret.next, ts[i], Binary(ts[i + 1], parlist.value, ret.value));
  }

  /** The root of a compound part: UNARY on the BEGIN token. */
  predicate BeginNode(e: PExpr) {
    e.Node? && e.kind == UNARY && e.token.Some? && e.token.value.kind == TOK_BEGIN
  }

  /** Collected links of `beginblock`, before `sep` is carried. */
  predicate BeginBlockLinks(links: seq<Link<Token>>, sep: Token) {
    if |links| == 0 then sep.kind == TOK_BEGIN
    else
      (sep.kind == TOK_SEMICOLON && links[0].kind == UNARY && links[0].token.Some?
       && links[0].token.value.kind == TOK_BEGIN
       && forall k :: 1 <= k < |links| ==>
            links[k].kind == BINARY && links[k].token.Some? && links[k].token.value.kind == TOK_SEMICOLON)
  }

  /** The loop of `beginblock` closes a UNARY root with a SEMICOLON spine
      ending in null, right after the END it takes. */
  lemma {:induction false} BeginBlockLoopShape(ts: seq<Token>, i: nat, links: seq<Link<Token>>, sep: Token)
    requires BeginBlockLinks(links, sep) && BeginBlockLoop(ts, i, links, sep).Success?
    ensures BeginNode(BeginBlockLoop(ts, i, links, sep).value.value)
    ensures NullTail(BeginBlockLoop(ts, i, links, sep).value.value.right, TOK_SEMICOLON)
    ensures BeginBlockLoop(ts, i, links, sep).value.value.token == if |links| == 0 then Some(sep) else links[0].token
    ensures ts[BeginBlockLoop(ts, i, links, sep).value.next - 1].kind == TOK_END
    decreases |ts| - i
  {
    var s := Statement(ts, i).value;
    var links' := links + [Link(if |links| == 0 then UNARY else BINARY, Some(sep), s.value)];
    assert BeginBlockLinks(links', ts[s.next]) || ts[s.next].kind != TOK_SEMICOLON;
    if ts[s.next].kind == TOK_END {
      ChainNullTail(links'[1..], TOK_SEMICOLON);
    } else {
      BeginBlockLoopShape(ts, s.next + 1, links', ts[s.next]);
    }
  }

  /** The compound part of a block is UNARY on its BEGIN with SEMICOLON
      nodes after it; unlike a compound statement it stores no END, and it
      ends right after the END. */
  lemma {:induction false} BeginBlockShape(ts: seq<Token>, i: nat)
    requires BeginBlock(ts, i).Success?
    ensures BeginNode(BeginBlock(ts, i).value.value) && BeginBlock(ts, i).value.value.token == Some(ts[i])
    ensures NullTail(BeginBlock(ts, i).value.value.right, TOK_SEMICOLON)
    ensures ts[BeginBlock(ts, i).value.next - 1].kind == TOK_END
  {
    BeginBlockLoopShape(ts, i + 1, [], ts[i]);
  }

  /** A spine of BINARY nodes on `newsemi` tokens through `exp_right`,
      ending in null. */
  predicate NewSemiChain(e: PExpr)
    decreases e
  {
    e.Null? || (e.kind == BINARY && e.token == Some(NewSemi) && NewSemiChain(e.right))
  }

  /** Collected block links: `newsemi` nodes over parts. */
  predicate BlockLinks(links: seq<Link<Token>>) {
    forall k :: 0 <= k < |links| ==>
      links[k].kind == BINARY && links[k].token == Some(NewSemi)
      && links[k].left.Node? && links[k].left.kind == BINARY && links[k].left.token.Some?
      && PartKind(links[k].left.token.value.kind)
  }

  /** A block as `parser_block` leaves it: a non-empty `newsemi` spine whose
      last node holds the compound part and whose earlier nodes hold
      sections and routines. */
  predicate BlockClosed(e: PExpr) {
    e.Node? && NewSemiChain(e) && |Lefts(e)| > 0 && BeginNode(Lefts(e)[|Lefts(e)| - 1])
    && forall k :: 0 <= k < |Lefts(e)| - 1 ==>
      Lefts(e)[k].Node? && Lefts(e)[k].kind == BINARY && Lefts(e)[k].token.Some? && PartKind(Lefts(e)[k].token.value.kind)
  }

  lemma {:induction false} ChainNewSemi(links: seq<Link<Token>>)
    requires forall k :: 0 <= k < |links| ==> links[k].kind == BINARY && links[k].token == Some(NewSemi)
    ensures NewSemiChain(Chain(links, Null))
    decreases |links|
  {
    if |links| > 0 {
      ChainNewSemi(links[1..]);
    }
  }

  /** The loop of `parser_block` closes a block shape. */
  lemma {:induction false} BlockLoopShape(ts: seq<Token>, i: nat, links: seq<Link<Token>>)
    requires BlockLinks(links) && BlockLoop(ts, i, links).Success?
    ensures BlockClosed(BlockLoop(ts, i, links).value.value)
    ensures ts[BlockLoop(ts, i, links).value.next - 1].kind == TOK_END
    decreases |ts| - i
  {
    if ts[i].kind == TOK_BEGIN {
      var b := BeginBlock(ts, i).value;
      BeginBlockShape(ts, i);
      var links' := links + [Link(BINARY, Some(NewSemi), b.value)];
      ChainNewSemi(links');
      ChainLefts(links', Null);
      assert Lefts(Chain(links', Null)) == LinkLefts(links');
    } else {
      var part := BlockPart(ts, i).value;
      BlockPartRoot(ts, i);
      BlockLoopShape(ts, part.next, links + [Link(BINARY, Some(NewSemi), part.value)]);
    }
  }

  /** A block is a `newsemi` spine of its parts in source order, ending with
      the compound part; the token before its end is END. */
  lemma {:induction false} BlockShape(ts: seq<Token>, i: nat)
    requires Block(ts, i).Success?
    ensures BlockClosed(Block(ts, i).value.value)
    ensures ts[Block(ts, i).value.next - 1].kind == TOK_END
  {
    BlockLoopShape(ts, i, []);
  }

  /** `begin end` alone is BINARY(newsemi, UNARY(BEGIN, null), null). */
  lemma {:induction false} EmptyBlockExact(ts: seq<Token>, i: nat)
    requires i + 1 < |ts| && ts[i].kind == TOK_BEGIN && ts[i + 1].kind == TOK_END
    ensures Block(ts, i) == Success(Parsed(Binary(NewSemi, Unary(ts[i], Null), Null), i + 2))
  {
    EmptyStatement(ts, i + 1);
    var first := Link(UNARY, Some(ts[i]), Null);
    assert [] + [first] == [first];
    assert BeginBlockLoop(ts, i + 1, [], ts[i]) == Success(Parsed(Chain([first], Null), i + 2));
    assert BeginBlock(ts, i) == Success(Parsed(Unary(ts[i], Null), i + 2));
    var part := Link(BINARY, Some(NewSemi), Unary(ts[i], Null));
    assert [] + [part] == [part];
    assert BlockLoop(ts, i, []) == Success(Parsed(Chain([part], Null), i + 2));
  }
}
