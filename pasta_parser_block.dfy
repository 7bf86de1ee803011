/** Blocks (libpasta/parser-block.c): CONST, TYPE and VAR sections and
    routine declarations in any order, closed by the BEGIN section.

    The block's own nodes carry a synthetic SEMICOLON token that
    `newsemi` allocates with a null meta; its line and column are left
    uninitialised in C and are 0 here. */
module PastaParserBlock {
  import opened Wrappers
  import opened PastaToken
  import opened Ast
  import opened PastaParser
  import opened PastaParserCommon
  import opened PastaParserSimple
  import opened PastaParserConstant
  import opened PastaParserType
  import opened PastaParserParameterList
  import opened PastaParserStatement

  /** `newsemi`. */
  const NewSemi: Token := Token(TOK_SEMICOLON, None, 0, 0)

  /** The three declaration sections. `constblock`, `typeblock` and
      `varblock` are the same loop over their own declaration. */
  datatype Section = ConstSection | TypeSection | VarSection

  /** The keyword that opens a section. */
  function SectionKeyword(s: Section): TokenType {
    match s
    case ConstSection => TOK_CONST
    case TypeSection => TOK_TYPE
    case VarSection => TOK_VAR
  }

  /** `parser_block_prologue`: the kinds that end a section. */
  predicate Prologue(k: TokenType) {
    k == TOK_CONST || k == TOK_TYPE || k == TOK_VAR || k == TOK_PROCEDURE
    || k == TOK_FUNCTION || k == TOK_BEGIN || k == TOK_EOF
  }

  /** `parser_block`. */
  function Block(ts: seq<Token>, i: nat): (r: Outcome<PExpr>)
    ensures r.Success? ==> i < r.value.next <= |ts|
    decreases |ts| - i, 3
  {
    BlockLoop(ts, i, [])
  }

  /** The loop of `parser_block` once the parts `links` are built: BEGIN
      ends the block, any other part is followed by another. */
  function BlockLoop(ts: seq<Token>, i: nat, links: seq<Link<Token>>): (r: Outcome<PExpr>)
    ensures r.Success? ==> i < r.value.next <= |ts|
    decreases |ts| - i, 2
  {
    var token :- PeekAt(ts, i);
    if token.kind == TOK_BEGIN then
      var b :- BeginBlock(ts, i);
      Success(Parsed(Chain(links + [Link(BINARY, Some(NewSemi), b.value)], Null), b.next))
    else
      var part :- BlockPart(ts, i);
      BlockLoop(ts, part.next, links + [Link(BINARY, Some(NewSemi), part.value)])
  }

  /** The switch of `parser_block` for a part other than BEGIN. */
  function BlockPart(ts: seq<Token>, i: nat): (r: Outcome<PExpr>)
    requires i < |ts|
    ensures r.Success? ==> i < r.value.next <= |ts|
    decreases |ts| - i, 1
  {
    var k := ts[i].kind;
    if k == TOK_CONST then SectionBlock(ts, i, ConstSection)
    else if k == TOK_TYPE then SectionBlock(ts, i, TypeSection)
    else if k == TOK_VAR then SectionBlock(ts, i, VarSection)
    else if k == TOK_FUNCTION || k == TOK_PROCEDURE then FunctionProc(ts, i)
    else Failure(SyntaxError(ts[i]))
  }

  /** `constblock`, `typeblock`, `varblock`: the keyword roots the first
      declaration. */
  function SectionBlock(ts: seq<Token>, i: nat, s: Section): (r: Outcome<PExpr>)
    ensures r.Success? ==> i < r.value.next <= |ts|
  {
    var root :- TokenExpect(ts, i, SectionKeyword(s));
    SectionLoop(ts, root.next, s, [], root.value)
  }

  /** The loop of a section once the declarations `links` are built: a
      declaration on a node of the carried token `sep` and its `;`; a
      prologue kind next ends the section, which then ends in null. */
  function SectionLoop(ts: seq<Token>, i: nat, s: Section, links: seq<Link<Token>>, sep: Token): (r: Outcome<PExpr>)
    ensures r.Success? ==> i < r.value.next <= |ts|
    decreases |ts| - i
  {
    var d :- Declaration(ts, i, s);
    var semicolon :- TokenExpect(ts, d.next, TOK_SEMICOLON);
    var peek :- PeekAt(ts, semicolon.next);
    var links' := links + [Link(BINARY, Some(sep), d.value)];
    if Prologue(peek.kind) then Success(Parsed(Chain(links', Null), semicolon.next))
    else SectionLoop(ts, semicolon.next, s, links', semicolon.value)
  }

  /** The declaration of a section. */
  function Declaration(ts: seq<Token>, i: nat, s: Section): (r: Outcome<PExpr>)
    ensures r.Success? ==> i < r.value.next <= |ts|
  {
    match s
    case ConstSection => ConstDeclaration(ts, i)
    case TypeSection => TypeDeclaration(ts, i)
    case VarSection => VarDeclaration(ts, i)
  }

  /** `constexpression`: `id = constant`, rooted by the `=`. */
  function ConstDeclaration(ts: seq<Token>, i: nat): (r: Outcome<PExpr>)
    ensures r.Success? ==> i < r.value.next <= |ts|
  {
    var id :- Identifier(ts, i);
    var equal :- TokenExpect(ts, id.next, TOK_EQUAL);
    var c :- Constant(ts, equal.next);
    Success(Parsed(Binary(equal.value, id.value, c.value), c.next))
  }

  /** `typeexpression`: `id = type`, rooted by the `=`. */
  function TypeDeclaration(ts: seq<Token>, i: nat): (r: Outcome<PExpr>)
    ensures r.Success? ==> i < r.value.next <= |ts|
  {
    var id :- Identifier(ts, i);
    var equal :- TokenExpect(ts, id.next, TOK_EQUAL);
    var t :- Type(ts, equal.next);
    Success(Parsed(Binary(equal.value, id.value, t.value), t.next))
  }

  /** `varexpression`: `ids : type`, rooted by the `:`. */
  function VarDeclaration(ts: seq<Token>, i: nat): (r: Outcome<PExpr>)
    ensures r.Success? ==> i < r.value.next <= |ts|
  {
    var ids :- IdentifierList(ts, i);
    var colon :- TokenExpect(ts, ids.next, TOK_COLON);
    var t :- Type(ts, colon.next);
    Success(Parsed(Binary(colon.value, ids.value, t.value), t.next))
  }

  /** `functionproc`: `kw id params [: T] ; block ;` as
      BINARY(kw, BINARY(id, params, T or null), block); only FUNCTION
      takes the `: T`. */
  function FunctionProc(ts: seq<Token>, i: nat): (r: Outcome<PExpr>)
    ensures r.Success? ==> i < r.value.next <= |ts|
    decreases |ts| - i, 0
  {
    var keyword :- TokenAt(ts, i);
    var ident :- Identifier(ts, keyword.next);
    var parlist :- ParameterList(ts, ident.next);
    var ret :- ReturnType(ts, parlist.next, keyword.value.kind == TOK_FUNCTION);
    RoutineBody(ts, ret.next, keyword.value, Binary(ts[keyword.next], parlist.value, ret.value))
  }

  /** The `; block ;` after a routine's prototype. */
  function RoutineBody(ts: seq<Token>, i: nat, keyword: Token, prototype: PExpr): (r: Outcome<PExpr>)
    ensures r.Success? ==> i < r.value.next <= |ts|
    decreases |ts| - i, 0
  {
    var semi :- TokenExpect(ts, i, TOK_SEMICOLON);
    var block :- Block(ts, semi.next);
    var close :- TokenExpect(ts, block.next, TOK_SEMICOLON);
    Success(Parsed(Binary(keyword, prototype, block.value), close.next))
  }

  /** The `: T` of a function prototype; nothing for a procedure. */
  function ReturnType(ts: seq<Token>, i: nat, isFunction: bool): (r: Outcome<PExpr>)
    requires i <= |ts|
    ensures r.Success? ==> i <= r.value.next <= |ts|
    ensures !isFunction ==> r == Success(Parsed(Null, i))
  {
    if !isFunction then Success(Parsed(Null, i))
    else
      var colon :- TokenExpect(ts, i, TOK_COLON);
      Type(ts, colon.next)
  }

  /** `beginblock`: UNARY(BEGIN) over the first statement, then SEMICOLON
      nodes through `exp_right`; the closing END is taken, not stored. */
  function BeginBlock(ts: seq<Token>, i: nat): (r: Outcome<PExpr>)
    ensures r.Success? ==> i < r.value.next <= |ts|
  {
    var begin :- TokenExpect(ts, i, TOK_BEGIN);
    BeginBlockLoop(ts, begin.next, [], begin.value)
  }

  /** The loop of `beginblock` once the statements `links` are built; the
      root node is UNARY and the later ones BINARY. */
  function BeginBlockLoop(ts: seq<Token>, i: nat, links: seq<Link<Token>>, sep: Token): (r: Outcome<PExpr>)
    ensures r.Success? ==> i < r.value.next <= |ts|
    decreases |ts| - i
  {
    var s :- Statement(ts, i);
    var separator :- TokenAt(ts, s.next);
    var links' := links + [Link(if |links| == 0 then UNARY else BINARY, Some(sep), s.value)];
    if separator.value.kind == TOK_SEMICOLON then BeginBlockLoop(ts, separator.next, links', separator.value)
    else if separator.value.kind == TOK_END then Success(Parsed(Chain(links', Null), separator.next))
    else Failure(SyntaxError(separator.value))
  }

  method ParseBlock(p: Parser) returns (r: Result<PExpr, ParseError>)
    modifies p`pos
    ensures Pack(r, p.pos) == Block(p.tokens, old(p.pos))
    decreases |p.tokens| - p.pos, 3
  {
    ghost var pos0 := p.pos;
    var links: seq<Link<Token>> := [];
    ghost var goal := Block(p.tokens, p.pos);
    assert goal == BlockLoop(p.tokens, p.pos, links);
    while true
      invariant pos0 <= p.pos && BlockLoop(p.tokens, p.pos, links) == goal
      decreases |p.tokens| - p.pos
    {
      var token :- p.Peek();
      if token.kind == TOK_BEGIN {
        var b :- ParseBeginBlock(p);
        return Success(Chain(links + [Link(BINARY, Some(NewSemi), b)], Null));
      }
      var part :- ParseBlockPart(p);
      links := links + [Link(BINARY, Some(NewSemi), part)];
    }
  }

  method ParseBlockPart(p: Parser) returns (r: Result<PExpr, ParseError>)
    requires p.pos < |p.tokens|
    modifies p`pos
    ensures Pack(r, p.pos) == BlockPart(p.tokens, old(p.pos))
    decreases |p.tokens| - p.pos, 2
  {
    var k := p.tokens[p.pos].kind;
    if k == TOK_CONST {
      r := ParseSectionBlock(p, ConstSection);
    } else if k == TOK_TYPE {
      r := ParseSectionBlock(p, TypeSection);
    } else if k == TOK_VAR {
      r := ParseSectionBlock(p, VarSection);
    } else if k == TOK_FUNCTION || k == TOK_PROCEDURE {
      r := ParseFunctionProc(p);
    } else {
      r := Failure(SyntaxError(p.tokens[p.pos]));
    }
  }

  method ParseSectionBlock(p: Parser, s: Section) returns (r: Result<PExpr, ParseError>)
    modifies p`pos
    ensures Pack(r, p.pos) == SectionBlock(p.tokens, old(p.pos), s)
  {
    var sep :- ParseTokenExpect(p, SectionKeyword(s));
    var links: seq<Link<Token>> := [];
    ghost var goal := SectionLoop(p.tokens, p.pos, s, links, sep);
    while true
      invariant SectionLoop(p.tokens, p.pos, s, links, sep) == goal
      decreases |p.tokens| - p.pos
    {
      var d :- ParseDeclaration(p, s);
      var semicolon :- ParseTokenExpect(p, TOK_SEMICOLON);
      var peek :- p.Peek();
      links := links + [Link(BINARY, Some(sep), d)];
      if Prologue(peek.kind) {
        return Success(Chain(links, Null));
      }
      sep := semicolon;
    }
  }

  method ParseDeclaration(p: Parser, s: Section) returns (r: Result<PExpr, ParseError>)
    modifies p`pos
    ensures Pack(r, p.pos) == Declaration(p.tokens, old(p.pos), s)
  {
    match s
    case ConstSection =>
      var id :- ParseIdentifier(p);
      var equal :- ParseTokenExpect(p, TOK_EQUAL);
      var c :- ParseConstant(p);
      return Success(Binary(equal, id, c));
    case TypeSection =>
      var id :- ParseIdentifier(p);
      var equal :- ParseTokenExpect(p, TOK_EQUAL);
      var t :- ParseType(p);
      return Success(Binary(equal, id, t));
    case VarSection =>
      var ids :- ParseIdentifierList(p);
      var colon :- ParseTokenExpect(p, TOK_COLON);
      var t :- ParseType(p);
      return Success(Binary(colon, ids, t));
  }

  method ParseFunctionProc(p: Parser) returns (r: Result<PExpr, ParseError>)
    modifies p`pos
    ensures Pack(r, p.pos) == FunctionProc(p.tokens, old(p.pos))
    decreases |p.tokens| - p.pos, 1
  {
    var keyword :- p.Token();
    var ident :- ParseIdentifier(p);
    var parlist :- ParseParameterList(p);
    var ret: PExpr := Null;
    if keyword.kind == TOK_FUNCTION {
      var _ :- ParseTokenExpect(p, TOK_COLON);
      ret :- ParseType(p);
    }
    var _ :- ParseTokenExpect(p, TOK_SEMICOLON);
    var block :- ParseBlock(p);
    var _ :- ParseTokenExpect(p, TOK_SEMICOLON);
    return Success(Binary(keyword, Binary(ident.token.value, parlist, ret), block));
  }

  method ParseBeginBlock(p: Parser) returns (r: Result<PExpr, ParseError>)
    modifies p`pos
    ensures Pack(r, p.pos) == BeginBlock(p.tokens, old(p.pos))
  {
    var sep :- ParseTokenExpect(p, TOK_BEGIN);
    var links: seq<Link<Token>> := [];
    ghost var goal := BeginBlockLoop(p.tokens, p.pos, links, sep);
    while true
      invariant BeginBlockLoop(p.tokens, p.pos, links, sep) == goal
      decreases |p.tokens| - p.pos
    {
      var s :- ParseStatement(p);
      var separator :- p.Token();
      links := links + [Link(if |links| == 0 then UNARY else BINARY, Some(sep), s)];
      if separator.kind == TOK_END {
        return Success(Chain(links, Null));
      }
      if separator.kind != TOK_SEMICOLON {
        return Failure(SyntaxError(separator));
      }
      sep := separator;
    }
  }
}
