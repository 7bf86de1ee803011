/** Formal parameter lists of procedures and functions
    (libpasta/parser-parameter-list.c): no list at all, or groups
    `[var] ids : type` separated by semicolons inside parentheses. */
module PastaParserParameterList {
  import opened Wrappers
  import opened PastaToken
  import opened Ast
  import opened PastaParser
  import opened PastaParserCommon

  /** `parser_parameter_list`: without a `(`, or with `(` directly followed
      by `)`, there is no list and nothing is consumed. */
  function ParameterList(ts: seq<Token>, i: nat): (r: Outcome<PExpr>)
    ensures r.Success? ==> i <= r.value.next <= |ts|
  {
    var first :- PeekAt(ts, i);
    if first.kind != TOK_LPAREN then Success(Parsed(Null, i))
    else
      var second :- PeekFarAt(ts, i, 1);
      if second.kind == TOK_RPAREN then Success(Parsed(Null, i))
      else GroupList(ts, i)
  }

  /** `do_parse_parameter_list`: the `(` roots the first group. */
  function GroupList(ts: seq<Token>, i: nat): (r: Outcome<PExpr>)
    ensures r.Success? ==> i < r.value.next <= |ts|
  {
    var lparen :- TokenExpect(ts, i, TOK_LPAREN);
    GroupLoop(ts, lparen.next, [], lparen.value)
  }

  /** The loop of `do_parse_parameter_list` once the groups `links` are
      built: a group is parsed into a node on the carried token `sep`, then
      `)` closes the list and `;` is carried over to the next group. */
  function GroupLoop(ts: seq<Token>, i: nat, links: seq<Link<Token>>, sep: Token): (r: Outcome<PExpr>)
    ensures r.Success? ==> i < r.value.next <= |ts|
    decreases |ts| - i
  {
    var g :- IdTypeBlock(ts, i);
    var t :- TokenAt(ts, g.next);
    var links' := links + [Link(BINARY, Some(sep), g.value)];
    if t.value.kind == TOK_RPAREN then Success(Parsed(Chain(links', Literal(t.value)), t.next))
    else if t.value.kind != TOK_SEMICOLON then Failure(SyntaxError(t.value))
    else GroupLoop(ts, t.next, links', t.value)
  }

  /** `do_parse_idtype_block`: `[var] ids : type`, rooted by the type's
      identifier token. */
  function IdTypeBlock(ts: seq<Token>, i: nat): (r: Outcome<PExpr>)
    ensures r.Success? ==> i < r.value.next <= |ts|
  {
    var first :- PeekAt(ts, i);
    if first.kind == TOK_VAR then
      var ids :- IdentifierList(ts, i + 1);
      var ty :- GroupType(ts, ids.next);
      Success(Parsed(Binary(ty.value, Literal(first), ids.value), ty.next))
    else
      var ids :- IdentifierList(ts, i);
      var ty :- GroupType(ts, ids.next);
      Success(Parsed(Unary(ty.value, ids.value), ty.next))
  }

  /** The `: type` of a group: a colon, then a single identifier. */
  function GroupType(ts: seq<Token>, i: nat): (r: Outcome<Token>)
    ensures r.Success? <==> i + 1 < |ts| && ts[i].kind == TOK_COLON && ts[i + 1].kind == TOK_IDENTIFIER
    ensures r.Success? ==> r.value == Parsed(ts[i + 1], i + 2)
    ensures i < |ts| && ts[i].kind != TOK_COLON ==> r == Failure(SyntaxError(ts[i]))
    ensures i + 1 < |ts| && ts[i].kind == TOK_COLON && ts[i + 1].kind != TOK_IDENTIFIER ==>
      r == Failure(SyntaxError(ts[i + 1]))
  {
    var colon :- TokenExpect(ts, i, TOK_COLON);
    TokenExpect(ts, colon.next, TOK_IDENTIFIER)
  }

  method ParseParameterList(p: Parser) returns (r: Result<PExpr, ParseError>)
    modifies p`pos
    ensures Pack(r, p.pos) == ParameterList(p.tokens, old(p.pos))
  {
    var first :- p.Peek();
    if first.kind != TOK_LPAREN {
      return Success(Null);
    }
    var second :- p.PeekFar(1);
    if second.kind == TOK_RPAREN {
      return Success(Null);
    }
    r := ParseGroupList(p);
  }

  method ParseGroupList(p: Parser) returns (r: Result<PExpr, ParseError>)
    modifies p`pos
    ensures Pack(r, p.pos) == GroupList(p.tokens, old(p.pos))
  {
    var sep :- ParseTokenExpect(p, TOK_LPAREN);
    var links: seq<Link<Token>> := [];
    ghost var goal := GroupLoop(p.tokens, p.pos, links, sep);
    while true
      invariant GroupLoop(p.tokens, p.pos, links, sep) == goal
      decreases |p.tokens| - p.pos
    {
      var g :- ParseIdTypeBlock(p);
      var t :- p.Token();
      links := links + [Link(BINARY, Some(sep), g)];
      if t.kind == TOK_RPAREN {
        return Success(Chain(links, Literal(t)));
      }
      if t.kind != TOK_SEMICOLON {
        return Failure(SyntaxError(t));
      }
      sep := t;
    }
  }

  method ParseIdTypeBlock(p: Parser) returns (r: Result<PExpr, ParseError>)
    modifies p`pos
    ensures Pack(r, p.pos) == IdTypeBlock(p.tokens, old(p.pos))
  {
    var first :- p.Peek();
    if first.kind == TOK_VAR {
      var _ := p.Token();
      var ids :- ParseIdentifierList(p);
      var ty :- ParseGroupType(p);
      return Success(Binary(ty, Literal(first), ids));
    }
    var ids :- ParseIdentifierList(p);
    var ty :- ParseGroupType(p);
    return Success(Unary(ty, ids));
  }

  method ParseGroupType(p: Parser) returns (r: Result<Token, ParseError>)
    modifies p`pos
    ensures Pack(r, p.pos) == GroupType(p.tokens, old(p.pos))
  {
    var _ :- ParseTokenExpect(p, TOK_COLON);
    r := ParseTokenExpect(p, TOK_IDENTIFIER);
  }

  /** A parameter group as `do_parse_idtype_block` builds it: rooted by the
      type's identifier, UNARY over the identifier chain, or BINARY with
      LITERAL(VAR) on the left and the identifier chain on the right. */
  predicate GroupNode(e: PExpr) {
    e.Node? && e.token.Some? && e.token.value.kind == TOK_IDENTIFIER
    && ((e.kind == UNARY && e.right.Null?)
        || (e.kind == BINARY && e.left.Node? && e.left.kind == LITERAL && e.left.token.Some?
            && e.left.token.value.kind == TOK_VAR && e.left == Literal(e.left.token.value)))
  }

  /** Every item of `s` is a parameter group. */
  predicate AllGroups(s: seq<PExpr>) {
    forall k :: 0 <= k < |s| ==> GroupNode(s[k])
  }

  /** A group is exactly `UNARY(type, ids)` without `var` and
      `BINARY(type, LITERAL(VAR), ids)` with it. */
  lemma {:induction false} IdTypeBlockExact(ts: seq<Token>, i: nat, ids: Parsed<PExpr>)
    requires i < |ts|
    requires IdentifierList(ts, if ts[i].kind == TOK_VAR then i + 1 else i) == Success(ids)
    requires ids.next + 1 < |ts| && ts[ids.next].kind == TOK_COLON && ts[ids.next + 1].kind == TOK_IDENTIFIER
    ensures ts[i].kind != TOK_VAR ==>
      IdTypeBlock(ts, i) == Success(Parsed(Unary(ts[ids.next + 1], ids.value), ids.next + 2))
    ensures ts[i].kind == TOK_VAR ==>
      IdTypeBlock(ts, i) == Success(Parsed(Binary(ts[ids.next + 1], Literal(ts[i]), ids.value), ids.next + 2))
  {
  }

  /** Every group that parses has the shape of `GroupNode`. */
  lemma {:induction false} IdTypeBlockShape(ts: seq<Token>, i: nat)
    requires IdTypeBlock(ts, i).Success?
    ensures GroupNode(IdTypeBlock(ts, i).value.value)
  {
  }

  /** The type of a group must be an identifier right after the colon;
      anything else there is an error on that token. */
  lemma {:induction false} GroupTypeNotIdentifier(ts: seq<Token>, i: nat, ids: Parsed<PExpr>)
    requires i < |ts| && ts[i].kind != TOK_VAR && IdentifierList(ts, i) == Success(ids)
    requires ids.next + 1 < |ts| && ts[ids.next].kind == TOK_COLON && ts[ids.next + 1].kind != TOK_IDENTIFIER
    ensures IdTypeBlock(ts, i) == Failure(SyntaxError(ts[ids.next + 1]))
  {
  }

  /** No `(`, or `()`: the result is null and nothing is consumed. */
  lemma {:induction false} NoParameters(ts: seq<Token>, i: nat)
    requires i < |ts|
    requires ts[i].kind != TOK_LPAREN || (i + 1 < |ts| && ts[i + 1].kind == TOK_RPAREN)
    ensures ParameterList(ts, i) == Success(Parsed(Null, i))
  {
  }

  /** The converse: a null list, or one that consumes nothing, only comes
      from those two forms. */
  lemma {:induction false} NullMeansNoParameters(ts: seq<Token>, i: nat)
    requires ParameterList(ts, i).Success?
    requires ParameterList(ts, i).value.value.Null? || ParameterList(ts, i).value.next == i
    ensures i < |ts| && (ts[i].kind != TOK_LPAREN || (i + 1 < |ts| && ts[i + 1].kind == TOK_RPAREN))
    ensures ParameterList(ts, i) == Success(Parsed(Null, i))
  {
    if i < |ts| && ts[i].kind == TOK_LPAREN && !(i + 1 < |ts| && ts[i + 1].kind == TOK_RPAREN) {
      assert ParameterList(ts, i) == GroupList(ts, i);
      GroupListShape(ts, i);
      assert false;
    }
  }

  /** After a group, a token other than `;` or `)` is an error on it. */
  lemma {:induction false} GroupBadSeparator(ts: seq<Token>, i: nat, links: seq<Link<Token>>, sep: Token, g: Parsed<PExpr>)
    requires IdTypeBlock(ts, i) == Success(g) && g.next < |ts|
    requires ts[g.next].kind != TOK_SEMICOLON && ts[g.next].kind != TOK_RPAREN
    ensures GroupLoop(ts, i, links, sep) == Failure(SyntaxError(ts[g.next]))
  {
  }

  /** One group, then `;`: the loop goes on with a node on the carried
      token, and the `;` is carried. */
  lemma {:induction false} GroupLoopStep(ts: seq<Token>, i: nat, links: seq<Link<Token>>, sep: Token, g: Parsed<PExpr>)
    requires IdTypeBlock(ts, i) == Success(g) && g.next < |ts| && ts[g.next].kind == TOK_SEMICOLON
    ensures GroupLoop(ts, i, links, sep) ==
      GroupLoop(ts, g.next + 1, links + [Link(BINARY, Some(sep), g.value)], ts[g.next])
  {
  }

  /** Collected group links, before `sep` is carried to the next group. */
  predicate GroupLinks(links: seq<Link<Token>>, sep: Token) {
    (if |links| == 0 then sep.kind == TOK_LPAREN else sep.kind == TOK_SEMICOLON)
    && (|links| == 0 || ListLinks(links, TOK_LPAREN, TOK_SEMICOLON))
    && AllGroups(LinkLefts(links))
  }

  /** A group on the carried token extends the links and keeps their form. */
  lemma GroupLinksAdd(links: seq<Link<Token>>, sep: Token, g: PExpr)
    requires GroupLinks(links, sep) && GroupNode(g)
    ensures var links' := links + [Link(BINARY, Some(sep), g)];
      ListLinks(links', TOK_LPAREN, TOK_SEMICOLON) && AllGroups(LinkLefts(links'))
      && LinkLefts(links') == LinkLefts(links) + [g]
  {
    var links' := links + [Link(BINARY, Some(sep), g)];
    assert LinkLefts(links') == LinkLefts(links) + [g];
  }

  /** Closing the links with `)` gives a bracketed list of groups. */
  lemma GroupLinksClose(links: seq<Link<Token>>, close: Token)
    requires ListLinks(links, TOK_LPAREN, TOK_SEMICOLON) && AllGroups(LinkLefts(links)) && close.kind == TOK_RPAREN
    ensures var e := Chain(links, Literal(close));
      BracketList(e, TOK_LPAREN, TOK_SEMICOLON, TOK_RPAREN)
      && Lefts(e) == LinkLefts(links) + [Null] && AllGroups(Lefts(e)[..|Lefts(e)| - 1])
  {
    ListLinksClose(links, TOK_LPAREN, TOK_SEMICOLON, close);
    ChainLefts(links, Literal(close));
    var e := Chain(links, Literal(close));
    assert Lefts(e)[..|Lefts(e)| - 1] == LinkLefts(links);
  }

  /** `e` is a closed parameter list whose first items are `prefix`. */
  predicate GroupsClosed(e: PExpr, prefix: seq<PExpr>) {
    BracketList(e, TOK_LPAREN, TOK_SEMICOLON, TOK_RPAREN)
    && |Lefts(e)| > |prefix| + 1 && Lefts(e)[..|prefix|] == prefix
    && AllGroups(Lefts(e)[..|Lefts(e)| - 1])
  }

  lemma GroupsClosedPrefix(e: PExpr, prefix: seq<PExpr>, more: seq<PExpr>)
    requires GroupsClosed(e, prefix + more)
    ensures GroupsClosed(e, prefix)
  {
    assert Lefts(e)[..|prefix|] == Lefts(e)[..|prefix + more|][..|prefix|];
  }

  /** The loop closes a bracketed list whose items are all groups, and the
      items are the collected ones followed by the new ones. */
  lemma {:induction false} GroupLoopShape(ts: seq<Token>, i: nat, links: seq<Link<Token>>, sep: Token)
    requires GroupLinks(links, sep) && GroupLoop(ts, i, links, sep).Success?
    ensures GroupsClosed(GroupLoop(ts, i, links, sep).value.value, LinkLefts(links))
    decreases |ts| - i
  {
    var g := IdTypeBlock(ts, i).value;
    IdTypeBlockShape(ts, i);
    GroupLinksAdd(links, sep, g.value);
    var links' := links + [Link(BINARY, Some(sep), g.value)];
    if ts[g.next].kind == TOK_RPAREN {
      GroupLinksClose(links', ts[g.next]);
      var e := Chain(links', Literal(ts[g.next]));
      assert GroupLoop(ts, i, links, sep).value.value == e;
      assert Lefts(e) == LinkLefts(links) + [g.value, Null];
      assert Lefts(e)[..|links|] == LinkLefts(links);
    } else {
      GroupLoopStep(ts, i, links, sep, g);
      GroupLoopShape(ts, g.next + 1, links', ts[g.next]);
      GroupsClosedPrefix(GroupLoop(ts, i, links, sep).value.value, LinkLefts(links), [g.value]);
    }
  }

  /** A non-empty list is BINARY(LPAREN, group, …): later groups rooted by
      their semicolons, the last right child LITERAL(RPAREN), and every
      item a parameter group. */
  lemma {:induction false} GroupListShape(ts: seq<Token>, i: nat)
    requires GroupList(ts, i).Success?
    ensures GroupList(ts, i).value.value.Node? && GroupsClosed(GroupList(ts, i).value.value, [])
  {
    assert LinkLefts<Token>([]) == [];
    GroupLoopShape(ts, i + 1, [], ts[i]);
  }
}
