/** Formal parameter lists in the first compiler
    (lib/parser-parameter-list.c): no list at all, or groups
    `[var] ids : type` separated by semicolons inside parentheses.

    `parse_identifier_list` is declared in include/parser.h but its body is
    not part of this model: every function here takes it as a parameter
    `idList`, of which only one thing is known, that it never moves the
    position backwards nor past the end of the tokens. */
module LegacyParameterList {
  import opened Wrappers
  import opened LegacyToken
  import opened Ast
  import opened LegacyParser

  /** A parser of identifier lists: on success the new position lies
      between the old one and the end. */
  type IdListParser = f: (seq<Token>, nat) -> Outcome<LExpr>
    | forall ts: seq<Token>, i: nat :: f(ts, i).Success? ==> i <= f(ts, i).value.next <= |ts|
    witness (ts: seq<Token>, i: nat) => Failure(PastEnd)

  /** `parser_parameter_list`: without a `(` there is no list and nothing
      is consumed; every `(`, even one followed by `)`, starts a list. */
  function ParameterList(ts: seq<Token>, i: nat, idList: IdListParser): (r: Outcome<LExpr>)
    ensures r.Success? ==> i <= r.value.next <= |ts|
  {
    var peekable :- PeekAt(ts, i);
    if peekable.kind == TOK_LPAREN then GroupList(ts, i, idList)
    else Success(Parsed(Null, i))
  }

  /** `do_parse_parameter_list`: the `(` is taken without a check and
      roots the first group. */
  function GroupList(ts: seq<Token>, i: nat, idList: IdListParser): (r: Outcome<LExpr>)
    ensures r.Success? ==> i < r.value.next <= |ts|
  {
    var lparen :- TokenAt(ts, i);
    GroupLoop(ts, lparen.next, [], lparen.value, idList)
  }

  /** The loop of `do_parse_parameter_list` once the groups `links` are
      built: a group goes into a node on the carried token `sep`, then `)`
      closes the list and `;` is carried over to the next group. */
  function GroupLoop(ts: seq<Token>, i: nat, links: seq<Link<Token>>, sep: Token, idList: IdListParser): (r: Outcome<LExpr>)
    ensures r.Success? ==> i < r.value.next <= |ts|
    decreases |ts| - i
  {
    var g :- IdTypeBlock(ts, i, idList);
    var t :- TokenAt(ts, g.next);
    var links' := links + [Link(BINARY, Some(sep), g.value)];
    if t.value.kind == TOK_RPAREN then Success(Parsed(Chain(links', Literal(t.value)), t.next))
    else if t.value.kind != TOK_SEMICOLON then Failure(SyntaxError(t.value))
    else GroupLoop(ts, t.next, links', t.value, idList)
  }

  /** `do_parse_idtype_block`: an optional `var`, the identifier list, a
      colon, and the type's identifier, which roots the group. */
  function IdTypeBlock(ts: seq<Token>, i: nat, idList: IdListParser): (r: Outcome<LExpr>)
    ensures r.Success? ==> i < r.value.next <= |ts|
  {
    var first :- PeekAt(ts, i);
    var v := if first.kind == TOK_VAR then Parsed(Literal(first), i + 1) else Parsed(Null, i);
    var parlist :- idList(ts, v.next);
    var colon :- Consume(ts, parlist.next, TOK_COLON);
    var ty :- TokenAt(ts, colon);
    if ty.value.kind != TOK_IDENTIFIER then Failure(SyntaxError(ty.value))
    else Success(Parsed(Binary(ty.value, v.value, parlist.value), ty.next))
  }

  /** The call of `parse_identifier_list`. */
  method ParseIdList(p: Parser, idList: IdListParser) returns (r: Result<LExpr, ParseError>)
    modifies p`pos
    ensures Pack(r, p.pos) == idList(p.tokens, old(p.pos))
  {
    var o := idList(p.tokens, p.pos);
    if o.Failure? {
      return Failure(o.error);
    }
    p.pos := o.value.next;
    return Success(o.value.value);
  }

  method ParseParameterList(p: Parser, idList: IdListParser) returns (r: Result<LExpr, ParseError>)
    modifies p`pos
    ensures Pack(r, p.pos) == ParameterList(p.tokens, old(p.pos), idList)
  {
    var peekable :- p.Peek();
    if peekable.kind == TOK_LPAREN {
      r := ParseGroupList(p, idList);
      return;
    }
    return Success(Null);
  }

  method ParseGroupList(p: Parser, idList: IdListParser) returns (r: Result<LExpr, ParseError>)
    modifies p`pos
    ensures Pack(r, p.pos) == GroupList(p.tokens, old(p.pos), idList)
  {
    var token :- p.Token();
    var links: seq<Link<Token>> := [];
    ghost var goal := GroupLoop(p.tokens, p.pos, links, token, idList);
    while true
      invariant GroupLoop(p.tokens, p.pos, links, token, idList) == goal
      decreases |p.tokens| - p.pos
    {
      var idtype :- ParseIdTypeBlock(p, idList);
      var sep := token;
      token :- p.Token();
      links := links + [Link(BINARY, Some(sep), idtype)];
      if token.kind == TOK_RPAREN {
        return Success(Chain(links, Literal(token)));
      }
      if token.kind != TOK_SEMICOLON {
        return Failure(SyntaxError(token));
      }
    }
  }

  method ParseIdTypeBlock(p: Parser, idList: IdListParser) returns (r: Result<LExpr, ParseError>)
    modifies p`pos
    ensures Pack(r, p.pos) == IdTypeBlock(p.tokens, old(p.pos), idList)
  {
    var first :- p.Peek();
    var v: LExpr := Null;
    if first.kind == TOK_VAR {
      var _ := p.Token();
      v := Literal(first);
    }
    var parlist :- ParseIdList(p, idList);
    var _ :- ParseConsume(p, TOK_COLON);
    var ty :- p.Token();
    if ty.kind != TOK_IDENTIFIER {
      return Failure(SyntaxError(ty));
    }
    return Success(Binary(ty, v, parlist));
  }

  /** A parameter group as `do_parse_idtype_block` builds it: BINARY on the
      type's identifier, with LITERAL(VAR) or null on the left. */
  predicate GroupNode(e: LExpr) {
    e.Node? && e.kind == BINARY && e.token.Some? && e.token.value.kind == TOK_IDENTIFIER
    && (e.left.Null? || (e.left.Node? && e.left.token.Some? && e.left.token.value.kind == TOK_VAR
                         && e.left == Literal(e.left.token.value)))
  }

  /** Every item of `s` is a parameter group. */
  predicate AllGroups(s: seq<LExpr>) {
    forall k :: 0 <= k < |s| ==> GroupNode(s[k])
  }

  /** Without a `(` the result is null and nothing is consumed. */
  lemma {:induction false} NoList(ts: seq<Token>, i: nat, idList: IdListParser)
    requires i < |ts| && ts[i].kind != TOK_LPAREN
    ensures ParameterList(ts, i, idList) == Success(Parsed(Null, i))
  {
  }

  /** Any `(` starts a list, `()` included: the result is then never null
      and always consumes tokens; and conversely a null result, or one
      that consumes nothing, means there was no `(`. */
  lemma {:induction false} LParenStartsList(ts: seq<Token>, i: nat, idList: IdListParser)
    requires i < |ts|
    ensures ts[i].kind == TOK_LPAREN ==> ParameterList(ts, i, idList) == GroupList(ts, i, idList)
    ensures ParameterList(ts, i, idList).Success? ==>
      (ts[i].kind == TOK_LPAREN <==> ParameterList(ts, i, idList).value.value.Node?)
      && (ts[i].kind == TOK_LPAREN <==> ParameterList(ts, i, idList).value.next > i)
  {
    if ts[i].kind == TOK_LPAREN && GroupList(ts, i, idList).Success? {
      GroupListShape(ts, i, idList);
    }
  }

  /** `()` is read as a list whose first group starts at the `)`; with an
      identifier-list parser that fails there, the whole list fails. */
  lemma {:induction false} EmptyParensNotSpecial(ts: seq<Token>, i: nat, idList: IdListParser)
    requires i + 1 < |ts| && ts[i].kind == TOK_LPAREN && ts[i + 1].kind == TOK_RPAREN
    requires idList(ts, i + 1).Failure?
    ensures ParameterList(ts, i, idList) == Failure(idList(ts, i + 1).error)
  {
  }

  /** A group is exactly `BINARY(type, LITERAL(VAR), ids)` with `var` and
      `BINARY(type, null, ids)` without it. */
  lemma {:induction false} IdTypeBlockExact(ts: seq<Token>, i: nat, idList: IdListParser, ids: Parsed<LExpr>)
    requires i < |ts| && idList(ts, if ts[i].kind == TOK_VAR then i + 1 else i) == Success(ids)
    requires ids.next + 1 < |ts| && ts[ids.next].kind == TOK_COLON && ts[ids.next + 1].kind == TOK_IDENTIFIER
    ensures IdTypeBlock(ts, i, idList) ==
      Success(Parsed(Binary(ts[ids.next + 1], if ts[i].kind == TOK_VAR then Literal(ts[i]) else Null, ids.value),
                     ids.next + 2))
  {
  }

  /** Every group that parses has the shape of `GroupNode`. */
  lemma {:induction false} IdTypeBlockShape(ts: seq<Token>, i: nat, idList: IdListParser)
    requires IdTypeBlock(ts, i, idList).Success?
    ensures GroupNode(IdTypeBlock(ts, i, idList).value.value)
  {
  }

  /** The colon must follow the identifier list; anything else there is an
      error on that token. */
  lemma {:induction false} MissingColon(ts: seq<Token>, i: nat, idList: IdListParser, ids: Parsed<LExpr>)
    requires i < |ts| && idList(ts, if ts[i].kind == TOK_VAR then i + 1 else i) == Success(ids)
    requires ids.next < |ts| && ts[ids.next].kind != TOK_COLON
    ensures IdTypeBlock(ts, i, idList) == Failure(SyntaxError(ts[ids.next]))
  {
  }

  /** The type after the colon must be one identifier; anything else there
      is an error on that token. */
  lemma {:induction false} TypeNotIdentifier(ts: seq<Token>, i: nat, idList: IdListParser, ids: Parsed<LExpr>)
    requires i < |ts| && idList(ts, if ts[i].kind == TOK_VAR then i + 1 else i) == Success(ids)
    requires ids.next + 1 < |ts| && ts[ids.next].kind == TOK_COLON && ts[ids.next + 1].kind != TOK_IDENTIFIER
    ensures IdTypeBlock(ts, i, idList) == Failure(SyntaxError(ts[ids.next + 1]))
  {
  }

  /** After a group, a token other than `;` or `)` is an error on it. */
  lemma {:induction false} GroupBadSeparator(ts: seq<Token>, i: nat, links: seq<Link<Token>>, sep: Token,
                                             idList: IdListParser, g: Parsed<LExpr>)
    requires IdTypeBlock(ts, i, idList) == Success(g) && g.next < |ts|
    requires ts[g.next].kind != TOK_SEMICOLON && ts[g.next].kind != TOK_RPAREN
    ensures GroupLoop(ts, i, links, sep, idList) == Failure(SyntaxError(ts[g.next]))
  {
  }

  /** One group, then `;`: the loop goes on with a node on the carried
      token, and the `;` is carried. */
  lemma {:induction false} GroupLoopStep(ts: seq<Token>, i: nat, links: seq<Link<Token>>, sep: Token,
                                         idList: IdListParser, g: Parsed<LExpr>)
    requires IdTypeBlock(ts, i, idList) == Success(g) && g.next < |ts| && ts[g.next].kind == TOK_SEMICOLON
    ensures GroupLoop(ts, i, links, sep, idList) ==
      GroupLoop(ts, g.next + 1, links + [Link(BINARY, Some(sep), g.value)], ts[g.next], idList)
  {
    assert TokenAt(ts, g.next) == Success(Parsed(ts[g.next], g.next + 1));
  }

  /** Collected group links, before `sep` is carried to the next group. */
  predicate GroupLinks(links: seq<Link<Token>>, sep: Token) {
    (if |links| == 0 then sep.kind == TOK_LPAREN else sep.kind == TOK_SEMICOLON)
    && (|links| == 0 || ListLinks(links, TOK_LPAREN, TOK_SEMICOLON))
    && AllGroups(LinkLefts(links))
  }

  /** A group on the carried token extends the links and keeps their form. */
  lemma GroupLinksAdd(links: seq<Link<Token>>, sep: Token, g: LExpr)
    requires GroupLinks(links, sep) && GroupNode(g)
    ensures var links' := links + [Link(BINARY, Some(sep), g)];
      ListLinks(links', TOK_LPAREN, TOK_SEMICOLON) && AllGroups(LinkLefts(links'))
      && LinkLefts(links') == LinkLefts(links) + [g]
  {
    var links' := links + [Link(BINARY, Some(sep), g)];
    assert LinkLefts(links') == LinkLefts(links) + [g];
  }

  /** Closing the links with `)` gives a bracketed list of groups. */
  lemma GroupLinksClose(links: seq<Link<Token>>, close: Token)
    requires ListLinks(links, TOK_LPAREN, TOK_SEMICOLON) && AllGroups(LinkLefts(links)) && close.kind == TOK_RPAREN
    ensures var e := Chain(links, Literal(close));
      BracketList(e, TOK_LPAREN, TOK_SEMICOLON, TOK_RPAREN)
      && Lefts(e) == LinkLefts(links) + [Null] && AllGroups(Lefts(e)[..|Lefts(e)| - 1])
  {
    ListLinksClose(links, TOK_LPAREN, TOK_SEMICOLON, close);
    ChainLefts(links, Literal(close));
    var e := Chain(links, Literal(close));
    assert Lefts(e)[..|Lefts(e)| - 1] == LinkLefts(links);
  }

  /** `e` is a closed parameter list whose first items are `prefix`. */
  predicate GroupsClosed(e: LExpr, prefix: seq<LExpr>) {
    BracketList(e, TOK_LPAREN, TOK_SEMICOLON, TOK_RPAREN)
    && |Lefts(e)| > |prefix| + 1 && Lefts(e)[..|prefix|] == prefix
    && AllGroups(Lefts(e)[..|Lefts(e)| - 1])
  }

  lemma GroupsClosedPrefix(e: LExpr, prefix: seq<LExpr>, more: seq<LExpr>)
    requires GroupsClosed(e, prefix + more)
    ensures GroupsClosed(e, prefix)
  {
    assert Lefts(e)[..|prefix|] == Lefts(e)[..|prefix + more|][..|prefix|];
  }

  /** The loop closes a bracketed list whose items are all groups, and the
      items are the collected ones followed by the new ones. */
  lemma {:induction false} GroupLoopShape(ts: seq<Token>, i: nat, links: seq<Link<Token>>, sep: Token, idList: IdListParser)
    requires GroupLinks(links, sep) && GroupLoop(ts, i, links, sep, idList).Success?
    ensures GroupsClosed(GroupLoop(ts, i, links, sep, idList).value.value, LinkLefts(links))
    decreases |ts| - i
  {
    var g := IdTypeBlock(ts, i, idList).value;
    IdTypeBlockShape(ts, i, idList);
    GroupLinksAdd(links, sep, g.value);
    var links' := links + [Link(BINARY, Some(sep), g.value)];
    if ts[g.next].kind == TOK_RPAREN {
      GroupLinksClose(links', ts[g.next]);
      var e := Chain(links', Literal(ts[g.next]));
      assert GroupLoop(ts, i, links, sep, idList).value.value == e;
      assert Lefts(e) == LinkLefts(links) + [g.value, Null];
      assert Lefts(e)[..|links|] == LinkLefts(links);
    } else {
      GroupLoopStep(ts, i, links, sep, idList, g);
      GroupLoopShape(ts, g.next + 1, links', ts[g.next], idList);
      GroupsClosedPrefix(GroupLoop(ts, i, links, sep, idList).value.value, LinkLefts(links), [g.value]);
    }
  }

  /** A list is BINARY(LPAREN, group, …): later groups rooted by their
      semicolons, the last right child LITERAL(RPAREN), and every item a
      parameter group. */
  lemma {:induction false} GroupListShape(ts: seq<Token>, i: nat, idList: IdListParser)
    requires i < |ts| && ts[i].kind == TOK_LPAREN && GroupList(ts, i, idList).Success?
    ensures GroupsClosed(GroupList(ts, i, idList).value.value, [])
  {
    assert LinkLefts<Token>([]) == [];
    GroupLoopShape(ts, i + 1, [], ts[i], idList);
  }
}
