/** The expression tree both parsers build (include/parser.h, parser.h).

    A node has a kind, two children and an optional token; a null child is
    `Null`. The tree is generic in the token type because the legacy parser
    and libpasta use different token records. The `literal` pointer of the C
    struct is never set by any parser and is not modelled. */
module Ast {
  import opened Wrappers

  /** `expr_type_t`. */
  datatype ExprType = UNARY | BINARY | GROUPING | LITERAL

  /** `expr_t`; `Null` is the null pointer. */
  datatype Expr<T> = Null | Node(kind: ExprType, left: Expr<T>, right: Expr<T>, token: Option<T>)

  /** `new_unary`: the child goes left. */
  function Unary<T>(t: T, e: Expr<T>): Expr<T> {
    Node(UNARY, e, Null, Some(t))
  }

  /** `new_binary` with a token. */
  function Binary<T>(t: T, l: Expr<T>, r: Expr<T>): Expr<T> {
    Node(BINARY, l, r, Some(t))
  }

  /** `new_binary` called with a null token. */
  function BareBinary<T>(l: Expr<T>, r: Expr<T>): Expr<T> {
    Node(BINARY, l, r, None)
  }

  /** `new_grouping`: no token, the child goes left. */
  function Grouping<T>(e: Expr<T>): Expr<T> {
    Node(GROUPING, e, Null, None)
  }

  /** `new_literal`. */
  function Literal<T>(t: T): Expr<T> {
    Node(LITERAL, Null, Null, Some(t))
  }

  /** One node of a chain linked through `exp_right`: its kind, its token
      and its left child. */
  datatype Link<T> = Link(kind: ExprType, token: Option<T>, left: Expr<T>)

  /** The chain the parsers build by appending nodes through
      `next->exp_right`, closed by `tail` (a literal, or null). */
  function Chain<T>(links: seq<Link<T>>, tail: Expr<T>): Expr<T>
    decreases |links|
  {
    if |links| == 0 then tail
    else Node(links[0].kind, links[0].left, Chain(links[1..], tail), links[0].token)
  }

  /** A node with its left child replaced, as `next->exp_left = ...` does;
      a null stays null. */
  function WithLeft<T>(e: Expr<T>, l: Expr<T>): Expr<T> {
    if e.Node? then e.(left := l) else e
  }

  /** The chain the parsers build by appending nodes through `next->exp_left`. */
  function LeftLinked<T>(nodes: seq<Expr<T>>): Expr<T>
    decreases |nodes|
  {
    if |nodes| == 0 then Null else WithLeft(nodes[0], LeftLinked(nodes[1..]))
  }

  /** A chain of UNARY nodes linked through `exp_left`, one per token, in order. */
  function UnaryChain<T>(ts: seq<T>): Expr<T>
    decreases |ts|
  {
    if |ts| == 0 then Null else Unary(ts[0], UnaryChain(ts[1..]))
  }

  /** The nodes along the `exp_right` spine of `e`, down to the first node
      with no right child or to null. */
  function RightSpine<T>(e: Expr<T>): seq<Expr<T>>
    decreases e
  {
    if e.Null? then [] else [e] + RightSpine(e.right)
  }

  /** The constructors store exactly what they are given and null elsewhere. */
  lemma ConstructorsExact<T>(t: T, l: Expr<T>, r: Expr<T>)
    ensures Unary(t, l).kind == UNARY && Unary(t, l).left == l && Unary(t, l).right == Null && Unary(t, l).token == Some(t)
    ensures Binary(t, l, r).kind == BINARY && Binary(t, l, r).left == l && Binary(t, l, r).right == r
    ensures Binary(t, l, r).token == Some(t)
    ensures Grouping(l).kind == GROUPING && Grouping(l).left == l && Grouping(l).right == Null && Grouping(l).token == None
    ensures Literal(t).kind == LITERAL && Literal(t).left == Null && Literal(t).right == Null && Literal(t).token == Some(t)
  {
  }

  /** Walking a chain's right spine meets one node per link, each carrying
      that link's kind, token and left child, then the tail's spine. */
  lemma {:induction false} ChainSpine<T>(links: seq<Link<T>>, tail: Expr<T>)
    ensures RightSpine(Chain(links, tail)) == seq(|links|, k requires 0 <= k < |links| => Chain(links[k..], tail)) + RightSpine(tail)
    ensures forall k :: 0 <= k < |links| ==>
      Chain(links[k..], tail).kind == links[k].kind && Chain(links[k..], tail).token == links[k].token
      && Chain(links[k..], tail).left == links[k].left
    decreases |links|
  {
    if |links| > 0 {
      ChainSpine(links[1..], tail);
      assert forall k :: 0 <= k < |links| - 1 ==> links[1..][k..] == links[k + 1..];
    }
  }

  /** The chain's length along the spine is the number of links, plus the tail's. */
  lemma ChainLength<T>(links: seq<Link<T>>, tail: Expr<T>)
    ensures |RightSpine(Chain(links, tail))| == |links| + |RightSpine(tail)|
  {
    ChainSpine(links, tail);
  }

  /** Appending a link before the tail is the same as closing the chain one
      link later: the order in which the loops append is the source order. */
  lemma {:induction false} ChainSnoc<T>(links: seq<Link<T>>, last: Link<T>, tail: Expr<T>)
    ensures Chain(links + [last], tail) == Chain(links, Node(last.kind, last.left, tail, last.token))
    decreases |links|
  {
    if |links| > 0 {
      assert (links + [last])[1..] == links[1..] + [last];
      ChainSnoc(links[1..], last, tail);
    }
  }

  /** The left children met along the right spine of `e`. */
  function Lefts<T>(e: Expr<T>): seq<Expr<T>>
    decreases e
  {
    if e.Null? then [] else [e.left] + Lefts(e.right)
  }

  /** A chain of tokenless BINARY nodes ending in null, as `new_binary`
      with a null token builds for lists of items. */
  predicate BareChain<T>(e: Expr<T>)
    decreases e
  {
    e.Null? || (e.kind == BINARY && e.token.None? && BareChain(e.right))
  }

  /** Links that each make a tokenless BINARY node. */
  predicate BareLinks<T>(links: seq<Link<T>>) {
    forall k :: 0 <= k < |links| ==> links[k].kind == BINARY && links[k].token.None?
  }

  /** The left children the links carry, in order. */
  function LinkLefts<T>(links: seq<Link<T>>): (r: seq<Expr<T>>)
    ensures |r| == |links| && forall k :: 0 <= k < |links| ==> r[k] == links[k].left
  {
    seq(|links|, k requires 0 <= k < |links| => links[k].left)
  }

  /** The left children along a chain's spine are the links' items, in
      order, then the tail's. */
  lemma {:induction false} ChainLefts<T>(links: seq<Link<T>>, tail: Expr<T>)
    ensures Lefts(Chain(links, tail)) == LinkLefts(links) + Lefts(tail)
    decreases |links|
  {
    if |links| > 0 {
      ChainLefts(links[1..], tail);
      assert LinkLefts(links) == [links[0].left] + LinkLefts(links[1..]);
    }
  }

  /** Closing tokenless links with a tokenless chain keeps it tokenless,
      and its items are the links' items, in order, then the tail's. */
  lemma {:induction false} ChainBare<T>(links: seq<Link<T>>, tail: Expr<T>)
    requires BareLinks(links) && BareChain(tail)
    ensures BareChain(Chain(links, tail))
    ensures Lefts(Chain(links, tail)) == LinkLefts(links) + Lefts(tail)
    decreases |links|
  {
    ChainLefts(links, tail);
    if |links| > 0 {
      ChainBare(links[1..], tail);
    }
  }
}
