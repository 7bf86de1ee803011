/** The Go tokenizer (tokenizer/tokenizer.go): a byte buffer and a cursor.
    The buffer is a Go string converted rune by rune from bytes, so each
    character is a Latin-1 code point (below 256). */
module GoTokenizer {
  import opened Wrappers
  import opened GoTester
  import opened GoType
  import opened GoToken

  /** Every character is a byte value, as `string([]byte)` indexed byte by
      byte gives. */
  predicate Latin1(s: string) {
    forall i :: 0 <= i < |s| ==> s[i] < 256 as char
  }

  /** unicode.IsSpace on a Latin-1 rune. */
  predicate IsSpace(ch: char) {
    ch == '\t' || ch == '\n' || ch == '\U{B}' || ch == '\U{C}' || ch == '\r' || ch == ' '
    || ch == '\U{85}' || ch == '\U{A0}'
  }

  /** unicode.IsNumber on a Latin-1 rune: the ASCII digits plus the
      superscripts two, three, one and the vulgar fractions. */
  predicate IsNumber(ch: char) {
    IsAsciiDigit(ch) || ch == '\U{B2}' || ch == '\U{B3}' || ch == '\U{B9}' || ('\U{BC}' <= ch <= '\U{BE}')
  }

  /** The rune `peekFar` returns: the byte at `i`, or 0 past the end. */
  function ByteAt(buf: string, i: nat): char {
    if i < |buf| then buf[i] else NUL
  }

  /** Where `advanceUntilToken(ch)` leaves the cursor: the first index at or
      after `c` holding `ch`. None when there is none, where the source
      indexes past the end of the buffer and panics. */
  function UntilToken(buf: string, c: nat, ch: char): (r: Option<nat>)
    decreases |buf| - c
    ensures r.Some? ==> c <= r.value < |buf| && buf[r.value] == ch
  {
    if c >= |buf| then None
    else if buf[c] == ch then Some(c)
    else UntilToken(buf, c + 1, ch)
  }

  /** The end of the maximal run of runes satisfying `p` that starts at `i`. */
  function Span(buf: string, i: nat, p: char -> bool): (r: nat)
    requires i <= |buf|
    decreases |buf| - i
    ensures i <= r <= |buf|
    ensures r < |buf| ==> !p(buf[r])
  {
    if i < |buf| && p(buf[i]) then Span(buf, i + 1, p) else i
  }

  /** A `*` directly followed by `)` at index k. */
  predicate ClosesStar(buf: string, k: int) {
    0 <= k && k + 1 < |buf| && buf[k] == '*' && buf[k + 1] == ')'
  }

  /** The inner `(*` loop of `advance`, entered with the cursor at `c`: it
      searches for `*`, steps over it and stops after a `)` that follows.
      None when the search or the look at the next byte runs off the end. */
  function CloseStar(buf: string, c: nat): (r: Option<nat>)
    requires c <= |buf|
    decreases |buf| - c
    ensures r.Some? ==> c + 2 <= r.value <= |buf| && ClosesStar(buf, r.value - 2)
  {
    match UntilToken(buf, c, '*')
    case None => None
    case Some(s) =>
      if s + 1 >= |buf| then None
      else if buf[s + 1] != ')' then CloseStar(buf, s + 1)
      else Some(s + 2)
  }

  /** A byte where `advance` stops: not whitespace and not the start of a comment. */
  predicate Significant(buf: string, i: nat)
    requires i < |buf|
  {
    !IsSpace(buf[i])
    && !(buf[i] == '/' && ByteAt(buf, i + 1) == '/')
    && buf[i] != '{'
    && !(buf[i] == '(' && ByteAt(buf, i + 1) == '*')
  }

  /** What one pass of the `advance` loop does with the byte at `d`. */
  datatype Step = Stop | Resume(at: nat) | RunsOff

  /** One pass of the `advance` loop after its step onto `d`: stop on a
      significant byte, otherwise the cursor value the next pass starts from
      (on the whitespace byte, on the comment terminator, or past `*)`). */
  function StepAt(buf: string, d: nat): (r: Step)
    requires d < |buf|
    ensures r.Stop? <==> Significant(buf, d)
    ensures r.Resume? ==> d <= r.at <= |buf|
    ensures r.Resume? && buf[d] == '(' ==> d + 2 <= r.at
  {
    if IsSpace(buf[d]) then Resume(d)
    else if buf[d] == '/' && ByteAt(buf, d + 1) == '/' then
      match UntilToken(buf, d, '\n')
      case None => RunsOff
      case Some(e) => Resume(e)
    else if buf[d] == '{' then
      match UntilToken(buf, d, '}')
      case None => RunsOff
      case Some(e) => Resume(e)
    else if buf[d] == '(' && ByteAt(buf, d + 1) == '*' then
      match CloseStar(buf, d)
      case None => RunsOff
      case Some(e) => Resume(e)
    else Stop
  }

  /** Where `advance` leaves a cursor that was at `c`, as the source is written:
      every pass of the loop first steps the cursor by one, so after a
      `(*…*)` comment the byte following `)` is stepped over unexamined.
      None when a comment runs off the end of the buffer. */
  function Skip(buf: string, c: nat): (r: Option<nat>)
    requires c <= |buf|
    decreases |buf| - c
    ensures r.Some? ==> c < r.value <= |buf| + 1
    ensures r.Some? && r.value < |buf| ==> Significant(buf, r.value)
  {
    var d := c + 1;
    if d >= |buf| then Some(d)
    else match StepAt(buf, d)
      case Stop => Some(d)
      case Resume(e) => Skip(buf, e)
      case RunsOff => None
  }

  /** Skip as evidently intended: after `*)` the next pass starts on the `)`,
      so that its step lands on the byte following the comment, as it does
      after the terminator of the other two comment kinds. */
  function SkipIntended(buf: string, c: nat): (r: Option<nat>)
    requires c <= |buf|
    decreases |buf| - c
    ensures r.Some? ==> c < r.value <= |buf| + 1
    ensures r.Some? && r.value < |buf| ==> Significant(buf, r.value)
  {
    var d := c + 1;
    if d >= |buf| then Some(d)
    else match StepAt(buf, d)
      case Stop => Some(d)
      case Resume(e) => if buf[d] == '(' then SkipIntended(buf, e - 1) else SkipIntended(buf, e)
      case RunsOff => None
  }

  /** Where the string loop of `nextStringOrChar` stops when it has reached
      index `i`: a quote segment runs to the next quote, a `#` segment over
      the following number runes. None for a quote that is never closed,
      where the source loops forever. */
  function StringEnd(buf: string, i: nat): (r: Option<nat>)
    requires i <= |buf|
    decreases |buf| - i
    ensures r.Some? ==> i <= r.value <= |buf|
    ensures r.Some? && r.value < |buf| ==> !IsStringStarter(buf[r.value])
    ensures r.Some? && i < |buf| && IsStringStarter(buf[i]) ==> i < r.value
  {
    if i < |buf| && buf[i] == '\'' then
      match UntilToken(buf, i + 1, '\'')
      case None => None
      case Some(q) => StringEnd(buf, q + 1)
    else if i < |buf| && buf[i] == '#' then
      StringEnd(buf, Span(buf, i + 1, IsNumber))
    else Some(i)
  }

  /** strings.ToLower on the ASCII text of an identifier. */
  function ToLower(s: string): (r: string)
    ensures |r| == |s|
    ensures forall k :: 0 <= k < |s| ==>
      r[k] == if 'A' <= s[k] <= 'Z' then (s[k] as int + 32) as char else s[k]
  {
    if s == [] then []
    else [if 'A' <= s[0] <= 'Z' then (s[0] as int + 32) as char else s[0]] + ToLower(s[1..])
  }

  /** The result of one call of NextToken when the source does not panic on
      an index or loop forever. */
  datatype Scanned = Emitted(token: Token, next: nat) | UnknownRune(rune: char) | Stuck

  /** A lexeme whose last byte is at `last`, followed by `advance`. */
  function ThenAdvance(buf: string, last: nat, t: Token): Scanned
    requires last <= |buf|
  {
    match Skip(buf, last)
    case None => Stuck
    case Some(n) => Emitted(t, n)
  }

  /** The string literal that goes on at `i` ends as `goal` says. */
  predicate EndsAs(buf: string, i: nat, goal: Option<nat>) {
    i <= |buf| && StringEnd(buf, i) == goal
  }

  /** One segment of `StringEnd`: a quoted run continues after its closing
      quote, a `#` run after its digits, and anything else ends the literal. */
  lemma StringEndStep(buf: string, i: nat)
    requires i <= |buf| && StringEnd(buf, i).Some?
    ensures ByteAt(buf, i) == '\'' ==>
              i < |buf| && UntilToken(buf, i + 1, '\'').Some?
              && StringEnd(buf, UntilToken(buf, i + 1, '\'').value + 1) == StringEnd(buf, i)
    ensures ByteAt(buf, i) == '#' ==> i < |buf| && StringEnd(buf, Span(buf, i + 1, IsNumber)) == StringEnd(buf, i)
    ensures ByteAt(buf, i) != '\'' && ByteAt(buf, i) != '#' ==> StringEnd(buf, i) == Some(i)
  {
  }

  function StringAt(buf: string, c: nat): Scanned
    requires c < |buf| && IsStringStarter(buf[c])
  {
    match StringEnd(buf, c)
    case None => Stuck
    case Some(e) => ThenAdvance(buf, e - 1, NewToken(TokenString, [buf[c..e]]))
  }

  /** The keyword kind for a spelling in any case, or an identifier with its text. */
  function WordToken(ident: string): Token {
    var lower := ToLower(ident);
    if lower in KeywordTokens then NewToken(KeywordTokens[lower], [])
    else NewToken(TokenIdentifier, [ident])
  }

  function IdentifierAt(buf: string, c: nat): Scanned
    requires c < |buf| && IsIdentifierStarter(buf[c])
  {
    var e := Span(buf, c + 1, IsIdentifierLetter);
    ThenAdvance(buf, e - 1, WordToken(buf[c..e]))
  }

  function DigitAt(buf: string, c: nat): Scanned
    requires c < |buf| && IsAsciiDigit(buf[c])
  {
    var e := Span(buf, c + 1, IsAsciiDigit);
    ThenAdvance(buf, e - 1, NewToken(TokenDigit, [buf[c..e]]))
  }

  /** The fixed kinds of the one-byte tokens other than `:`. */
  const SingleByteKinds: map<char, TokenType> := map[
    '*' := TokenAsterisk, ',' := TokenComma, '.' := TokenDot, '=' := TokenEqual,
    '(' := TokenLparen, '-' := TokenMinus, '+' := TokenPlus, ')' := TokenRparen,
    ';' := TokenSemicolon, '/' := TokenSlash]

  /** NextToken with the cursor at `c`. */
  function NextTokenAt(buf: string, c: nat): Scanned
    requires c <= |buf| + 1
  {
    if c >= |buf| then Emitted(Token(TokenEof, ""), c)
    else
      var ch := buf[c];
      if ch == ':' then
        if ByteAt(buf, c + 1) == '=' then
          match Skip(buf, c)
          case None => Stuck
          case Some(c1) => ThenAdvance(buf, c1, NewToken(TokenAssign, []))
        else ThenAdvance(buf, c, NewToken(TokenColon, []))
      else if ch == '*' then ThenAdvance(buf, c, NewToken(TokenAsterisk, []))
      else if ch == ',' then ThenAdvance(buf, c, NewToken(TokenComma, []))
      else if ch == '.' then ThenAdvance(buf, c, NewToken(TokenDot, []))
      else if ch == '=' then ThenAdvance(buf, c, NewToken(TokenEqual, []))
      else if ch == '(' then ThenAdvance(buf, c, NewToken(TokenLparen, []))
      else if ch == '-' then ThenAdvance(buf, c, NewToken(TokenMinus, []))
      else if ch == '+' then ThenAdvance(buf, c, NewToken(TokenPlus, []))
      else if ch == ')' then ThenAdvance(buf, c, NewToken(TokenRparen, []))
      else if ch == ';' then ThenAdvance(buf, c, NewToken(TokenSemicolon, []))
      else if ch == '/' then ThenAdvance(buf, c, NewToken(TokenSlash, []))
      else if IsStringStarter(ch) then StringAt(buf, c)
      else if IsIdentifierStarter(ch) then IdentifierAt(buf, c)
      else if IsAsciiDigit(ch) then DigitAt(buf, c)
      else UnknownRune(ch)
  }

  /** How a method's result and final cursor report a Scanned value. */
  predicate Reports(s: Scanned, r: Result<Token, char>, cursor: nat) {
    match s
    case Emitted(t, n) => r == Success(t) && cursor == n
    case UnknownRune(ch) => r == Failure(ch)
    case Stuck => false
  }

  class Tokenizer {
    const buffer: string
    var cursor: nat

    /** The buffer holds bytes, and the cursor never gets further than one
        past the end. */
    ghost predicate Valid()
      reads this
    {
      Latin1(buffer) && cursor <= |buffer| + 1
    }

    /** NewTokenizer: the `[]byte` argument becomes the buffer, one
        character per byte, and the cursor starts at the first byte. */
    constructor (buffer: string)
      requires Latin1(buffer)
      ensures this.buffer == buffer && cursor == 0 && Valid()
    {
      this.buffer := buffer;
      cursor := 0;
    }

    /** NextToken: TokenEof once the cursor is at or past the end, otherwise
        the token at the cursor; an unknown rune is the Failure the source
        panics with. */
    method NextToken() returns (r: Result<Token, char>)
      requires Valid() && !NextTokenAt(buffer, cursor).Stuck?
      modifies this
      ensures Valid()
      ensures Reports(NextTokenAt(buffer, old(cursor)), r, cursor)
    {
      var more := MoreTokens();
      if !more {
        return Success(Token(TokenEof, ""));
      }
      r := ScanToken();
    }

    /** nextToken: the dispatch on the byte at the cursor. */
    method ScanToken() returns (r: Result<Token, char>)
      requires Valid() && cursor < |buffer| && !NextTokenAt(buffer, cursor).Stuck?
      modifies this
      ensures Valid()
      ensures Reports(NextTokenAt(buffer, old(cursor)), r, cursor)
    {
      var ch := Peek();
      if ch == ':' {
        var next := PeekFar(1);
        if next == '=' {
          Advance();
          Advance();
          return Success(NewToken(TokenAssign, []));
        }
        Advance();
        return Success(NewToken(TokenColon, []));
      } else if ch in SingleByteKinds {
        Advance();
        return Success(NewToken(SingleByteKinds[ch], []));
      } else if IsStringStarter(ch) {
        var t := NextStringOrChar();
        return Success(t);
      } else if IsIdentifierStarter(ch) {
        var t := NextIdentifier();
        return Success(t);
      } else if IsAsciiDigit(ch) {
        var t := NextDigit();
        return Success(t);
      }
      return Failure(ch);
    }

    method NextStringOrChar() returns (t: Token)
      requires Valid() && cursor < |buffer| && IsStringStarter(buffer[cursor])
      requires !StringAt(buffer, cursor).Stuck?
      modifies this
      ensures Valid()
      ensures StringAt(buffer, old(cursor)) == Emitted(t, cursor)
    {
      var offt := StringLength();
      var str := buffer[cursor..cursor + offt];
      cursor := cursor + offt - 1;
      Advance();
      return NewToken(TokenString, [str]);
    }

    /** The segment loop of `nextStringOrChar` up to its default case: the
        length of the string or character literal at the cursor. */
    method StringLength() returns (offt: nat)
      requires cursor <= |buffer| && StringEnd(buffer, cursor).Some?
      ensures StringEnd(buffer, cursor) == Some(cursor + offt)
    {
      offt := 0;
      ghost var goal := StringEnd(buffer, cursor);
      while true
        invariant EndsAs(buffer, cursor + offt, goal)
        decreases |buffer| - (cursor + offt)
      {
        var ch := PeekFar(offt);
        if ch == '\'' {
          offt := QuotedSegment(offt, goal);
        } else if ch == '#' {
          offt := CodeSegment(offt, goal);
        } else {
          StringEndStep(buffer, cursor + offt);
          return;
        }
      }
    }

    /** A `'…'` segment of the literal: past its closing quote. */
    method QuotedSegment(offt0: nat, ghost goal: Option<nat>) returns (offt: nat)
      requires cursor + offt0 < |buffer| && buffer[cursor + offt0] == '\''
      requires EndsAs(buffer, cursor + offt0, goal) && goal.Some?
      ensures offt0 < offt && EndsAs(buffer, cursor + offt, goal)
    {
      StringEndStep(buffer, cursor + offt0);
      offt := QuoteEnd(offt0 + 1);
      offt := offt + 1;
    }

    /** A `#` segment of the literal: past its digits. */
    method CodeSegment(offt0: nat, ghost goal: Option<nat>) returns (offt: nat)
      requires cursor + offt0 < |buffer| && buffer[cursor + offt0] == '#'
      requires EndsAs(buffer, cursor + offt0, goal) && goal.Some?
      ensures offt0 < offt && EndsAs(buffer, cursor + offt, goal)
    {
      StringEndStep(buffer, cursor + offt0);
      offt := RunEnd(offt0 + 1, IsNumber);
    }

    method NextIdentifier() returns (t: Token)
      requires Valid() && cursor < |buffer| && IsIdentifierStarter(buffer[cursor])
      requires !IdentifierAt(buffer, cursor).Stuck?
      modifies this
      ensures Valid()
      ensures IdentifierAt(buffer, old(cursor)) == Emitted(t, cursor)
    {
      var offt := RunEnd(1, IsIdentifierLetter);
      var ident := buffer[cursor..cursor + offt];
      cursor := cursor + offt - 1;
      Advance();
      var lower := ToLower(ident);
      if lower in KeywordTokens {
        return NewToken(KeywordTokens[lower], []);
      }
      return NewToken(TokenIdentifier, [ident]);
    }

    method NextDigit() returns (t: Token)
      requires Valid() && cursor < |buffer| && IsAsciiDigit(buffer[cursor])
      requires !DigitAt(buffer, cursor).Stuck?
      modifies this
      ensures Valid()
      ensures DigitAt(buffer, old(cursor)) == Emitted(t, cursor)
    {
      var offt := RunEnd(1, IsAsciiDigit);
      var number := buffer[cursor..cursor + offt];
      cursor := cursor + offt - 1;
      Advance();
      return NewToken(TokenDigit, [number]);
    }

    /** The loop `for p(peekFar(offt)) { offt++ }`: the offset of the end of
        the run of runes satisfying `p` that starts at `cursor + offt`. */
    method RunEnd(offt0: nat, p: char -> bool) returns (offt: nat)
      requires cursor + offt0 <= |buffer| && !p(NUL)
      ensures cursor + offt == Span(buffer, cursor + offt0, p)
    {
      offt := offt0;
      var ch := PeekFar(offt);
      while p(ch)
        invariant cursor + offt <= |buffer|
        invariant ch == ByteAt(buffer, cursor + offt)
        invariant Span(buffer, cursor + offt, p) == Span(buffer, cursor + offt0, p)
        decreases |buffer| - (cursor + offt)
      {
        offt := offt + 1;
        ch := PeekFar(offt);
      }
    }

    /** The loop `for peekFar(offt) != '\'' { offt++ }`: the offset of the
        closing quote at or after `cursor + offt`. */
    method QuoteEnd(offt0: nat) returns (offt: nat)
      requires cursor + offt0 <= |buffer| && UntilToken(buffer, cursor + offt0, '\'').Some?
      ensures cursor + offt == UntilToken(buffer, cursor + offt0, '\'').value
    {
      offt := offt0;
      var ch := PeekFar(offt);
      while ch != '\''
        invariant cursor + offt <= |buffer|
        invariant ch == ByteAt(buffer, cursor + offt)
        invariant UntilToken(buffer, cursor + offt, '\'') == UntilToken(buffer, cursor + offt0, '\'')
        decreases |buffer| - (cursor + offt)
      {
        offt := offt + 1;
        ch := PeekFar(offt);
      }
    }

    method MoreTokens() returns (b: bool)
      ensures b <==> cursor < |buffer|
    {
      return cursor < |buffer|;
    }

    /** advance: step once, then keep stepping over whitespace and comments. */
    method Advance()
      requires Latin1(buffer) && cursor <= |buffer| && Skip(buffer, cursor).Some?
      modifies this
      ensures Valid()
      ensures cursor == Skip(buffer, old(cursor)).value
    {
      ghost var goal := Skip(buffer, cursor);
      while true
        invariant cursor <= |buffer|
        invariant Skip(buffer, cursor) == goal
        decreases |buffer| - cursor
      {
        cursor := cursor + 1;
        var more := MoreTokens();
        if !more {
          break;
        }
        var ch := Peek();
        if IsSpace(ch) {
          continue;
        }
        var next := PeekFar(1);
        if ch == '/' && next == '/' {
          AdvanceUntilToken('\n');
          continue;
        }
        if ch == '{' {
          AdvanceUntilToken('}');
          continue;
        }
        if ch == '(' && next == '*' {
          SkipStarComment();
          continue;
        }
        break;
      }
    }

    /** The inner loop of `advance` over a `(*…*)` comment: find a `*`, step
        over it, and stop past a `)` that follows it. */
    method SkipStarComment()
      requires cursor <= |buffer| && CloseStar(buffer, cursor).Some?
      modifies this
      ensures cursor == CloseStar(buffer, old(cursor)).value
    {
      ghost var start := cursor;
      while true
        invariant cursor <= |buffer|
        invariant CloseStar(buffer, cursor) == CloseStar(buffer, start)
        decreases |buffer| - cursor
      {
        AdvanceUntilToken('*');
        cursor := cursor + 1;
        var closing := Peek();
        if closing != ')' {
          continue;
        }
        cursor := cursor + 1;
        break;
      }
    }

    /** advanceUntilToken: move forward to the next occurrence of `ch`. */
    method AdvanceUntilToken(ch: char)
      requires UntilToken(buffer, cursor, ch).Some?
      modifies this
      ensures cursor == UntilToken(buffer, old(cursor), ch).value
    {
      while buffer[cursor] != ch
        invariant UntilToken(buffer, cursor, ch) == UntilToken(buffer, old(cursor), ch)
        decreases |buffer| - cursor
      {
        cursor := cursor + 1;
      }
    }

    method Peek() returns (ch: char)
      requires cursor < |buffer|
      ensures ch == buffer[cursor]
    {
      return buffer[cursor];
    }

    method PeekFar(offt: nat) returns (ch: char)
      ensures ch == ByteAt(buffer, cursor + offt)
    {
      if cursor + offt >= |buffer| {
        return NUL;
      }
      return buffer[cursor + offt];
    }
  }
}
