/** The first, streaming scanner (scanner.c). It reads its input one byte
    at a time with fgetc and keeps the bytes it has looked at but not yet
    consumed in a ring buffer (circbuf.c), which gives it arbitrary lookahead.

    The input stream is the sequence `input` followed by EOF for ever, as
    fgetc returns it. The functions below say where each operation of the
    scanner leaves the front of the buffer, as a position in that stream;
    the methods of `Scanner` perform them on the ring buffer. */
module LegacyScanner {
  import opened Wrappers
  import opened Bytes
  import opened LegacyToken
  import CircBuf

  /** The value fgetc returns once the input is exhausted. */
  const EOF: int := -1

  /** The result of the `k`-th call of fgetc, counting from 0. */
  function Stream(input: seq<Byte>, k: nat): (r: int)
    ensures k < |input| ==> 0 <= r < 256 && r == input[k] as int
    ensures k >= |input| ==> r == EOF
  {
    if k < |input| then input[k] as int else EOF
  }

  /** The results of calls `lo` up to `hi` of fgetc. */
  function StreamSlice(input: seq<Byte>, lo: nat, hi: nat): (r: seq<int>)
    requires lo <= hi
    ensures |r| == hi - lo
  {
    seq(hi - lo, i requires 0 <= i < hi - lo => Stream(input, lo + i))
  }

  /** The bytes `scanner_peek_clean` discards one at a time. */
  predicate IsSpace(ch: int) {
    ch == '\n' as int || ch == '\r' as int || ch == '\t' as int || ch == ' ' as int
  }

  predicate IsDigit(ch: int) {
    '0' as int <= ch <= '9' as int
  }

  /** `isalpha` in the C locale. */
  predicate IsAlpha(ch: int) {
    'a' as int <= ch <= 'z' as int || 'A' as int <= ch <= 'Z' as int
  }

  /** Where `scanner_consume_until_char` stops: the first position from `k`
      whose byte is `ch`. There is none when the input runs out first; the
      C loop then reads EOF for ever. */
  function UntilChar(input: seq<Byte>, k: nat, ch: int): (r: Option<nat>)
    requires 0 <= ch
    ensures r.Some? ==> k <= r.value < |input| && Stream(input, r.value) == ch
    decreases |input| - k
  {
    if Stream(input, k) == ch then Some(k)
    else if k >= |input| then None
    else UntilChar(input, k + 1, ch)
  }

  /** The comment loop of `scanner_peek_clean` started on the `(` of `(*`:
      up to a `*` and past it; done, past the `)`, when a `)` follows, and
      otherwise round again. */
  function TrigraphClosed(input: seq<Byte>, k: nat): (r: Option<nat>)
    ensures r.Some? ==> k < r.value <= |input|
    decreases |input| - k
  {
    match UntilChar(input, k, '*' as int)
    case None => None
    case Some(j) =>
      if Stream(input, j + 1) == ')' as int then Some(j + 2)
      else TrigraphClosed(input, j + 1)
  }

  /** A byte `scanner_peek_clean` returns: not a space and not the start of
      a `{`, `//` or `(*` comment. */
  predicate Significant(input: seq<Byte>, k: nat) {
    var ch := Stream(input, k);
    !IsSpace(ch) && ch != '{' as int
    && !(ch == '/' as int && Stream(input, k + 1) == '/' as int)
    && !(ch == '(' as int && Stream(input, k + 1) == '*' as int)
  }

  /** One round of the loop of `scanner_peek_clean` on a byte that is not
      significant: past the space, or past the comment it opens. None when
      the comment is not closed before the input ends. */
  function SkipOnce(input: seq<Byte>, k: nat): (r: Option<nat>)
    requires !Significant(input, k)
    ensures r.Some? ==> k < r.value <= |input|
  {
    var ch := Stream(input, k);
    if IsSpace(ch) then Some(k + 1)
    else if ch == '{' as int then
      match UntilChar(input, k, '}' as int)
      case None => None
      case Some(j) => Some(j + 1)
    else if ch == '/' as int then
      match UntilChar(input, k, '\n' as int)
      case None => None
      case Some(j) => Some(j + 1)
    else TrigraphClosed(input, k)
  }

  /** Where `scanner_peek_clean` leaves the front of the buffer; None when a
      comment is not closed before the input ends. */
  function Cleaned(input: seq<Byte>, k: nat): (r: Option<nat>)
    ensures r.Some? ==> k <= r.value && Significant(input, r.value)
    ensures r.Some? && k <= |input| ==> r.value <= |input|
    decreases |input| - k
  {
    if Significant(input, k) then Some(k)
    else
      match SkipOnce(input, k)
      case None => None
      case Some(j) => Cleaned(input, j)
  }

  /** The end of the run of `'0'`-`'9'` from `k`, as `scanner_read_as_digit` counts it. */
  function DigitRun(input: seq<Byte>, k: nat): (r: nat)
    ensures k <= r && (k <= |input| ==> r <= |input|)
    decreases |input| - k
  {
    if IsDigit(Stream(input, k)) then DigitRun(input, k + 1) else k
  }

  /** The end of the run of letters and digits from `k`, as
      `scanner_read_as_identifier` counts it. */
  function AlnumRun(input: seq<Byte>, k: nat): (r: nat)
    ensures k <= r && (k <= |input| ==> r <= |input|)
    decreases |input| - k
  {
    var ch := Stream(input, k);
    if IsAlpha(ch) || IsDigit(ch) then AlnumRun(input, k + 1) else k
  }

  /** The end of one segment of a string lexeme starting at `p`: a
      `'...'` segment runs up to the next quote and past it (so `''` inside
      a string is a closing and an opening quote), a `#` segment over the
      digits after it. None when a quote is never closed. */
  function SegmentEnd(input: seq<Byte>, p: nat): (r: Option<nat>)
    requires Stream(input, p) == '\'' as int || Stream(input, p) == '#' as int
    ensures r.Some? ==> p < r.value <= |input|
  {
    if Stream(input, p) == '\'' as int then
      match UntilChar(input, p + 1, '\'' as int)
      case None => None
      case Some(j) => Some(j + 1)
    else Some(DigitRun(input, p + 1))
  }

  /** The end of a string lexeme from `p`, as `scanner_read_as_string`
      counts it: segments for as long as they start. */
  function StringEnd(input: seq<Byte>, p: nat): (r: Option<nat>)
    ensures r.Some? ==> p <= r.value && (p <= |input| ==> r.value <= |input|)
    decreases |input| - p
  {
    var ch := Stream(input, p);
    if ch == '\'' as int || ch == '#' as int then
      match SegmentEnd(input, p)
      case None => None
      case Some(j) => StringEnd(input, j)
    else Some(p)
  }

  /** A token and the position in the stream the front of the buffer is
      left at after it. */
  datatype Scan = Scan(token: Token, pos: nat)

  /** The single-byte tokens of `scanner_next`'s switch. */
  const OneByteKinds: map<int, TokenType> := map[
    '*' as int := TOK_ASTERISK, ',' as int := TOK_COMMA, '.' as int := TOK_DOT,
    '=' as int := TOK_EQUAL, '(' as int := TOK_LPAREN, '-' as int := TOK_MINUS,
    '+' as int := TOK_PLUS, ')' as int := TOK_RPAREN, ';' as int := TOK_SEMICOLON,
    '/' as int := TOK_SLASH]

  /** `scanner_read_as_digit` at `k`. */
  function DigitScan(input: seq<Byte>, k: nat): Scan
    requires k <= |input|
  {
    var e := DigitRun(input, k);
    Scan(Token(TOK_DIGIT, Some(input[k..e])), e)
  }

  /** `scanner_read_as_identifier` at `k`: the kind is decided by
      `match_identifier`, and only an identifier keeps its text. */
  function IdentScan(input: seq<Byte>, k: nat, matchIdentifier: string -> TokenType): Scan
    requires k <= |input|
  {
    var e := AlnumRun(input, k);
    var value := input[k..e];
    var kind := matchIdentifier(value);
    Scan(Token(kind, if kind == TOK_IDENTIFIER then Some(value) else None), e)
  }

  /** `scanner_read_as_string` at `k`. */
  function StringScan(input: seq<Byte>, k: nat): Option<Scan>
    requires k <= |input|
  {
    match StringEnd(input, k)
    case None => None
    case Some(e) => Some(Scan(Token(TOK_STRING, Some(input[k..e])), e))
  }

  /** The dispatch of `scanner_next` on the significant byte at `k`. EOF and
      an unrecognised byte both give TOK_EOF and consume nothing. */
  function Dispatch(input: seq<Byte>, k: nat, matchIdentifier: string -> TokenType): Option<Scan> {
    var next := Stream(input, k);
    if next == EOF then Some(Scan(Token(TOK_EOF, None), k))
    else if next in OneByteKinds then Some(Scan(Token(OneByteKinds[next], None), k + 1))
    else if next == ':' as int then
      if Stream(input, k + 1) == '=' as int then Some(Scan(Token(TOK_ASSIGN, None), k + 2))
      else Some(Scan(Token(TOK_COLON, None), k + 1))
    else if IsDigit(next) then Some(DigitScan(input, k))
    else if IsAlpha(next) then Some(IdentScan(input, k, matchIdentifier))
    else if next == '\'' as int || next == '#' as int then StringScan(input, k)
    else Some(Scan(Token(TOK_EOF, None), k))
  }

  /** `scanner_next` with the front of the buffer at `k`. */
  function NextScan(input: seq<Byte>, k: nat, matchIdentifier: string -> TokenType): Option<Scan> {
    match Cleaned(input, k)
    case None => None
    case Some(j) => Dispatch(input, j, matchIdentifier)
  }

  /** Element `i` of a slice is the result of call `lo + i`. */
  lemma SliceAt(input: seq<Byte>, lo: nat, hi: nat, i: nat)
    requires lo <= hi && i < hi - lo
    ensures StreamSlice(input, lo, hi)[i] == Stream(input, lo + i)
  {
  }

  /** Appending the next result of fgetc to a slice. */
  lemma SliceExtend(input: seq<Byte>, lo: nat, hi: nat)
    requires lo <= hi
    ensures StreamSlice(input, lo, hi + 1) == StreamSlice(input, lo, hi) + [Stream(input, hi)]
  {
  }

  /** Dropping the first element of a slice. */
  lemma SliceDrop(input: seq<Byte>, lo: nat, hi: nat)
    requires lo < hi
    ensures StreamSlice(input, lo + 1, hi) == StreamSlice(input, lo, hi)[1..]
  {
  }

  /** An offset below the capacity is its own remainder. */
  lemma SmallMod(x: nat, m: int)
    requires x < m
    ensures x % m == x
  {
  }

  /** `struct scanner`: the input behind `fp`, the ring buffer, and how many
      times fgetc has been called. `match_identifier` is declared in token.h
      but defined outside this part of the program, so it is a parameter. */
  class Scanner {
    const input: seq<Byte>
    const matchIdentifier: string -> TokenType
    const buf: CircBuf.CircBuf
    var fetched: nat

    /** The buffer holds the last bytes fgetc returned, in order. */
    predicate Valid()
      reads this, buf, buf.buf
    {
      buf.Valid() && |buf.Contents()| <= fetched
      && buf.Contents() == StreamSlice(input, fetched - |buf.Contents()|, fetched)
    }

    /** The position in the stream of the front of the buffer: the next byte
        to be consumed. */
    function Base(): nat
      reads this, buf, buf.buf
      requires Valid()
    {
      fetched - |buf.Contents()|
    }

    /** `scanner_init`: nothing read yet and an empty buffer. */
    constructor (input: seq<Byte>, matchIdentifier: string -> TokenType)
      ensures this.input == input && this.matchIdentifier == matchIdentifier
      ensures Valid() && fetched == 0 && Base() == 0
      ensures fresh(buf) && fresh(buf.buf)
    {
      this.input := input;
      this.matchIdentifier := matchIdentifier;
      this.buf := new CircBuf.CircBuf();
      this.fetched := 0;
    }

    /** One fgetc whose result is written to the back of the buffer. */
    method Fetch()
      requires Valid()
      modifies this, buf, buf.buf
      ensures buf.buf == old(buf.buf) || fresh(buf.buf)
      ensures Valid() && fetched == old(fetched) + 1 && Base() == old(Base())
    {
      var ch := Stream(input, fetched);
      SliceExtend(input, fetched - |buf.Contents()|, fetched);
      buf.Write(ch);
      fetched := fetched + 1;
    }

    /** `scanner_discard`: remove the front, if there is one. */
    method Discard()
      requires Valid()
      modifies buf
      ensures buf.buf == old(buf.buf)
      ensures Valid() && fetched == old(fetched)
      ensures Base() == if old(Base()) < fetched then old(Base()) + 1 else old(Base())
    {
      if |buf.Contents()| > 0 {
        SliceDrop(input, fetched - |buf.Contents()|, fetched);
      }
      var ch := buf.Read();
    }

    /** `scanner_peek`: the front, read from the input first when the buffer
        is empty. */
    method Peek() returns (ch: int)
      requires Valid()
      modifies this, buf, buf.buf
      ensures buf.buf == old(buf.buf) || fresh(buf.buf)
      ensures Valid() && Base() == old(Base()) && ch == Stream(input, Base())
      ensures fetched == if old(fetched) > old(Base()) then old(fetched) else old(fetched) + 1
    {
      var e := buf.Empty();
      if e {
        Fetch();
      }
      ch := buf.Peek();
    }

    /** `scanner_peekfar`: the byte `offt` places behind the front, reading
        from the input until the buffer holds more than `offt` bytes. */
    method PeekFar(offt: nat) returns (ch: int)
      requires Valid()
      modifies this, buf, buf.buf
      ensures buf.buf == old(buf.buf) || fresh(buf.buf)
      ensures Valid() && Base() == old(Base()) && ch == Stream(input, Base() + offt)
      ensures fetched == if old(fetched) > old(Base()) + offt then old(fetched) else old(Base()) + offt + 1
    {
      FillPast(offt);
      buf.ContentsInRotated();
      SmallMod(offt, buf.siz);
      ch := buf.PeekFar(offt);
      assert buf.Contents()[offt] == Stream(input, Base() + offt);
    }

    /** The loop of `scanner_peekfar`: read from the input while the buffer
        holds at most `offt` bytes. */
    method FillPast(offt: nat)
      requires Valid()
      modifies this, buf, buf.buf
      ensures buf.buf == old(buf.buf) || fresh(buf.buf)
      ensures Valid() && Base() == old(Base())
      ensures fetched == if old(fetched) > old(Base()) + offt then old(fetched) else old(Base()) + offt + 1
    {
      ghost var base := Base();
      ghost var target := if fetched > base + offt then fetched else base + offt + 1;
      var n := buf.Bufsiz();
      while n <= offt
        invariant buf.buf == old(buf.buf) || fresh(buf.buf)
        invariant Valid() && Base() == base && n == fetched - base
        invariant old(fetched) <= fetched <= target
        decreases offt - n
      {
        Fetch();
        n := buf.Bufsiz();
      }
    }

    /** `scanner_consume_until_char`: discard up to the first `ch`, which is
        left at the front. */
    method ConsumeUntilChar(ch: int)
      requires Valid() && 0 <= ch && UntilChar(input, Base(), ch).Some?
      modifies this, buf, buf.buf
      ensures buf.buf == old(buf.buf) || fresh(buf.buf)
      ensures Valid() && Base() == UntilChar(input, old(Base()), ch).value && fetched > Base()
    {
      ghost var goal := UntilChar(input, Base(), ch);
      ghost var at := Base();
      var c := Peek();
      while c != ch
        invariant buf.buf == old(buf.buf) || fresh(buf.buf)
        invariant Valid() && Base() == at && fetched > at
        invariant c == Stream(input, at) && UntilChar(input, at, ch) == goal
        decreases |input| - at
      {
        Discard();
        at := at + 1;
        c := Peek();
      }
    }

    /** The `(*` comment loop of `scanner_peek_clean`, from the `(`. */
    method ConsumeTrigraph()
      requires Valid() && TrigraphClosed(input, Base()).Some?
      modifies this, buf, buf.buf
      ensures buf.buf == old(buf.buf) || fresh(buf.buf)
      ensures Valid() && Base() == TrigraphClosed(input, old(Base())).value
    {
      ghost var goal := TrigraphClosed(input, Base());
      var done := false;
      while !done
        invariant buf.buf == old(buf.buf) || fresh(buf.buf)
        invariant Valid()
        invariant done ==> Some(Base()) == goal
        invariant !done ==> TrigraphClosed(input, Base()) == goal
        decreases |input| - Base(), if done then 0 else 1
      {
        done := TrigraphRound();
      }
    }

    /** One round of that loop: past the next `*`, and past a `)` after it. */
    method TrigraphRound() returns (done: bool)
      requires Valid() && UntilChar(input, Base(), '*' as int).Some?
      modifies this, buf, buf.buf
      ensures buf.buf == old(buf.buf) || fresh(buf.buf)
      ensures Valid()
      ensures var j := UntilChar(input, old(Base()), '*' as int).value;
        (done <==> Stream(input, j + 1) == ')' as int) && Base() == j + if done then 2 else 1
    {
      ConsumeUntilChar('*' as int);
      Discard();
      var c := Peek();
      done := false;
      if c == ')' as int {
        Discard();
        done := true;
      }
    }

    /** `scanner_consume_until_char` followed by `scanner_discard`: past the
        first `ch`. */
    method SkipPast(ch: int)
      requires Valid() && 0 <= ch && UntilChar(input, Base(), ch).Some?
      modifies this, buf, buf.buf
      ensures buf.buf == old(buf.buf) || fresh(buf.buf)
      ensures Valid() && Base() == UntilChar(input, old(Base()), ch).value + 1
    {
      ConsumeUntilChar(ch);
      Discard();
    }

    /** One round of the loop of `scanner_peek_clean`: `valid` when the front
        is significant, and otherwise the front has moved past a space or a
        comment. */
    method CleanStep() returns (ch: int, valid: bool)
      requires Valid() && (!Significant(input, Base()) ==> SkipOnce(input, Base()).Some?)
      modifies this, buf, buf.buf
      ensures buf.buf == old(buf.buf) || fresh(buf.buf)
      ensures Valid() && (valid <==> Significant(input, old(Base())))
      ensures valid ==> Base() == old(Base()) && ch == Stream(input, Base()) && fetched > Base()
      ensures !valid ==> SkipOnce(input, old(Base())) == Some(Base())
    {
      ch := Peek();
      valid := true;
      if IsSpace(ch) {
        Discard();
        valid := false;
      } else if ch == '{' as int {
        SkipPast('}' as int);
        valid := false;
      } else if ch == '/' as int || ch == '(' as int {
        valid := CommentAt(ch);
      }
    }

    /** The `/` and `(` cases of `scanner_peek_clean`: `ch` at the front
        opens a comment exactly when the byte after it is `/` or `*`
        respectively, and the comment is then skipped. */
    method CommentAt(ch: int) returns (valid: bool)
      requires Valid() && ch == Stream(input, Base()) && (ch == '/' as int || ch == '(' as int)
      requires !Significant(input, Base()) ==> SkipOnce(input, Base()).Some?
      modifies this, buf, buf.buf
      ensures buf.buf == old(buf.buf) || fresh(buf.buf)
      ensures Valid() && (valid <==> Significant(input, old(Base())))
      ensures valid ==> Base() == old(Base()) && fetched >= old(fetched)
      ensures !valid ==> SkipOnce(input, old(Base())) == Some(Base())
    {
      var n := PeekFar(1);
      valid := true;
      if ch == '/' as int && n == '/' as int {
        SkipPast('\n' as int);
        valid := false;
      } else if ch == '(' as int && n == '*' as int {
        ConsumeTrigraph();
        valid := false;
      }
    }

    /** `scanner_peek_clean`: discard spaces and comments, and return the
        first significant byte, left at the front. */
    method PeekClean() returns (ch: int)
      requires Valid() && Cleaned(input, Base()).Some?
      modifies this, buf, buf.buf
      ensures buf.buf == old(buf.buf) || fresh(buf.buf)
      ensures Valid() && Base() == Cleaned(input, old(Base())).value
      ensures ch == Stream(input, Base()) && fetched > Base()
    {
      ghost var goal := Cleaned(input, Base()).value;
      ghost var at := Base();
      var valid := false;
      ch := EOF;
      while !valid
        invariant buf.buf == old(buf.buf) || fresh(buf.buf)
        invariant Valid() && Base() == at && Cleaned(input, at) == Some(goal)
        invariant valid ==> at == goal && ch == Stream(input, at) && fetched > at
        decreases goal - at, if valid then 0 else 1
      {
        ch, valid := CleanStep();
        if !valid {
          at := SkipOnce(input, at).value;
        }
      }
    }

    /** `circbuf_read` of a byte of the input at the front. */
    method ReadByte() returns (c: Byte)
      requires Valid() && Base() < fetched && Base() < |input|
      modifies buf
      ensures buf.buf == old(buf.buf)
      ensures Valid() && fetched == old(fetched) && Base() == old(Base()) + 1
      ensures c == input[old(Base())]
    {
      SliceAt(input, Base(), fetched, 0);
      SliceDrop(input, Base(), fetched);
      var ch := buf.Read();
      c := ch as char;
    }

    /** The loop that moves the next `len` bytes out of the buffer into the
        token text (`value[i] = circbuf_read(...)`). */
    method Take(len: nat) returns (s: string)
      requires Valid() && Base() + len <= fetched && Base() + len <= |input|
      modifies buf
      ensures buf.buf == old(buf.buf)
      ensures Valid() && fetched == old(fetched) && Base() == old(Base()) + len
      ensures s == input[old(Base())..Base()]
    {
      ghost var base := Base();
      s := [];
      var i := 0;
      while i < len
        invariant 0 <= i <= len
        invariant buf.buf == old(buf.buf)
        invariant Valid() && fetched == old(fetched) && Base() == base + i
        invariant s == input[base..base + i]
      {
        var c := ReadByte();
        s := s + [c];
        i := i + 1;
      }
    }

    /** The length counter of `scanner_read_as_digit`. */
    method DigitLength() returns (len: nat)
      requires Valid()
      modifies this, buf, buf.buf
      ensures buf.buf == old(buf.buf) || fresh(buf.buf)
      ensures Valid() && Base() == old(Base()) && fetched > Base() + len
      ensures Base() + len == DigitRun(input, Base())
    {
      ghost var base := Base();
      len := 0;
      var chr := PeekFar(0);
      while IsDigit(chr)
        invariant buf.buf == old(buf.buf) || fresh(buf.buf)
        invariant Valid() && Base() == base && fetched > base + len
        invariant chr == Stream(input, base + len)
        invariant DigitRun(input, base + len) == DigitRun(input, base)
        decreases |input| - (base + len)
      {
        len := len + 1;
        chr := PeekFar(len);
      }
    }

    /** The length counter of `scanner_read_as_identifier`. */
    method AlnumLength() returns (len: nat)
      requires Valid()
      modifies this, buf, buf.buf
      ensures buf.buf == old(buf.buf) || fresh(buf.buf)
      ensures Valid() && Base() == old(Base()) && fetched > Base() + len
      ensures Base() + len == AlnumRun(input, Base())
    {
      ghost var base := Base();
      len := 0;
      var chr := PeekFar(0);
      while IsAlpha(chr) || IsDigit(chr)
        invariant buf.buf == old(buf.buf) || fresh(buf.buf)
        invariant Valid() && Base() == base && fetched > base + len
        invariant chr == Stream(input, base + len)
        invariant AlnumRun(input, base + len) == AlnumRun(input, base)
        decreases |input| - (base + len)
      {
        len := len + 1;
        chr := PeekFar(len);
      }
    }

    /** `scanner_read_as_digit`. */
    method ReadAsDigit() returns (tok: Token)
      requires Valid() && Base() <= |input|
      modifies this, buf, buf.buf
      ensures buf.buf == old(buf.buf) || fresh(buf.buf)
      ensures Valid() && Scan(tok, Base()) == DigitScan(input, old(Base()))
    {
      var len := DigitLength();
      var value := Take(len);
      tok := Token(TOK_DIGIT, Some(value));
    }

    /** `scanner_read_as_identifier`. */
    method ReadAsIdentifier() returns (tok: Token)
      requires Valid() && Base() <= |input|
      modifies this, buf, buf.buf
      ensures buf.buf == old(buf.buf) || fresh(buf.buf)
      ensures Valid() && Scan(tok, Base()) == IdentScan(input, old(Base()), matchIdentifier)
    {
      var len := AlnumLength();
      var value := Take(len);
      var kind := matchIdentifier(value);
      if kind == TOK_IDENTIFIER {
        return Token(kind, Some(value));
      }
      return Token(kind, None);
    }

    /** The inner loop over a quoted segment of `scanner_read_as_string`:
        from offset `offt0` up to the closing quote. */
    method QuoteLength(offt0: nat) returns (offt: nat)
      requires Valid() && UntilChar(input, Base() + offt0, '\'' as int).Some?
      modifies this, buf, buf.buf
      ensures buf.buf == old(buf.buf) || fresh(buf.buf)
      ensures Valid() && Base() == old(Base()) && fetched > Base() + offt
      ensures Base() + offt == UntilChar(input, Base() + offt0, '\'' as int).value
    {
      ghost var base := Base();
      ghost var goal := UntilChar(input, base + offt0, '\'' as int);
      offt := offt0;
      var chr := PeekFar(offt);
      while chr != '\'' as int
        invariant buf.buf == old(buf.buf) || fresh(buf.buf)
        invariant Valid() && Base() == base && fetched > base + offt
        invariant chr == Stream(input, base + offt)
        invariant UntilChar(input, base + offt, '\'' as int) == goal
        decreases |input| - (base + offt)
      {
        offt := offt + 1;
        chr := PeekFar(offt);
      }
    }

    /** The inner loop over a `#digits` segment of `scanner_read_as_string`. */
    method DigitsLength(offt0: nat) returns (offt: nat)
      requires Valid()
      modifies this, buf, buf.buf
      ensures buf.buf == old(buf.buf) || fresh(buf.buf)
      ensures Valid() && Base() == old(Base()) && fetched > Base() + offt
      ensures Base() + offt == DigitRun(input, Base() + offt0)
    {
      ghost var base := Base();
      offt := offt0;
      var chr := PeekFar(offt);
      while IsDigit(chr)
        invariant buf.buf == old(buf.buf) || fresh(buf.buf)
        invariant Valid() && Base() == base && fetched > base + offt
        invariant chr == Stream(input, base + offt)
        invariant DigitRun(input, base + offt) == DigitRun(input, base + offt0)
        decreases |input| - (base + offt)
      {
        offt := offt + 1;
        chr := PeekFar(offt);
      }
    }

    /** One segment of `scanner_read_as_string`, opened by `open` at offset
        `len`, and the byte after it, peeked for the next round. */
    method Segment(len: nat, open: int) returns (next: nat, chr: int)
      requires Valid() && open == Stream(input, Base() + len)
      requires open == '\'' as int || open == '#' as int
      requires SegmentEnd(input, Base() + len).Some?
      modifies this, buf, buf.buf
      ensures buf.buf == old(buf.buf) || fresh(buf.buf)
      ensures Valid() && Base() == old(Base())
      ensures Base() + next == SegmentEnd(input, Base() + len).value
      ensures chr == Stream(input, Base() + next) && fetched > Base() + next
    {
      if open == '\'' as int {
        next := QuoteLength(len + 1);
        next := next + 1;
      } else {
        next := DigitsLength(len + 1);
      }
      chr := PeekFar(next);
    }

    /** The length counter of `scanner_read_as_string`. */
    method StringLength() returns (len: nat)
      requires Valid() && Base() <= |input| && StringEnd(input, Base()).Some?
      modifies this, buf, buf.buf
      ensures buf.buf == old(buf.buf) || fresh(buf.buf)
      ensures Valid() && Base() == old(Base()) && fetched > Base() + len
      ensures StringEnd(input, Base()) == Some(Base() + len)
    {
      ghost var base := Base();
      ghost var goal := StringEnd(input, base);
      len := 0;
      var chr := PeekFar(len);
      while chr == '\'' as int || chr == '#' as int
        invariant buf.buf == old(buf.buf) || fresh(buf.buf)
        invariant Valid() && Base() == base && base + len <= |input|
        invariant chr == Stream(input, base + len) && fetched > base + len
        invariant StringEnd(input, base + len) == goal
        decreases |input| - (base + len)
      {
        len, chr := Segment(len, chr);
      }
    }

    /** `scanner_read_as_string`: the text read out is exactly the lexeme. */
    method ReadAsString() returns (tok: Token)
      requires Valid() && Base() <= |input| && StringEnd(input, Base()).Some?
      modifies this, buf, buf.buf
      ensures buf.buf == old(buf.buf) || fresh(buf.buf)
      ensures Valid() && StringScan(input, old(Base())) == Some(Scan(tok, Base()))
    {
      var len := StringLength();
      var meta := Take(len);
      tok := Token(TOK_STRING, Some(meta));
    }

    /** The switch of `scanner_next` on `next`, a byte of the input at the
        front that makes a single-byte token or starts `:` or `:=`. */
    method Operator(next: int) returns (tok: Token)
      requires Valid() && next == Stream(input, Base()) && fetched > Base()
      requires next in OneByteKinds || next == ':' as int
      modifies this, buf, buf.buf
      ensures buf.buf == old(buf.buf) || fresh(buf.buf)
      ensures Valid() && Dispatch(input, old(Base()), matchIdentifier) == Some(Scan(tok, Base()))
    {
      if next in OneByteKinds {
        Discard();
        return Token(OneByteKinds[next], None);
      }
      var after := PeekFar(1);
      if after == '=' as int {
        Discard();
        Discard();
        return Token(TOK_ASSIGN, None);
      }
      Discard();
      return Token(TOK_COLON, None);
    }

    /** The rest of `scanner_next` after the EOF test and the switch. */
    method Lexeme(next: int) returns (tok: Token)
      requires Valid() && next == Stream(input, Base()) && next != EOF
      requires next !in OneByteKinds && next != ':' as int
      requires Dispatch(input, Base(), matchIdentifier).Some?
      modifies this, buf, buf.buf
      ensures buf.buf == old(buf.buf) || fresh(buf.buf)
      ensures Valid() && Dispatch(input, old(Base()), matchIdentifier) == Some(Scan(tok, Base()))
    {
      if IsDigit(next) {
        tok := ReadAsDigit();
      } else if IsAlpha(next) {
        tok := ReadAsIdentifier();
      } else if next == '\'' as int || next == '#' as int {
        tok := ReadAsString();
      } else {
        tok := Token(TOK_EOF, None);
      }
    }

    /** `scanner_next`. */
    method Next() returns (tok: Token)
      requires Valid() && NextScan(input, Base(), matchIdentifier).Some?
      modifies this, buf, buf.buf
      ensures buf.buf == old(buf.buf) || fresh(buf.buf)
      ensures Valid() && NextScan(input, old(Base()), matchIdentifier) == Some(Scan(tok, Base()))
    {
      var next := PeekClean();
      if next == EOF {
        return Token(TOK_EOF, None);
      }
      if next in OneByteKinds || next == ':' as int {
        tok := Operator(next);
      } else {
        tok := Lexeme(next);
      }
    }
  }
}
