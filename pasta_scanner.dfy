/** The libpasta scanner (libpasta/scanner.c).

    The scanner walks a byte buffer of length `len` with a position and a
    line/column pair. Reads through `scanner_peek`/`scanner_peekfar` are
    bounded by `len` and give EOF past it; the other reads index the buffer
    directly. utils/repl.c's buffer has a NUL at `len`; a direct read at or
    past `len` is undefined in C (utils/tokens.c hands over exactly `len`
    bytes) and is modelled as NUL, by `Raw`.
    A comment or a quoted string that is never closed makes the C code spin
    or read past its buffer; the specification functions give `None` for
    it, and the methods require that they do not. */
module PastaScanner {
  import opened Wrappers
  import opened PastaToken
  import opened Bytes

  /** A position in the buffer with the line and column it is on. */
  datatype Cursor = Cursor(pos: nat, line: nat, col: nat)

  /** A token and the cursor after it. */
  datatype Scan = Scan(token: Token, cursor: Cursor)

  // ---------------------------------------------------------------------
  // Reading bytes

  /** The byte at `i`, read without a bound check: NUL past the end. */
  function Raw(b: seq<Byte>, i: nat): (r: Byte)
    ensures i >= |b| ==> r == NUL
    ensures i < |b| ==> r == b[i]
  {
    if i < |b| then b[i] else NUL
  }

  /** A byte as a C `char` compares: bytes from 0x80 up are negative. */
  function Signed(ch: Byte): (r: int)
    ensures -128 <= r < 128
    ensures r % 256 == ch as int
  {
    if ch as int >= 128 then ch as int - 256 else ch as int
  }

  /** What `scanner_peek` at `i` returns (libpasta/scanner.c:33-50). */
  function PeekAt(b: seq<Byte>, i: nat): int {
    if i >= |b| then EOF else Signed(b[i])
  }

  predicate IsDigitCode(c: int) {
    '0' as int <= c <= '9' as int
  }

  predicate IsUpperCode(c: int) {
    'A' as int <= c <= 'Z' as int
  }

  predicate IsLowerCode(c: int) {
    'a' as int <= c <= 'z' as int
  }

  /** The bytes that continue an identifier: isalpha, isdigit or `_`. */
  predicate IsIdentCode(c: int) {
    IsUpperCode(c) || IsLowerCode(c) || IsDigitCode(c) || c == '_' as int
  }

  // ---------------------------------------------------------------------
  // Moving the cursor

  /** `scanner_advance`: one byte on; a newline starts the next line at column 1. */
  function Advanced(b: seq<Byte>, c: Cursor): Cursor {
    if Raw(b, c.pos) == '\n' then Cursor(c.pos + 1, c.line + 1, 1)
    else Cursor(c.pos + 1, c.line, c.col + 1)
  }

  /** `scanner_consume_until_char`: advances until the byte under the cursor
      is `ch`; `None` when there is none before the end, where the C loop spins. */
  function UntilChar(b: seq<Byte>, c: Cursor, ch: Byte): (r: Option<Cursor>)
    ensures r.Some? ==> c.pos <= r.value.pos && Raw(b, r.value.pos) == ch
    ensures r.Some? && ch != NUL ==> r.value.pos < |b|
    decreases |b| - c.pos
  {
    if Raw(b, c.pos) == ch then Some(c)
    else if c.pos >= |b| then None
    else UntilChar(b, Advanced(b, c), ch)
  }

  /** `consume_until_closing_bracket`: past the first `}`. */
  function BracketClosed(b: seq<Byte>, c: Cursor): (r: Option<Cursor>)
    ensures r.Some? ==> c.pos < r.value.pos <= |b|
  {
    match UntilChar(b, c, '}')
    case None => None
    case Some(s) => Some(Advanced(b, s))
  }

  /** `consume_until_closing_trigraph`: past the first `*` that is followed by `)`. */
  function TrigraphClosed(b: seq<Byte>, c: Cursor): (r: Option<Cursor>)
    ensures r.Some? ==> c.pos + 2 <= r.value.pos <= |b|
    decreases |b| - c.pos
  {
    match UntilChar(b, c, '*')
    case None => None
    case Some(s) =>
      if Raw(b, s.pos + 1) == ')' then Some(Cursor(s.pos + 2, s.line, s.col + 2))
      else TrigraphClosed(b, Advanced(b, s))
  }

  /** The second loop of `consume_slash_comment`: past every newline in a row. */
  function NewlinesSkipped(b: seq<Byte>, c: Cursor): (r: Cursor)
    ensures c.pos <= r.pos && Raw(b, r.pos) != '\n'
    ensures c.pos <= |b| ==> r.pos <= |b|
    decreases |b| - c.pos
  {
    if Raw(b, c.pos) == '\n' then NewlinesSkipped(b, Advanced(b, c)) else c
  }

  /** `consume_slash_comment`: to the end of the line, then past the newlines. */
  function SlashCommentEnd(b: seq<Byte>, c: Cursor): (r: Option<Cursor>)
    ensures r.Some? ==> c.pos < r.value.pos <= |b|
  {
    match UntilChar(b, c, '\n')
    case None => None
    case Some(s) => Some(NewlinesSkipped(b, s))
  }

  /** The bytes `scanner_clean` stops at: not blank, and not the start of
      `{`, `//` or `(*`. Every position at or past the end is significant. */
  predicate Significant(b: seq<Byte>, i: nat) {
    var ch := Raw(b, i);
    !(ch == '\n' || ch == '\r' || ch == '\t' || ch == ' ' || ch == '{'
      || (ch == '/' && Raw(b, i + 1) == '/') || (ch == '(' && Raw(b, i + 1) == '*'))
  }

  /** One pass of the loop of `scanner_clean` over a byte that is not significant. */
  function CleanStep(b: seq<Byte>, c: Cursor): (r: Option<Cursor>)
    requires !Significant(b, c.pos)
    ensures r.Some? ==> c.pos < r.value.pos <= |b|
  {
    var ch := Raw(b, c.pos);
    if ch == '{' then BracketClosed(b, c)
    else if ch == '/' then SlashCommentEnd(b, c)
    else if ch == '(' then TrigraphClosed(b, c)
    else Some(Advanced(b, c))
  }

  /** `scanner_clean`: past blanks and comments, to a significant byte. */
  function Cleaned(b: seq<Byte>, c: Cursor): (r: Option<Cursor>)
    ensures r.Some? ==> c.pos <= r.value.pos && Significant(b, r.value.pos)
    ensures r.Some? && c.pos <= |b| ==> r.value.pos <= |b|
    decreases |b| - c.pos
  {
    if Significant(b, c.pos) then Some(c)
    else
      match CleanStep(b, c)
      case None => None
      case Some(d) => Cleaned(b, d)
  }

  /** `scanner_discard`: one byte on, then clean. */
  function Discarded(b: seq<Byte>, c: Cursor): (r: Option<Cursor>)
    ensures r.Some? ==> c.pos < r.value.pos && Significant(b, r.value.pos)
    ensures r.Some? && c.pos < |b| ==> r.value.pos <= |b|
  {
    Cleaned(b, Advanced(b, c))
  }

  // ---------------------------------------------------------------------
  // Lexemes

  /** The end of the run of decimal digits that starts at `i`. */
  function DigitRun(b: seq<Byte>, i: nat): (r: nat)
    requires i <= |b|
    ensures i <= r <= |b| && !IsDigitCode(PeekAt(b, r))
    decreases |b| - i
  {
    if IsDigitCode(PeekAt(b, i)) then DigitRun(b, i + 1) else i
  }

  /** The loop of `scanner_read_as_number` from offset `len` with state `flag`
      (0 in the integer part, 1 after the dot, 2 after the exponent mark,
      3 once a dot or mark turned out not to be followed by digits);
      the result is the length of the lexeme. */
  function NumberLoop(b: seq<Byte>, p: nat, len: nat, flag: nat): (r: nat)
    requires p + len <= |b| && flag <= 3
    ensures len <= r && p + r <= |b|
    decreases |b| - (p + len), 3 - flag
  {
    var chr := PeekAt(b, p + len);
    if IsDigitCode(chr) then NumberLoop(b, p, len + 1, flag)
    else if chr == '.' as int && flag < 1 then
      if IsDigitCode(PeekAt(b, p + len + 1)) then NumberLoop(b, p, len + 1, 1)
      else NumberLoop(b, p, len, 3)
    else if (chr == 'e' as int || chr == 'E' as int) && flag < 2 then
      var next := PeekAt(b, p + len + 1);
      if next == '+' as int || next == '-' as int then
        if IsDigitCode(PeekAt(b, p + len + 2)) then NumberLoop(b, p, len + 2, 2)
        else NumberLoop(b, p, len, 3)
      else if IsDigitCode(next) then NumberLoop(b, p, len + 1, 2)
      else NumberLoop(b, p, len, 3)
    else len
  }

  /** The end of the optional fraction at `a`: a dot and at least one digit. */
  function FractionEnd(b: seq<Byte>, a: nat): (r: nat)
    requires a <= |b|
    ensures a <= r <= |b|
  {
    if PeekAt(b, a) == '.' as int && IsDigitCode(PeekAt(b, a + 1)) then DigitRun(b, a + 1)
    else a
  }

  /** The end of the optional exponent at `f`: `e` or `E`, an optional sign
      and at least one digit. */
  function ExponentEnd(b: seq<Byte>, f: nat): (r: nat)
    requires f <= |b|
    ensures f <= r <= |b|
  {
    if PeekAt(b, f) == 'e' as int || PeekAt(b, f) == 'E' as int then
      var next := PeekAt(b, f + 1);
      if (next == '+' as int || next == '-' as int) && IsDigitCode(PeekAt(b, f + 2))
      then DigitRun(b, f + 2)
      else if IsDigitCode(next) then DigitRun(b, f + 1)
      else f
    else f
  }

  /** The end of a number lexeme by the grammar
      digit {digit} [ `.` digit {digit} ] [ (`e`|`E`) [`+`|`-`] digit {digit} ],
      the unsigned-number syntax of section 6.1.5 of ISO 7185. */
  function NumberEnd(b: seq<Byte>, p: nat): (r: nat)
    requires p <= |b|
    ensures p <= r <= |b|
  {
    ExponentEnd(b, FractionEnd(b, DigitRun(b, p)))
  }

  /** The end of the run of identifier bytes that starts at `i`. */
  function IdentRun(b: seq<Byte>, i: nat): (r: nat)
    requires i <= |b|
    ensures i <= r <= |b| && !IsIdentCode(PeekAt(b, r))
    decreases |b| - i
  {
    if IsIdentCode(PeekAt(b, i)) then IdentRun(b, i + 1) else i
  }

  /** The first quote at or after `i`; `None` when the quote is never closed. */
  function QuoteAt(b: seq<Byte>, i: nat): (r: Option<nat>)
    ensures r.Some? ==> i <= r.value < |b| && b[r.value] == '\''
    decreases |b| - i
  {
    if i >= |b| then None
    else if b[i] == '\'' then Some(i)
    else QuoteAt(b, i + 1)
  }

  /** The end of a string lexeme: quoted segments and `#digits` segments in
      any order, up to the first byte that starts neither. */
  function StringEnd(b: seq<Byte>, i: nat): (r: Option<nat>)
    requires i <= |b|
    ensures r.Some? ==> i <= r.value <= |b|
    decreases |b| - i
  {
    var chr := PeekAt(b, i);
    if chr == '\'' as int then
      match QuoteAt(b, i + 1)
      case None => None
      case Some(q) => StringEnd(b, q + 1)
    else if chr == '#' as int then StringEnd(b, DigitRun(b, i + 1))
    else Some(i)
  }

  /** A token without text, placed at cursor `c`. */
  function Here(c: Cursor, kind: TokenType): Token {
    Token(kind, None, c.line, c.col)
  }

  /** `scanner_read_as_number` at `c`. */
  function NumberScan(b: seq<Byte>, c: Cursor): (r: Scan)
    requires c.pos <= |b|
  {
    var n := NumberLoop(b, c.pos, 0, 0);
    Scan(Token(TOK_DIGIT, Some(b[c.pos..c.pos + n]), c.line, c.col),
         Cursor(c.pos + n, c.line, c.col + n))
  }

  /** `scanner_read_as_identifier` at `c`: the kind comes from `match_identifier`
      and only an identifier keeps its text. */
  function IdentScan(b: seq<Byte>, c: Cursor): (r: Scan)
    requires c.pos <= |b|
  {
    var e := IdentRun(b, c.pos);
    var value: string := b[c.pos..e];
    var kind := IdentifierKind(value);
    Scan(Token(kind, if kind == TOK_IDENTIFIER then Some(value) else None, c.line, c.col),
         Cursor(e, c.line, c.col + (e - c.pos)))
  }

  /** `scanner_read_as_string` at `c`. */
  function StringScan(b: seq<Byte>, c: Cursor): (r: Option<Scan>)
    requires c.pos <= |b|
  {
    match StringEnd(b, c.pos)
    case None => None
    case Some(e) =>
      Some(Scan(Token(TOK_STRING, Some(b[c.pos..e]), c.line, c.col),
                Cursor(e, c.line, c.col + (e - c.pos))))
  }

  /** A one-byte token at `c`: recorded, then discarded. */
  function Once(b: seq<Byte>, c: Cursor, kind: TokenType): Option<Scan> {
    match Discarded(b, c)
    case None => None
    case Some(d) => Some(Scan(Here(c, kind), d))
  }

  /** A two-byte token at `c`: recorded, then discarded twice. */
  function Twice(b: seq<Byte>, c: Cursor, kind: TokenType): Option<Scan> {
    match Discarded(b, c)
    case None => None
    case Some(d) =>
      match Discarded(b, d)
      case None => None
      case Some(e) => Some(Scan(Here(c, kind), e))
  }

  /** The one-byte tokens of the switch in `scanner_next`, by byte. */
  const OneByteKinds: map<int, TokenType> := map[
    '*' as int := TOK_ASTERISK,
    '@' as int := TOK_AT,
    '^' as int := TOK_CARET,
    ',' as int := TOK_COMMA,
    '$' as int := TOK_DOLLAR,
    '=' as int := TOK_EQUAL,
    '[' as int := TOK_LBRACKET,
    '(' as int := TOK_LPAREN,
    '-' as int := TOK_MINUS,
    '+' as int := TOK_PLUS,
    ']' as int := TOK_RBRACKET,
    ')' as int := TOK_RPAREN,
    ';' as int := TOK_SEMICOLON,
    '/' as int := TOK_SLASH]

  /** The bytes that start a two-byte operator or its one-byte prefix. */
  predicate IsPrefixByte(next: int) {
    next == ':' as int || next == '.' as int || next == '>' as int || next == '<' as int
  }

  /** The operators that start with `:`, `.`, `>` or `<` at `c`; when the second
      byte completes a two-byte operator, that one wins. */
  function PrefixScan(b: seq<Byte>, c: Cursor, next: int): Option<Scan>
    requires IsPrefixByte(next)
  {
    var second := PeekAt(b, c.pos + 1);
    if next == ':' as int then
      if second == '=' as int then Twice(b, c, TOK_ASSIGN) else Once(b, c, TOK_COLON)
    else if next == '.' as int then
      if second == '.' as int then Twice(b, c, TOK_DOTDOT) else Once(b, c, TOK_DOT)
    else if next == '>' as int then
      if second == '=' as int then Twice(b, c, TOK_GREATEQL) else Once(b, c, TOK_GREATER)
    else
      if second == '=' as int then Twice(b, c, TOK_LESSEQL)
      else if second == '>' as int then Twice(b, c, TOK_NEQUAL)
      else Once(b, c, TOK_LESSER)
  }

  /** The dispatch of `scanner_next` once the cursor is on a significant byte. */
  function Dispatch(b: seq<Byte>, c: Cursor): Option<Scan> {
    var next := PeekAt(b, c.pos);
    if next == EOF then Some(Scan(Here(c, TOK_EOF), c))
    else if IsPrefixByte(next) then PrefixScan(b, c, next)
    else if next in OneByteKinds then Once(b, c, OneByteKinds[next])
    else if IsDigitCode(next) then Some(NumberScan(b, c))
    else if IsUpperCode(next) || IsLowerCode(next) || next == '_' as int then Some(IdentScan(b, c))
    else if next == '\'' as int || next == '#' as int then StringScan(b, c)
    else Some(Scan(Here(c, TOK_EOF), c))
  }

  /** `scanner_next` at `c`: clean, then dispatch; `None` when a comment or a
      string is never closed. */
  function NextScan(b: seq<Byte>, c: Cursor): Option<Scan> {
    match Cleaned(b, c)
    case None => None
    case Some(d) => Dispatch(b, d)
  }

  /** The first three bytes are the UTF-8 byte order mark EF BB BF. */
  predicate HasBom(b: seq<Byte>) {
    Raw(b, 0) == 0xEF as char && Raw(b, 1) == 0xBB as char && Raw(b, 2) == 0xBF as char
  }

  /** `scanner_init` as written: line 1, column 1, position 0, or 4 after a mark. */
  function Init(b: seq<Byte>): (r: Cursor)
    ensures r.line == 1 && r.col == 1
    ensures HasBom(b) <==> r.pos == 4
    ensures !HasBom(b) <==> r.pos == 0
  {
    Cursor(if HasBom(b) then 4 else 0, 1, 1)
  }

  /** The evidently intended start: just past the three bytes of the mark. */
  function InitIntended(b: seq<Byte>): (r: Cursor)
    ensures r.line == 1 && r.col == 1
    ensures HasBom(b) ==> |b| >= 3 && r.pos == 3 && b[..r.pos] == [0xEF as char, 0xBB as char, 0xBF as char]
    ensures !HasBom(b) ==> r.pos == 0
    ensures r.pos <= |b|
  {
    Cursor(if HasBom(b) then 3 else 0, 1, 1)
  }

  // ---------------------------------------------------------------------
  // The scanner object

  class Scanner {
    const buffer: seq<Byte>
    var pos: nat
    var line: nat
    var col: nat

    /** The cursor the fields describe. */
    function At(): Cursor
      reads this
    {
      Cursor(pos, line, col)
    }

    /** `scanner_init`. */
    constructor (buffer: seq<Byte>)
      ensures this.buffer == buffer && At() == Init(buffer)
    {
      this.buffer := buffer;
      pos := 0;
      line := 1;
      col := 1;
      new;
      if Raw(buffer, 0) == 0xEF as char && Raw(buffer, 1) == 0xBB as char
        && Raw(buffer, 2) == 0xBF as char
      {
        pos := 4;
      }
    }

    /** `scanner_peek`. */
    method Peek() returns (ch: int)
      ensures ch == PeekAt(buffer, pos)
    {
      if pos >= |buffer| {
        return EOF;
      }
      return Signed(buffer[pos]);
    }

    /** `scanner_peekfar`. */
    method PeekFar(offt: nat) returns (ch: int)
      ensures ch == PeekAt(buffer, pos + offt)
    {
      var ea := pos + offt;
      if ea >= |buffer| {
        return EOF;
      }
      return Signed(buffer[ea]);
    }

    /** `scanner_advance`. */
    method Advance()
      modifies this
      ensures At() == Advanced(buffer, old(At()))
    {
      if Raw(buffer, pos) == '\n' {
        line := line + 1;
        col := 0;
      }
      pos := pos + 1;
      col := col + 1;
    }

    /** `scanner_consume_until_char`; the bracket, trigraph and slash comment
        consumers run the same loop, and call it here. */
    method ConsumeUntilChar(ch: Byte)
      requires UntilChar(buffer, At(), ch).Some?
      modifies this
      ensures At() == UntilChar(buffer, old(At()), ch).value
    {
      ghost var goal := UntilChar(buffer, At(), ch);
      while Raw(buffer, pos) != ch
        invariant UntilChar(buffer, At(), ch) == goal
        decreases |buffer| - pos
      {
        Advance();
      }
    }

    /** `consume_until_closing_bracket`. */
    method ConsumeUntilClosingBracket()
      requires BracketClosed(buffer, At()).Some?
      modifies this
      ensures At() == BracketClosed(buffer, old(At())).value
    {
      ConsumeUntilChar('}');
      Advance();
    }

    /** `consume_until_closing_trigraph`. */
    method ConsumeUntilClosingTrigraph()
      requires TrigraphClosed(buffer, At()).Some?
      modifies this
      ensures At() == TrigraphClosed(buffer, old(At())).value
    {
      ghost var goal := TrigraphClosed(buffer, At());
      while true
        invariant TrigraphClosed(buffer, At()) == goal
        decreases |buffer| - pos
      {
        ConsumeUntilChar('*');
        if Raw(buffer, pos + 1) == ')' {
          pos := pos + 2;
          col := col + 2;
          return;
        }
        Advance();
      }
    }

    /** `consume_slash_comment`. */
    method ConsumeSlashComment()
      requires SlashCommentEnd(buffer, At()).Some?
      modifies this
      ensures At() == SlashCommentEnd(buffer, old(At())).value
    {
      ConsumeUntilChar('\n');
      ghost var goal := NewlinesSkipped(buffer, At());
      while Raw(buffer, pos) == '\n'
        invariant NewlinesSkipped(buffer, At()) == goal
        decreases |buffer| - pos
      {
        Advance();
      }
    }

    /** `scanner_clean`. */
    method Clean()
      requires Cleaned(buffer, At()).Some?
      modifies this
      ensures At() == Cleaned(buffer, old(At())).value
    {
      ghost var goal := Cleaned(buffer, At());
      while !Significant(buffer, pos)
        invariant Cleaned(buffer, At()) == goal
        decreases |buffer| - pos
      {
        var ch := Raw(buffer, pos);
        if ch == '{' {
          ConsumeUntilClosingBracket();
        } else if ch == '/' {
          ConsumeSlashComment();
        } else if ch == '(' {
          ConsumeUntilClosingTrigraph();
        } else {
          Advance();
        }
      }
    }

    /** `scanner_discard`. */
    method Discard()
      requires Discarded(buffer, At()).Some?
      modifies this
      ensures At() == Discarded(buffer, old(At())).value
    {
      Advance();
      Clean();
    }

    /** The length counter of `scanner_read_as_number`. */
    method NumberLength() returns (len: nat)
      requires pos <= |buffer|
      ensures len == NumberLoop(buffer, pos, 0, 0)
    {
      len := 0;
      var flag := 0;
      while true
        invariant pos + len <= |buffer| && flag <= 3
        invariant NumberLoop(buffer, pos, len, flag) == NumberLoop(buffer, pos, 0, 0)
        decreases |buffer| - (pos + len), 3 - flag
      {
        var chr := PeekFar(len);
        if IsDigitCode(chr) {
          len := len + 1;
          continue;
        }
        if chr == '.' as int && flag < 1 {
          flag := 1;
          chr := PeekFar(len + 1);
          if IsDigitCode(chr) {
            len := len + 1;
          } else {
            flag := 3;
          }
          continue;
        }
        if (chr == 'e' as int || chr == 'E' as int) && flag < 2 {
          flag := 2;
          chr := PeekFar(len + 1);
          if chr == '+' as int || chr == '-' as int {
            chr := PeekFar(len + 2);
            if IsDigitCode(chr) {
              len := len + 2;
            } else {
              flag := 3;
            }
          } else if IsDigitCode(chr) {
            len := len + 1;
          } else {
            flag := 3;
          }
          continue;
        }
        break;
      }
    }

    /** `scanner_read_as_number`. */
    method ReadAsNumber() returns (token: Token)
      requires pos <= |buffer|
      modifies this
      ensures NumberScan(buffer, old(At())) == Scan(token, At())
    {
      var len := NumberLength();
      var value: string := buffer[pos..pos + len];
      token := Token(TOK_DIGIT, Some(value), line, col);
      pos := pos + len;
      col := col + len;
    }

    /** The length counter of `scanner_read_as_identifier`. */
    method IdentifierLength() returns (len: nat)
      requires pos <= |buffer|
      ensures pos + len == IdentRun(buffer, pos)
      ensures forall k :: pos <= k < pos + len ==> buffer[k] != NUL
    {
      len := 0;
      while true
        invariant pos + len <= |buffer|
        invariant IdentRun(buffer, pos + len) == IdentRun(buffer, pos)
        invariant forall k :: pos <= k < pos + len ==> buffer[k] != NUL
        decreases |buffer| - (pos + len)
      {
        var chr := PeekFar(len);
        if !IsIdentCode(chr) {
          break;
        }
        len := len + 1;
      }
    }

    /** `scanner_read_as_identifier`. */
    method ReadAsIdentifier() returns (token: Token)
      requires pos <= |buffer|
      modifies this
      ensures IdentScan(buffer, old(At())) == Scan(token, At())
    {
      var len := IdentifierLength();
      var value: string := buffer[pos..pos + len];
      var kind := MatchIdentifier(value);
      if kind == TOK_IDENTIFIER {
        token := Token(kind, Some(value), line, col);
      } else {
        token := Token(kind, None, line, col);
      }
      pos := pos + len;
      col := col + len;
    }

    /** The inner loop over a quoted segment of `scanner_read_as_string`. */
    method QuoteLength(offt0: nat) returns (offt: nat)
      requires QuoteAt(buffer, pos + offt0).Some?
      ensures pos + offt == QuoteAt(buffer, pos + offt0).value
    {
      offt := offt0;
      while true
        invariant QuoteAt(buffer, pos + offt) == QuoteAt(buffer, pos + offt0)
        decreases |buffer| - (pos + offt)
      {
        var chr := PeekFar(offt);
        if chr == '\'' as int {
          break;
        }
        offt := offt + 1;
      }
    }

    /** The inner loop over a `#digits` segment of `scanner_read_as_string`. */
    method DigitsLength(offt0: nat) returns (offt: nat)
      requires pos + offt0 <= |buffer|
      ensures pos + offt == DigitRun(buffer, pos + offt0)
    {
      offt := offt0;
      while true
        invariant pos + offt <= |buffer|
        invariant DigitRun(buffer, pos + offt) == DigitRun(buffer, pos + offt0)
        decreases |buffer| - (pos + offt)
      {
        var chr := PeekFar(offt);
        if !IsDigitCode(chr) {
          break;
        }
        offt := offt + 1;
      }
    }

    /** The length counter of `scanner_read_as_string`. */
    method StringLength() returns (len: nat)
      requires pos <= |buffer| && StringEnd(buffer, pos).Some?
      ensures StringEnd(buffer, pos) == Some(pos + len)
    {
      ghost var goal := StringEnd(buffer, pos);
      len := 0;
      while true
        invariant pos + len <= |buffer|
        invariant StringEnd(buffer, pos + len) == goal
        decreases |buffer| - (pos + len)
      {
        var chr := PeekFar(len);
        if chr == '\'' as int {
          len := QuoteLength(len + 1);
          len := len + 1;
        } else if chr == '#' as int {
          len := DigitsLength(len + 1);
        } else {
          break;
        }
      }
    }

    /** `scanner_read_as_string`. */
    method ReadAsString() returns (token: Token)
      requires pos <= |buffer| && StringEnd(buffer, pos).Some?
      modifies this
      ensures StringScan(buffer, old(At())) == Some(Scan(token, At()))
    {
      var len := StringLength();
      var meta: string := buffer[pos..pos + len];
      token := Token(TOK_STRING, Some(meta), line, col);
      pos := pos + len;
      col := col + len;
    }

    /** A one-byte token at the cursor. */
    method OneByte(kind: TokenType) returns (token: Token)
      requires Once(buffer, At(), kind).Some?
      modifies this
      ensures Once(buffer, old(At()), kind) == Some(Scan(token, At()))
    {
      token := Here(At(), kind);
      Discard();
    }

    /** A two-byte token at the cursor. */
    method TwoBytes(kind: TokenType) returns (token: Token)
      requires Twice(buffer, At(), kind).Some?
      modifies this
      ensures Twice(buffer, old(At()), kind) == Some(Scan(token, At()))
    {
      token := Here(At(), kind);
      Discard();
      Discard();
    }

    /** The cases of `scanner_next` for `:`, `.`, `>` and `<`. */
    method NextPrefixed(next: int) returns (token: Token)
      requires IsPrefixByte(next) && PrefixScan(buffer, At(), next).Some?
      modifies this
      ensures PrefixScan(buffer, old(At()), next) == Some(Scan(token, At()))
    {
      var second := PeekFar(1);
      if next == ':' as int {
        if second == '=' as int {
          token := TwoBytes(TOK_ASSIGN);
        } else {
          token := OneByte(TOK_COLON);
        }
      } else if next == '.' as int {
        if second == '.' as int {
          token := TwoBytes(TOK_DOTDOT);
        } else {
          token := OneByte(TOK_DOT);
        }
      } else if next == '>' as int {
        if second == '=' as int {
          token := TwoBytes(TOK_GREATEQL);
        } else {
          token := OneByte(TOK_GREATER);
        }
      } else if second == '=' as int {
        token := TwoBytes(TOK_LESSEQL);
      } else if second == '>' as int {
        token := TwoBytes(TOK_NEQUAL);
      } else {
        token := OneByte(TOK_LESSER);
      }
    }

    /** `scanner_next`. */
    method Next() returns (token: Token)
      requires NextScan(buffer, At()).Some?
      modifies this
      ensures NextScan(buffer, old(At())) == Some(Scan(token, At()))
    {
      Clean();
      var next := Peek();
      if next == EOF {
        return Here(At(), TOK_EOF);
      }
      if IsPrefixByte(next) {
        token := NextPrefixed(next);
        return;
      }
      if next in OneByteKinds {
        token := OneByte(OneByteKinds[next]);
        return;
      }
      if IsDigitCode(next) {
        token := ReadAsNumber();
        return;
      }
      if IsUpperCode(next) || IsLowerCode(next) || next == '_' as int {
        token := ReadAsIdentifier();
        return;
      }
      if next == '\'' as int || next == '#' as int {
        token := ReadAsString();
        return;
      }
      return Here(At(), TOK_EOF);
    }
  }
}
