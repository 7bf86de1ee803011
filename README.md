# pascal2c: a verified model of the scanners and the parser

pascal2c is the front end of a small Pascal compiler. It holds four
byte-and-token processors, and this Dafny project models all four:

- **The Go tokenizer** (`tokenizer/*.go`). A `Tokenizer` holds a byte
  buffer and a cursor. `NextToken` dispatches on the byte under the
  cursor. It builds identifiers and the seven keywords, digit runs, and
  `'…'`/`#nn` string literals. `advance` steps past the lexeme and skips
  whitespace and the `//`, `{…}` and `(*…*)` comments.
- **The libpasta scanner and its tables** (`libpasta/scanner.c`,
  `libpasta/token.c`). It scans a larger dialect: two-byte operators, 35
  keywords matched without regard to case, numbers with a fraction and an
  exponent as in section 6.1.5 of ISO 7185, line and column tracking, and
  a UTF-8 byte order mark.
- **The first compiler's streaming scanner** (`scanner.c`, `token.c`).
  It reads a stream through a growable ring buffer (`circbuf.c`) so that
  it can look ahead as far as it needs.
- **The recursive-descent parsers.** These are libpasta's
  (`libpasta/parser*.c`) and the first compiler's (`parser.c`,
  `lib/parser-parameter-list.c`). Each walks a token array with a
  position and builds trees of UNARY, BINARY, GROUPING and LITERAL nodes.

Each source file is one Dafny module, named after it. The imperative code
is modelled imperatively:

- The ring buffer is a `class` over an `array`.
- Both C scanners and the Go tokenizer are classes whose methods move a
  cursor.
- Both parsers are a `Parser` class holding the token sequence and `pos`.

Every method is proved against a specification function over values.
Scanner methods are tied to a step function over the bytes and the
cursor. Each parser method `ParseX` ensures
`Pack(r, p.pos) == X(p.tokens, old(p.pos))`, where `X` gives either the
tree with the position after it or the error. The `*Facts` modules and the
lemmas beside the functions then prove what the source promises about
those functions. This covers:

- the exact tree each grammar rule builds;
- the tokens it consumes;
- the error it reports, and on which token;
- the shape of every chain a loop builds;
- that loading keeps every token up to the first TOK_EOF, in order.

`parser_error` and the Go `panic` become `Failure` values that carry the
token being reported. A read past the end of the token array is not
checked in C; here it is the `PastEnd` failure. The main model keeps the
code as written, including the four defects under "## Findings". Each
corrected definition is a separate member, and its intended property is
proved about it.

Three behaviours of the Go tokenizer follow the code exactly:

- `NewTokenizer` skips nothing before the first token
  (`tokenizer/tokenizer.go:14-16`). A leading `//` reads as a slash, a
  leading `(*` as a left parenthesis, and a leading space or `{` is the
  unknown-rune failure.
- After a `(*…*)` comment that ends the buffer, the cursor is one past
  the end (`tokenizer/tokenizer.go:161-173`; first row of "## Findings").
- An unrecognised character makes the code panic
  (`tokenizer/tokenizer.go:73-75`); here that is the `UnknownRune` result.

## Model

| member | source | states |
|---|---|---|
| Ast.ConstructorsExact | libpasta/parser.c:84-121 | `new_unary`, `new_binary`, `new_grouping` and `new_literal` build a node of that kind holding exactly the given token and children; every other field is null (the same constructors are at parser.c:8-45) |
| Ast.ChainSpine | libpasta/parser-parameter-list.c:98-136 | a chain grown by appending through `next->exp_right` holds, along its right spine, one node per appended item with that item's kind, token and left child, in order, then the tail |
| Ast.ChainLefts | lib/parser-parameter-list.c:31-52 | the left children along such a chain are the appended items in order, followed by the tail's |
| CircBuf.CircBuf.constructor | circbuf.c:80-93 | `circbuf_init`: capacity 8, read = write = 0, every slot zero, nothing buffered |
| CircBuf.CircBuf.ContentsInRotated | circbuf.c:175-182 | the buffered values are the first `(write - read) mod siz` slots of the ring read from `read`, and fewer than `siz` |
| CircBuf.CircBuf.Normalize | circbuf.c:16-47 | `circbuf_normalize`: the slots are rotated so reading starts at 0, write is moved to `(write - read) mod siz`, and the buffered values do not change |
| CircBuf.CircBuf.Resize | circbuf.c:49-78 | `circbuf_resize`: a fresh array of twice the size whose first half is the normalized ring, read at 0 |
| CircBuf.CircBuf.Write | circbuf.c:95-114 | `circbuf_write`: the value is appended to the buffered values; when the ring fills it doubles, with read at 0 and write at the old size |
| CircBuf.CircBuf.Read | circbuf.c:116-129 | `circbuf_read`: -1 and no change when empty; otherwise the first buffered value, which is removed |
| CircBuf.CircBuf.Peek | circbuf.c:131-138 | `circbuf_peek`: -1 when empty, otherwise the first buffered value |
| CircBuf.CircBuf.PeekFar | circbuf.c:140-167 | `circbuf_peekfar`: the value `off mod siz` places after the front when it is buffered, -1 when it is not |
| CircBuf.CircBuf.SlotOfOffset | circbuf.c:150-166 | the clamped slot for an offset is readable by the two-case test exactly when the offset is within the buffered values, and then holds that value |
| CircBuf.CircBuf.Empty | circbuf.c:169-173 | `circbuf_empty` holds exactly when nothing is buffered |
| CircBuf.CircBuf.Bufsiz | circbuf.c:175-182 | `circbuf_bufsiz` is the number of buffered values, `(write - read) mod siz` |
| CircBuf.CircBuf.WrapIsMod | circbuf.c:36-39 | the subtract-until-in-range loops compute the remainder |
| GoType.Name | tokenizer/type.go:70-75 | `TokenType.String` gives the table entry of a kind that has one and `TOK_UNKNOWN` for any other value |
| GoType.DeclaredAreConsecutive | tokenizer/type.go:5-31 | the 24 kinds are the iota values 0..23, `TokenEof` being 0 |
| GoType.StringTokensDomain | tokenizer/type.go:43-68 | exactly the 24 declared kinds have a printed name in the table |
| GoType.NameRoundTrip | tokenizer/type.go:43-75 | reading the printed name of any of the 24 kinds back (an independent decoding) gives the kind |
| GoType.NameInjective | tokenizer/type.go:43-75 | the printed names of the 24 kinds are pairwise distinct and none of them is `TOK_UNKNOWN` |
| GoType.NameOfUndeclared | tokenizer/type.go:70-75 | every value from 24 on prints as `TOK_UNKNOWN` |
| GoType.KeywordKeys | tokenizer/type.go:33-41 | the keyword table holds exactly the seven lower-case spellings begin, const, div, end, mod, program, var |
| GoType.KeywordValues | tokenizer/type.go:33-41 | the keywords map to seven distinct kinds, none of them a kind that carries text |
| GoToken.NewToken | tokenizer/token.go:5-10 | the kind is kept, and the text only when exactly one variadic text is given; otherwise it is empty |
| GoToken.Token.String | tokenizer/token.go:17-22 | the bare name when the text is empty; otherwise the name followed by more characters |
| GoToken.StringRecoversMeta | tokenizer/token.go:17-22 | the printed form with text is the name, `(`, exactly the text, `)`, so the text can be read back from it |
| GoToken.EmptyMetaPrintsBare | tokenizer/token.go:5-22 | a token built with an empty text prints as one built with none: the bare name |
| GoToken.StringExamples | tokenizer/token_test.go:5-19 | `TOK_DIGIT(12345)` for a digit token with text, bare `TOK_BEGIN` without |
| GoToken.EofExactly | tokenizer/token.go:24-26 | `Eof` holds exactly for kind 0, whatever the text |
| GoTester.StarterIsLetterOrUnderscore | tokenizer/tester.go:3-5 | an identifier starts with one of the 52 ASCII letters or `_`, and with nothing else |
| GoTester.LetterIsStarterOrDigit | tokenizer/tester.go:7-9 | an identifier continues with a starter or an ASCII digit, and with nothing else |
| GoTester.StarterIsLetter | tokenizer/tester.go:3-9 | every starter may also continue an identifier |
| GoTester.StartersDisjoint | tokenizer/tester.go:3-13 | no character starts both a string and an identifier, or either of them and a number |
| GoTester.NulInNoClass | tokenizer/tester.go:3-13 | the NUL that the tokenizer reads past the end is in no class, so every run stops there |
| GoTokenizer.UntilToken | tokenizer/tokenizer.go:180-184 | where `advanceUntilToken` stops: a position at or after the cursor, inside the buffer, holding the wanted byte (None when it would index past the end) |
| GoTokenizer.Span | tokenizer/tokenizer.go:103-107 | the end of a run of bytes with a property: within the buffer, and the byte there, if any, lacks it |
| GoTokenizer.CloseStar | tokenizer/tokenizer.go:162-173 | the inner loop of a `(*` comment ends two bytes past a `*)`, within the buffer |
| GoTokenizer.StepAt | tokenizer/tokenizer.go:139-176 | one pass of the `advance` loop stops exactly on a significant byte; otherwise it resumes at or after it within the buffer, at least two bytes further after `(*` |
| GoTokenizer.Skip | tokenizer/tokenizer.go:135-178 | `advance` as written moves the cursor forward, at most one past the end, onto a significant byte when inside the buffer |
| GoTokenizer.SkipIntended | tokenizer/tokenizer.go:161-173 | the corrected `advance`, which does not step over the byte after `*)`, has the same bounds and also stops on a significant byte |
| GoTokenizer.StringEnd | tokenizer/tokenizer.go:78-101 | the end of a string lexeme: within the buffer, not followed by another `'` or `#` segment, and past its first byte |
| GoTokenizer.ToLower | tokenizer/tokenizer.go:113 | `strings.ToLower` on ASCII: same length, upper-case letters shifted by 32, everything else kept |
| GoTokenizer.Tokenizer.constructor | tokenizer/tokenizer.go:14-16 | `NewTokenizer`: the `[]byte` buffer is kept, one byte value per character, and the cursor is 0 |
| GoTokenizer.Tokenizer.NextToken | tokenizer/tokenizer.go:18-24 | the token and the new cursor are those of `NextTokenAt` on the old cursor: TokenEof at or past the end, otherwise the token there; an unknown rune is the error the source panics with |
| GoTokenizer.Tokenizer.ScanToken | tokenizer/tokenizer.go:26-76 | the dispatch of `nextToken` agrees with `NextTokenAt` on the token, the failure and the new cursor |
| GoTokenizer.Tokenizer.NextStringOrChar | tokenizer/tokenizer.go:78-101 | the string token and the cursor after it are those of `StringAt` |
| GoTokenizer.Tokenizer.StringLength | tokenizer/tokenizer.go:79-93 | the offset loop of `nextStringOrChar` ends exactly where `StringEnd` says |
| GoTokenizer.Tokenizer.QuotedSegment | tokenizer/tokenizer.go:82-87 | a `'…'` segment moves the offset past its closing quote, and the literal still ends where it did |
| GoTokenizer.Tokenizer.CodeSegment | tokenizer/tokenizer.go:88-92 | a `#` segment moves the offset past its digits, and the literal still ends where it did |
| GoTokenizer.Tokenizer.NextIdentifier | tokenizer/tokenizer.go:103-118 | the keyword or identifier token and the cursor after it are those of `IdentifierAt` |
| GoTokenizer.Tokenizer.NextDigit | tokenizer/tokenizer.go:120-129 | the digit token and the cursor after it are those of `DigitAt` |
| GoTokenizer.Tokenizer.RunEnd | tokenizer/tokenizer.go:105-107 | the `peekFar` loop stops at the end of the run, `Span` |
| GoTokenizer.Tokenizer.QuoteEnd | tokenizer/tokenizer.go:84-86 | the quote loop stops on the next `'` |
| GoTokenizer.Tokenizer.MoreTokens | tokenizer/tokenizer.go:131-133 | true exactly when the cursor is inside the buffer |
| GoTokenizer.Tokenizer.Advance | tokenizer/tokenizer.go:135-178 | the cursor ends where `Skip` says |
| GoTokenizer.Tokenizer.SkipStarComment | tokenizer/tokenizer.go:163-171 | the cursor ends where `CloseStar` says |
| GoTokenizer.Tokenizer.AdvanceUntilToken | tokenizer/tokenizer.go:180-184 | the cursor ends where `UntilToken` says |
| GoTokenizer.Tokenizer.Peek | tokenizer/tokenizer.go:186-188 | the byte at the cursor |
| GoTokenizer.Tokenizer.PeekFar | tokenizer/tokenizer.go:190-195 | the byte `offt` after the cursor, or NUL at or past the end |
| GoTokenizerFacts.UntilTokenFirst | tokenizer/tokenizer.go:180-184 | the stop is the first occurrence of the byte; there is none exactly when no later byte is it |
| GoTokenizerFacts.SpanAll | tokenizer/tokenizer.go:105-107 | every byte of the run has the property |
| GoTokenizerFacts.SpanIsMaximal | tokenizer/tokenizer.go:105-107 | any maximal run is the one `Span` finds |
| GoTokenizerFacts.CloseStarFirst | tokenizer/tokenizer.go:163-171 | a `(*` comment closes at the first `*)`; it never closes exactly when there is none |
| GoTokenizerFacts.StarCommentSelfCloses | tokenizer/tokenizer.go:162-171 | `(*)` is a whole comment: the `*` of the opener also closes it |
| GoTokenizerFacts.SkipOverSpaces | tokenizer/tokenizer.go:144-147 | `advance` steps over whitespace to the next significant byte |
| GoTokenizerFacts.AdvanceTestCases | tokenizer/tokenizer_test.go:24-44 | the five cursor moves the tests state: 0 to 1, 6 to 8, 5 to 7, 5 to 8, 6 to 7 |
| GoTokenizerFacts.BraceCommentsDoNotNest | tokenizer/tokenizer.go:155-159 | a `{` comment ends at the first `}`, so comments do not nest |
| GoTokenizerFacts.EofAtEnd | tokenizer/tokenizer.go:18-21 | at or past the end the token is TokenEof and the cursor stays |
| GoTokenizerFacts.AssignOrColon | tokenizer/tokenizer.go:28-35 | `:=` is TokenAssign over two bytes, `:` alone TokenColon |
| GoTokenizerFacts.SingleByteTokens | tokenizer/tokenizer.go:36-65 | each of the ten one-byte operators gives its fixed kind with no text |
| GoTokenizerFacts.UnknownStart | tokenizer/tokenizer.go:72-74 | a byte that starts no token is the unknown-rune failure |
| GoTokenizerFacts.NoSkipBeforeFirstToken | tokenizer/tokenizer.go:14-16 | the constructor skips nothing, so a leading space or `{` comment is dispatched on directly and is the unknown-rune failure |
| GoTokenizerFacts.NextTokenProgress | tokenizer/tokenizer.go:26-76 | every token read inside the buffer moves the cursor forward, at most one past the end |
| GoTokenizerFacts.IdentifierLexeme | tokenizer/tokenizer.go:103-118 | an identifier lexeme is the maximal run of identifier letters from the starter |
| GoTokenizerFacts.WordTokenKind | tokenizer/tokenizer.go:112-117 | a spelling whose lower-case form is a keyword gives that keyword with no text, any other an identifier with its text as written |
| GoTokenizerFacts.KeywordsIgnoreCase | tokenizer/tokenizer.go:113-116 | `BeGiN` is the keyword begin |
| GoTokenizerFacts.KeywordPrefixIsIdentifier | tokenizer/tokenizer.go:113-117 | `Begins` is an identifier, not a keyword, and keeps its case |
| GoTokenizerFacts.DigitLexeme | tokenizer/tokenizer.go:120-129 | a number lexeme is the maximal run of digits, kept as the text |
| GoTokenizerFacts.DigitStopsAtDot | tokenizer/tokenizer.go:120-129 | `12.5` reads `12`, then the dot |
| GoTokenizerFacts.DigitAtEndOfBuffer | tokenizer/tokenizer.go:190-195 | a number running to the end of the buffer stops at the NUL `peekFar` gives there |
| GoTokenizerFacts.StringLexeme | tokenizer/tokenizer.go:78-101 | a string lexeme runs from its starter to the end of its last segment and keeps all of it, quotes included, as the text |
| GoTokenizerFacts.StringExamples | tokenizer/tokenizer.go:80-99 | `'it''s'`, `#13#10` and `'a'#9'b'` are each one string lexeme |
| GoTokenizerFacts.StarCommentSkipsNextByte | tokenizer/tokenizer.go:161-173 | after a `(*…*)` comment, `advance` as written lands past the byte right after `)` |
| GoTokenizerFacts.StarCommentLosesByte | tokenizer/tokenizer.go:161-173 | in `a(*c*)b` the `b` is never tokenized: after `a` the cursor is past the end |
| GoTokenizerFacts.SkipIntendedStopsAfterComment | tokenizer/tokenizer.go:161-173 | the corrected `advance` stops on the significant byte right after `*)` |
| GoTokenizerFacts.SkipIntendedInBounds | tokenizer/tokenizer.go:135-178 | the corrected `advance` never leaves the buffer from inside it |
| GoTokenizerFacts.BraceOrLineEndInBuffer | tokenizer/tokenizer.go:149-159 | a line or brace comment resumes on its terminator, inside the buffer |
| GoTokenizerFacts.SkipIntendedExample | tokenizer/tokenizer.go:161-173 | the corrected `advance` from `a` in `a(*c*)b` stops on `b` |
| LegacyToken.RowOf | token.c:14-40 | the row of the table that holds a kind, when there is one: inside the table and naming that kind |
| LegacyToken.RowOfListed | token.c:14-40 | a kind has a row exactly when it is one of the 24 listed; TOK_AT, TOK_CARET, TOK_DOLLAR, TOK_GREATER, TOK_LBRACKET, TOK_LESSER, TOK_NIL and TOK_RBRACKET have none |
| LegacyToken.TableRows | token.c:9-40 | every row holds a kind together with the spelling of its enum name, and no row holds an unlisted kind |
| LegacyToken.NameOrNull | token.c:42-53 | `tokentype_string` gives the enum name of a listed kind and `<null>` for an unlisted one |
| LegacyToken.NullExactlyUnlisted | token.c:42-53 | the result is `<null>` exactly for the eight unlisted kinds |
| LegacyToken.SpellingStarts | token.c:9-12 | every spelled name is a `TOK_` name, so none is `<null>` |
| LegacyToken.NameExamples | token.c:42-53 | TOK_NIL is `<null>`, TOK_VAR is `TOK_VAR` |
| LegacyToken.NameFromRow | token.c:42-53 | the lookup from row `i` on finds a row holding the kind and the name it returns, when a later row holds that kind |
| LegacyToken.NameFromMissing | token.c:42-53 | the lookup gives `<null>` when no row from `i` on holds the kind |
| LegacyScanner.Stream | scanner.c:46 | the `k`-th `fgetc` gives the `k`-th input byte, as a value 0..255, and EOF (-1) once the input is exhausted |
| LegacyScanner.UntilChar | scanner.c:66-72 | where `scanner_consume_until_char` stops: the first later position holding the byte, inside the input; none when the C loop would read EOF for ever |
| LegacyScanner.TrigraphClosed | scanner.c:107-120 | the `(*` comment loop ends past the first `*` that is followed by `)`, moving forward and within the input |
| LegacyScanner.SkipOnce | scanner.c:86-121 | one round of `scanner_peek_clean` on a space or a comment opener moves forward, within the input |
| LegacyScanner.Cleaned | scanner.c:76-125 | where `scanner_peek_clean` leaves the front: at or after the start, on a significant byte, within the input |
| LegacyScanner.DigitRun | scanner.c:151-158 | the end of the digit run: at or after the start, within the input |
| LegacyScanner.AlnumRun | scanner.c:177-182 | the end of the letter-or-digit run: at or after the start, within the input |
| LegacyScanner.SegmentEnd | scanner.c:206-220 | one `'…'` or `#digits` segment of a string ends past its start, within the input |
| LegacyScanner.StringEnd | scanner.c:204-229 | the string lexeme ends at or after its start, within the input; none when a quote is never closed |
| LegacyScanner.Scanner.constructor | scanner.c:14-31 | `scanner_init`: nothing read yet and an empty ring buffer |
| LegacyScanner.Scanner.Fetch | scanner.c:46-47 | one `fgetc` whose result is written to the back of the buffer; the front does not move |
| LegacyScanner.Scanner.Discard | scanner.c:64 | `scanner_discard` moves the front forward by one when the buffer is not empty |
| LegacyScanner.Scanner.Peek | scanner.c:41-50 | `scanner_peek`: the stream byte at the front, reading one byte only when the buffer is empty |
| LegacyScanner.Scanner.PeekFar | scanner.c:52-62 | `scanner_peekfar`: the stream byte `offt` after the front, reading just enough bytes to buffer it |
| LegacyScanner.Scanner.ConsumeUntilChar | scanner.c:66-72 | the front ends where `UntilChar` says |
| LegacyScanner.Scanner.ConsumeTrigraph | scanner.c:108-119 | the front ends where `TrigraphClosed` says |
| LegacyScanner.Scanner.TrigraphRound | scanner.c:110-116 | one pass of the `(*` loop: past the next `*`, and past the `)` too, ending the loop, exactly when one follows |
| LegacyScanner.Scanner.SkipPast | scanner.c:95-105 | the front ends just past the next occurrence of the byte |
| LegacyScanner.Scanner.CleanStep | scanner.c:82-121 | one round of the loop: the byte is returned without moving exactly when it is significant, and otherwise the front moves as `SkipOnce` says |
| LegacyScanner.Scanner.CommentAt | scanner.c:95-120 | the comment cases of the switch: a comment opener is skipped as `SkipOnce` says; any other byte is kept |
| LegacyScanner.Scanner.PeekClean | scanner.c:76-125 | `scanner_peek_clean`: the front ends where `Cleaned` says, and the byte there is returned |
| LegacyScanner.Scanner.ReadByte | scanner.c:162-163 | one `circbuf_read` of the extraction loop yields the input byte at the front and moves it forward by one |
| LegacyScanner.Scanner.Take | scanner.c:160-164 | the extraction loop takes exactly the next `len` input bytes |
| LegacyScanner.Scanner.DigitLength | scanner.c:151-158 | the length loop of `scanner_read_as_digit` counts up to `DigitRun` |
| LegacyScanner.Scanner.AlnumLength | scanner.c:177-182 | the length loop of `scanner_read_as_identifier` counts up to `AlnumRun` |
| LegacyScanner.Scanner.ReadAsDigit | scanner.c:144-167 | `scanner_read_as_digit`: a DIGIT token of the digit run, as `DigitScan` says |
| LegacyScanner.Scanner.ReadAsIdentifier | scanner.c:169-195 | `scanner_read_as_identifier`: the kind `match_identifier` gives the word, with the text only for TOK_IDENTIFIER, as `IdentScan` says |
| LegacyScanner.Scanner.QuoteLength | scanner.c:209-212 | the quote loop counts up to the next `'` |
| LegacyScanner.Scanner.DigitsLength | scanner.c:218-219 | the `#` loop counts up to the end of the digits |
| LegacyScanner.Scanner.Segment | scanner.c:206-220 | one segment of the string loop ends where `SegmentEnd` says |
| LegacyScanner.Scanner.StringLength | scanner.c:204-221 | the string loop ends where `StringEnd` says |
| LegacyScanner.Scanner.ReadAsString | scanner.c:197-230 | `scanner_read_as_string`: a STRING token of the whole lexeme, quotes included, as `StringScan` says |
| LegacyScanner.Scanner.Operator | scanner.c:241-280 | the operator switch of `scanner_next` gives what `Dispatch` says |
| LegacyScanner.Scanner.Lexeme | scanner.c:282-292 | the digit, identifier and string branches, and the TOK_EOF fallback, give what `Dispatch` says |
| LegacyScanner.Scanner.Next | scanner.c:232-293 | `scanner_next`: the token and the new front are those of `NextScan` on the old front |
| LegacyScannerFacts.CleanIdempotent | scanner.c:76-125 | cleaning a cleaned position leaves it where it is |
| LegacyScannerFacts.UntilCharFirst | scanner.c:66-72 | the stop is the first occurrence of the byte |
| LegacyScannerFacts.BracketsDoNotNest | scanner.c:95-99 | a `{` comment ends at the first `}`: in `{a{b}c}` the front stops on `c` |
| LegacyScannerFacts.TrigraphSelfCloses | scanner.c:107-117 | `(*)` is a whole comment: the `*` of the opener also closes it |
| LegacyScannerFacts.CommentsSkipped | scanner.c:82-122 | consecutive comments of different kinds are all skipped |
| LegacyScannerFacts.UnclosedComment | scanner.c:95-99 | an unclosed `{` comment never ends; spaces up to the end leave the front at the end |
| LegacyScannerFacts.ColonOrAssign | scanner.c:245-252 | `:=` is TOK_ASSIGN over two bytes, `:` alone TOK_COLON over one |
| LegacyScannerFacts.OneByteTokens | scanner.c:242-279 | one-byte operators give their kinds, after leading spaces; a lone `/` is TOK_SLASH |
| LegacyScannerFacts.DigitRunAll | scanner.c:153-158 | every byte of the digit run is a digit and the byte after it is not |
| LegacyScannerFacts.AlnumRunAll | scanner.c:177-182 | every byte of the word run is a letter or digit and the byte after it is neither |
| LegacyScannerFacts.DigitExamples | scanner.c:144-167 | `12.5` yields `12` first, and `7_` yields `7` |
| LegacyScannerFacts.IdentifierExample | scanner.c:185-194 | an identifier keeps its text; a keyword that `match_identifier` recognises has none |
| LegacyScannerFacts.UnderscoreIsEof | scanner.c:282-292 | a byte that starts no token, such as `_` or `[`, gives TOK_EOF without consuming it |
| LegacyScannerFacts.StringExamples | scanner.c:204-229 | `'it''s'` and `#13#10` are each one string lexeme |
| LegacyScannerFacts.UnterminatedString | scanner.c:209-212 | a quote that is never closed gives no token |
| LegacyScannerFacts.EofAtEnd | scanner.c:237-239 | at the end of the input every call yields TOK_EOF and consumes nothing |
| LegacyScannerFacts.EofSticky | scanner.c:232-293 | after a TOK_EOF that consumed no lexeme, the next call yields TOK_EOF again at the same place |
| LegacyScannerFacts.DispatchProgress | scanner.c:241-292 | only TOK_EOF is ever returned without consuming a byte |
| LegacyScannerFacts.ScanProgress | scanner.c:232-293 | every token but TOK_EOF moves the front forward and keeps it within the input |
| PastaToken.RowOf | libpasta/token.c:37-70 | every kind of the enumeration has a row in `tokens[]` |
| PastaToken.TableRows | libpasta/token.c:37-70 | row `r` of `tokens[]` holds enumerator `r`, except TOK_FOR and TOK_FUNCTION, whose rows are swapped against include/token.h |
| PastaToken.Lower | libpasta/token.c:93-103 | lower-casing keeps the length and maps each character on its own |
| PastaToken.CLength | libpasta/token.c:97 | the length of a C string: the first NUL, or the whole buffer when none |
| PastaToken.LowerC | libpasta/token.c:93-103 | `lowercase` on a buffer keeps its length |
| PastaToken.Lowercase | libpasta/token.c:93-103 | the in-place loop leaves the buffer as `LowerC` of its old contents: letters before the first NUL lowered, the rest untouched |
| PastaToken.LowerCOfCString | libpasta/token.c:93-103 | on a NUL-terminated copy, `lowercase` lowers the text and keeps the terminator |
| PastaToken.MatchIdentifier | libpasta/token.c:105-124 | the keyword loop returns the kind `IdentifierKind` gives |
| PastaToken.NameFromRow | libpasta/token.c:126-137 | the name found is the one paired with the kind in some row at or before a row that holds it |
| PastaToken.NameFromMissing | libpasta/token.c:136 | a kind in no row gives "<null>" |
| PastaToken.NameFromFirst | libpasta/token.c:130-135 | the search stops on the first row holding the kind |
| PastaToken.NoNullNames | libpasta/token.c:37-70 | no row of `tokens[]` is named "<null>" |
| PastaToken.EveryKindNamed | libpasta/token.c:126-137 | every declared kind gets the name its row pairs with it, never "<null>" |
| PastaToken.EofNamed | libpasta/token.c:37-38 | TOK_EOF is named "TOK_EOF" although the sentinel row also holds 0 |
| PastaToken.LastKindNamed | libpasta/token.c:69 | the last row, TOK_WITH, is still found before the sentinel |
| PastaToken.LowerCharChanges | libpasta/token.c:98-100 | exactly the letters 'A'..'Z' change, by 0x20, into 'a'..'z' |
| PastaToken.LowerIdempotent | libpasta/token.c:93-103 | lower-casing twice is lower-casing once |
| PastaToken.MatchIgnoresCase | libpasta/token.c:111-113 | `match_identifier` gives the same kind for a text and its lower-cased copy |
| PastaToken.KeywordKinds | libpasta/token.c:72-91 | the table holds 35 keywords, none paired with TOK_IDENTIFIER or TOK_EOF |
| PastaToken.KeywordsDistinct | libpasta/token.c:72-91 | no two keywords share a spelling, so the first match is the only one |
| PastaToken.KindFromCases | libpasta/token.c:115-123 | from row `i`, the search gives TOK_IDENTIFIER exactly when no later row is spelled like the text, and otherwise the kind of a row spelled like it |
| PastaToken.IdentifierKindCases | libpasta/token.c:105-124 | `match_identifier` gives TOK_IDENTIFIER exactly when the lower-cased text is no keyword, and otherwise that keyword's kind |
| PastaToken.KindFromFirst | libpasta/token.c:115-120 | the search returns the kind of the first row spelled like the text |
| PastaToken.MatchExamples | libpasta/token.c:72-124 | upper-case `BEGIN` is the keyword TOK_BEGIN |
| PastaScanner.Raw | libpasta/scanner.c:55 | `scanner->buffer[pos]`: the byte at `pos`, and NUL at or past the end, the terminator repl.c's buffer has (past `len` the C read is undefined) |
| PastaScanner.Signed | libpasta/scanner.c:39 | a `char` read as a signed byte, -128..127, congruent to the byte modulo 256 |
| PastaScanner.UntilChar | libpasta/scanner.c:63-68 | `scanner_consume_until_char` stops on the byte, never backwards, and inside the buffer unless the byte is NUL |
| PastaScanner.BracketClosed | libpasta/scanner.c:70-77 | a `{` comment ends past its start, within the buffer |
| PastaScanner.TrigraphClosed | libpasta/scanner.c:79-97 | a `(*` comment ends at least two bytes on, within the buffer |
| PastaScanner.NewlinesSkipped | libpasta/scanner.c:105-106 | the newline run ends on a byte that is no newline, within the buffer |
| PastaScanner.SlashCommentEnd | libpasta/scanner.c:99-107 | a `//` comment ends past its start, within the buffer |
| PastaScanner.CleanStep | libpasta/scanner.c:121-146 | one round of `scanner_clean` on a blank or a comment opener moves forward, within the buffer |
| PastaScanner.Cleaned | libpasta/scanner.c:112-148 | `scanner_clean` never moves back and stops on a significant byte, within the buffer |
| PastaScanner.Discarded | libpasta/scanner.c:150-155 | `scanner_discard` moves past one byte and then stops on a significant one |
| PastaScanner.DigitRun | libpasta/scanner.c:188-191 | the digit run ends on a byte that is no digit, within the buffer |
| PastaScanner.NumberLoop | libpasta/scanner.c:184-240 | the flag loop never shrinks the length and stays within the buffer |
| PastaScanner.FractionEnd | libpasta/scanner.c:194-209 | the fraction ends at or after the integer part, within the buffer |
| PastaScanner.ExponentEnd | libpasta/scanner.c:213-234 | the exponent ends at or after what precedes it, within the buffer |
| PastaScanner.NumberEnd | libpasta/scanner.c:177-252 | the number grammar ends at or after its start, within the buffer |
| PastaScanner.IdentRun | libpasta/scanner.c:263-268 | the identifier run ends on a byte that is no letter, digit or `_`, within the buffer |
| PastaScanner.QuoteAt | libpasta/scanner.c:303-307 | the next quote, inside the buffer; none when it is never closed |
| PastaScanner.StringEnd | libpasta/scanner.c:298-326 | a string ends at or after its start, within the buffer; none when a quote is never closed |
| PastaScanner.Init | libpasta/scanner.c:329-350 | `scanner_init` starts on line 1, column 1, at 0, or at 4 exactly when the buffer starts with the UTF-8 mark EF BB BF |
| PastaScanner.InitIntended | libpasta/scanner.c:341-346 | the corrected start: at 3, just past the three bytes of the mark, and at 0 without it |
| PastaScanner.Scanner.constructor | libpasta/scanner.c:329-350 | the scanner holds the buffer and stands where `Init` says |
| PastaScanner.Scanner.Peek | libpasta/scanner.c:32-40 | `scanner_peek`: the signed byte at the position, EOF past the end |
| PastaScanner.Scanner.PeekFar | libpasta/scanner.c:42-50 | `scanner_peekfar`: the same `offt` bytes on |
| PastaScanner.Scanner.Advance | libpasta/scanner.c:52-61 | `scanner_advance`: one byte on, to column 1 of the next line after a newline |
| PastaScanner.Scanner.ConsumeUntilChar | libpasta/scanner.c:63-68 | the cursor ends where `UntilChar` says |
| PastaScanner.Scanner.ConsumeUntilClosingBracket | libpasta/scanner.c:70-77 | the cursor ends where `BracketClosed` says |
| PastaScanner.Scanner.ConsumeUntilClosingTrigraph | libpasta/scanner.c:79-97 | the cursor ends where `TrigraphClosed` says, the `*)` counted as two columns |
| PastaScanner.Scanner.ConsumeSlashComment | libpasta/scanner.c:99-107 | the cursor ends where `SlashCommentEnd` says |
| PastaScanner.Scanner.Clean | libpasta/scanner.c:112-148 | the cursor ends where `Cleaned` says |
| PastaScanner.Scanner.Discard | libpasta/scanner.c:150-155 | the cursor ends where `Discarded` says |
| PastaScanner.Scanner.NumberLength | libpasta/scanner.c:179-240 | the length the flag loop computes is `NumberLoop` from the cursor |
| PastaScanner.Scanner.ReadAsNumber | libpasta/scanner.c:176-252 | `scanner_read_as_number` yields the DIGIT token with its text and moves as `NumberScan` says |
| PastaScanner.Scanner.IdentifierLength | libpasta/scanner.c:263-268 | the length reaches the end of `IdentRun`, over bytes that are not NUL |
| PastaScanner.Scanner.ReadAsIdentifier | libpasta/scanner.c:254-288 | `scanner_read_as_identifier` yields the token `IdentScan` gives: a keyword without text, or an identifier with it |
| PastaScanner.Scanner.QuoteLength | libpasta/scanner.c:303-307 | the inner loop of a quoted segment stops on the next quote |
| PastaScanner.Scanner.DigitsLength | libpasta/scanner.c:313-314 | the inner loop of a `#` segment stops at the end of the digit run |
| PastaScanner.Scanner.StringLength | libpasta/scanner.c:298-326 | the segment loop reaches the end `StringEnd` gives |
| PastaScanner.Scanner.ReadAsString | libpasta/scanner.c:290-327 | `scanner_read_as_string` yields the STRING token with its whole text, as `StringScan` says |
| PastaScanner.Scanner.OneByte | libpasta/scanner.c:370-373 | a one-byte token is recorded at the cursor, which then moves as `Discarded` says |
| PastaScanner.Scanner.TwoBytes | libpasta/scanner.c:383-387 | a two-byte token discards twice |
| PastaScanner.Scanner.NextPrefixed | libpasta/scanner.c:382-445 | the `:`, `.`, `>` and `<` cases choose the token `PrefixScan` gives from the byte after |
| PastaScanner.Scanner.Next | libpasta/scanner.c:358-487 | `scanner_next` yields the token `NextScan` gives and leaves the cursor where it says |
| PastaScannerFacts.PeekEof | libpasta/scanner.c:32-40 | the peek is EOF exactly past the end or on the byte 0xFF, and is the byte itself below 128 |
| PastaScannerFacts.CleanIdempotent | libpasta/scanner.c:109-111 | cleaning does not move off a significant byte, and cleaning twice is cleaning once |
| PastaScannerFacts.UntilCharFirst | libpasta/scanner.c:66-67 | the search stops at the first occurrence of the byte |
| PastaScannerFacts.BracketEndsAtFirstClose | libpasta/scanner.c:70-77 | a `{` comment ends just after the first `}`: comments do not nest |
| PastaScannerFacts.TrigraphEndsAtFirstClose | libpasta/scanner.c:79-97 | a `(*` comment ends just after the first `*)` |
| PastaScannerFacts.TrigraphSelfCloses | libpasta/scanner.c:140-144 | `(*)` is a whole comment: its `*` also closes it |
| PastaScannerFacts.NewlinesAllSkipped | libpasta/scanner.c:105-106 | every byte of the skipped run is a newline |
| PastaScannerFacts.SlashCommentEnds | libpasta/scanner.c:99-107 | a `//` comment ends after its first newline and every newline right after it |
| PastaScannerFacts.BracketsDoNotNest | libpasta/scanner.c:130-133 | after `{a{b}c}` the scanner stands on `c` |
| PastaScannerFacts.LinesAndColumns | libpasta/scanner.c:52-61 | a newline moves to column 1 of the next line, another blank one column on |
| PastaScannerFacts.SlashCommentLines | libpasta/scanner.c:99-107 | the newlines ending a `//` comment count as lines |
| PastaScannerFacts.DigitsPhase | libpasta/scanner.c:188-191 | the loop runs over digits without changing its state |
| PastaScannerFacts.StopsAfterExponent | libpasta/scanner.c:213 | once past the exponent mark the loop stops at the first non-digit |
| PastaScannerFacts.ExponentPhase | libpasta/scanner.c:213-234 | the loop over an exponent agrees with the grammar |
| PastaScannerFacts.AfterFraction | libpasta/scanner.c:194-234 | the loop after a fraction, or after a dot that starts none, agrees with the grammar |
| PastaScannerFacts.AfterInteger | libpasta/scanner.c:194-234 | the loop after the integer part, with a fraction, a dot that starts none or an exponent, agrees with the grammar |
| PastaScannerFacts.NumberGrammar | libpasta/scanner.c:184-240 | the flag loop reads exactly DIGITS [. DIGITS] [e|E [+|-] DIGITS] |
| PastaScannerFacts.NumberExamples | libpasta/scanner.c:184-240 | `3.14e-2` is read whole; a sign with no digit, or a dot with no digit, ends the number before them |
| PastaScannerFacts.NumberBeforeRange | libpasta/scanner.c:194-207 | `1..2` starts DIGIT("1"), then DOTDOT |
| PastaScannerFacts.NumberAfterRange | libpasta/scanner.c:400-405 | then DIGIT("2") and EOF |
| PastaScannerFacts.TwoByteOperatorsWin | libpasta/scanner.c:382-445 | `:=`, `..`, `>=`, `<=` and `<>` win over their one-byte prefixes and take both bytes |
| PastaScannerFacts.OneByteTokens | libpasta/scanner.c:369-474 | a one-byte token is recorded where it starts and consumes its byte |
| PastaScannerFacts.EofAtEnd | libpasta/scanner.c:365-367 | at the end the scanner yields EOF and stays put |
| PastaScannerFacts.UnrecognisedIsEof | libpasta/scanner.c:486 | a byte no case starts with also yields EOF, and is not consumed |
| PastaScannerFacts.UnrecognisedExamples | libpasta/scanner.c:486 | `!` and `}` are two such bytes |
| PastaScannerFacts.InitSkipsFirstByte | libpasta/scanner.c:341-346 | as written, after the mark the first text byte is skipped: `12` scans as `2` |
| PastaScannerFacts.InitIntendedKeepsText | libpasta/scanner.c:341-346 | the corrected start drops the mark and keeps every byte of the text |
| PastaScannerFacts.InitIntendedExample | libpasta/scanner.c:341-346 | with the corrected start, `12` after the mark scans whole |
| PastaScannerFacts.IdentRunAll | libpasta/scanner.c:263-268 | every byte of the run is a letter, digit or `_` |
| PastaScannerFacts.IdentScanMeta | libpasta/scanner.c:270-287 | the kind is `match_identifier` of the run; the token carries the text exactly when it is TOK_IDENTIFIER |
| PastaScannerFacts.KeywordScan | libpasta/scanner.c:276-281 | `BEGIN` scans as TOK_BEGIN without text |
| PastaScannerFacts.StringDoubledQuote | libpasta/scanner.c:301-310 | `'it''s'` is one string: the doubled quote starts a new segment |
| PastaScannerFacts.StringControlCodes | libpasta/scanner.c:311-315 | `#13#10` is a string of control codes |
| PastaScannerFacts.StringMixedSegments | libpasta/scanner.c:298-326 | quoted segments and control codes mix in one string |
| PastaScannerFacts.UnterminatedString | libpasta/scanner.c:303-307 | a quote never closed leaves no result |
| PastaScannerFacts.OnceProgress | libpasta/scanner.c:370-373 | a one-byte token moves past its byte |
| PastaScannerFacts.TwiceProgress | libpasta/scanner.c:383-387 | a two-byte token moves past both bytes |
| PastaScannerFacts.PrefixProgress | libpasta/scanner.c:382-445 | the prefixed operators move on, within the buffer |
| PastaScannerFacts.DispatchProgress | libpasta/scanner.c:369-484 | every dispatched token but EOF moves on, within the buffer |
| PastaScannerFacts.LexemeProgress | libpasta/scanner.c:476-484 | numbers, words and strings take at least their first byte |
| PastaScannerFacts.ScanProgress | libpasta/scanner.c:358-487 | every token but EOF moves the cursor forward, within the buffer, so scanning ends |
| PastaParser.TokenAt | libpasta/parser.c:208-212 | `parser_token` moves exactly one place on, and only within the array |
| PastaParser.TokenAtPeeks | libpasta/parser.c:192-212 | `parser_token` succeeds exactly where `parser_peek` does, and yields the same token |
| PastaParser.PeekFarWithin | libpasta/parser.c:198-206 | `parser_peek_far` succeeds exactly within the array, yields the token `offset` places on, and with offset 0 is `parser_peek` |
| PastaParser.ListLinksClose | libpasta/parser-simple-type.c:29-50 | closing collected list links with a closing literal gives the bracketed list the list loops build |
| PastaParser.Parser.constructor | libpasta/parser.c:125-133 | `parser_new`: no tokens, position 0 |
| PastaParser.Parser.Append | libpasta/parser.c:137-154 | `parser_append`: the new tokens after the old ones, in order |
| PastaParser.Parser.Peek | libpasta/parser.c:192-196 | `parser_peek`: the token at the position, which does not move |
| PastaParser.Parser.PeekFar | libpasta/parser.c:198-206 | `parser_peek_far`: the token `offset` on, else the error on the current token |
| PastaParser.Parser.Token | libpasta/parser.c:208-212 | `parser_token`: the token at the position, which moves on by one |
| PastaParserCommon.TokenExpect | libpasta/parser-common.c:24-34 | `parser_token_expect` succeeds exactly on a token of the kind, taking that one token; otherwise it is an error on the token found, or past the end |
| PastaParserCommon.ParseTokenExpect | libpasta/parser-common.c:24-34 | the method yields what `TokenExpect` gives and moves as it says |
| PastaParserCommon.IdListLoop | libpasta/parser-common.c:54-71 | the loop of `parser_identifier_list` takes at least one token and stays within the array |
| PastaParserCommon.IdentifierList | libpasta/parser-common.c:48-73 | `parser_identifier_list` takes at least one token and stays within the array |
| PastaParserCommon.ParseIdentifierList | libpasta/parser-common.c:48-73 | the loop yields what `IdentifierList` gives and moves as it says |
| PastaParserCommon.LoopOnForm | libpasta/parser-common.c:54-71 | on `n` identifiers separated by commas, the loop yields the UNARY chain of the collected and the new identifiers, in order, and stops after 2n-1 tokens |
| PastaParserCommon.FormOfLoop | libpasta/parser-common.c:54-71 | a successful loop read identifiers separated by commas, one more than the commas |
| PastaParserCommon.IdentifierListExact | libpasta/parser-common.c:36-73 | the list is accepted exactly when it has the form IDENT (, IDENT)*; it then takes 2n-1 tokens, stops before the first token after an identifier that is no comma, and yields one UNARY node per identifier, left to right |
| PastaParserCommon.DanglingComma | libpasta/parser-common.c:56 | a comma not followed by an identifier is an error on the token after it |
| PastaParserSimple.Identifier | libpasta/parser-simple.c:34-38 | `parser_identifier` succeeds exactly on an IDENTIFIER token, as a LITERAL of it taking one token; otherwise it is an error on the token found |
| PastaParserSimple.ParseIdentifier | libpasta/parser-simple.c:34-38 | the method yields what `Identifier` gives |
| PastaParserSimple.UnsignedNumber | libpasta/parser-simple.c:40-44 | `parser_unsigned_number` succeeds exactly on a DIGIT token, as a LITERAL of it taking one token; otherwise it is an error on the token found |
| PastaParserSimple.ParseUnsignedNumber | libpasta/parser-simple.c:40-44 | the method yields what `UnsignedNumber` gives |
| PastaParserSimple.ParseUnsignedInteger | libpasta/parser-simple.c:46-63 | the walk over the token's text yields what `UnsignedInteger` gives: an error at the first non-digit |
| PastaParserSimple.UnsignedIntegerExact | libpasta/parser-simple.c:46-63 | an unsigned integer is exactly a DIGIT token whose text is there and all digits; it then gives the same tree as an unsigned number, and every other token is an error on it |
| PastaParserSimple.IntegerExamples | libpasta/parser-simple.c:26-31 | `12` is an integer; `1.5` and `4e11` are numbers but not integers; a DIGIT token without text is no integer |
| PastaParserNumint.ParseUnsignedNumber | libpasta/parser-unsigned-numint.c:33-37 | the method yields what `UnsignedNumber` gives |
| PastaParserNumint.FirstNonDigit | libpasta/parser-unsigned-numint.c:49-53 | the first non-digit at or after `k`, within the text |
| PastaParserNumint.ParseUnsignedInteger | libpasta/parser-unsigned-numint.c:39-56 | the walk yields what `UnsignedInteger` gives |
| PastaParserNumint.FirstNonDigitAll | libpasta/parser-unsigned-numint.c:49-53 | the scan reaches the end exactly when every character from `k` on is a digit, and otherwise stops on a non-digit |
| PastaParserNumint.SameAsSimple | libpasta/parser-unsigned-numint.c:33-56 | both number functions agree with those of libpasta/parser-simple.c on every input |
| PastaParserNumint.NumintExamples | libpasta/parser-unsigned-numint.c:21-56 | a DIGIT token is a number; `12` is an integer, `1.5` and a token without text are not; any other token is an error on it |
| PastaParserConstant.UnsignedConstant | libpasta/parser-constant.c:28-41 | `parser_unsigned_constant` takes exactly one token |
| PastaParserConstant.ParseUnsignedConstant | libpasta/parser-constant.c:28-41 | the method yields what `UnsignedConstant` gives |
| PastaParserConstant.Constant | libpasta/parser-constant.c:52-87 | `parser_constant` takes at least one token, within the array |
| PastaParserConstant.ParseConstant | libpasta/parser-constant.c:52-87 | the method yields what `Constant` gives |
| PastaParserConstant.UnsignedConstantExact | libpasta/parser-constant.c:28-41 | succeeds exactly on STRING, NIL, DIGIT or IDENTIFIER, as a LITERAL; any other token is an error on it |
| PastaParserConstant.ConstantCases | libpasta/parser-constant.c:52-87 | without a sign it is the unsigned constant; a sign over an IDENTIFIER or DIGIT is UNARY(sign, LITERAL) over two tokens; a sign over anything else is an error on that token; any other first token is an error on it |
| PastaParserVariable.SuffixLoop | libpasta/parser-variable.c:35-74 | the suffix loop never moves back and stays within the array |
| PastaParserVariable.Variable | libpasta/parser-variable.c:20-78 | `parser_variable` takes at least the identifier, within the array |
| PastaParserVariable.ParseVariable | libpasta/parser-variable.c:20-78 | the loop yields what `Variable` gives and moves as it says |
| PastaParserVariable.NotIdentifier | libpasta/parser-variable.c:26-31 | a first token that is no identifier is an error on it |
| PastaParserVariable.NoSuffix | libpasta/parser-variable.c:34-72 | with no suffix only the identifier is taken, and the tree is a UNARY on the peeked token after it |
| PastaParserVariable.PointerAndIndexStep | libpasta/parser-variable.c:37-52 | `^` and `[` take the token at the position and dispatch on it next; `^` adds a UNARY node on it, `[` adds nothing |
| PastaParserVariable.FieldSuffix | libpasta/parser-variable.c:53-69 | `.` takes two tokens, the second an identifier or an error on it, and adds BINARY(_, _, LITERAL id) |
| PastaParserVariable.SwallowsFollowingToken | libpasta/parser-variable.c:37-46 | as written, `p^ := 1` takes the `:=` into the variable, and `x := 1` gives a tree on `:=` |
| PastaParserVariable.IntendedLoop | libpasta/parser-variable.c:35-74 | the corrected loop never moves back and stops before the end |
| PastaParserVariable.IntendedStops | libpasta/parser-variable.c:35-74 | the corrected loop stops, without taking it, at the first token that continues no suffix, and the root holds the identifier |
| PastaParserVariable.IntendedKeepsAssign | libpasta/parser-variable.c:20-78 | corrected, `p^ := 1` stops before `:=` and `x := 1` keeps `x` |
| PastaParserExpression.Expression | libpasta/parser-expression.c:11-34 | `parser_expression` takes at least one token, within the array |
| PastaParserExpression.RelationTail | libpasta/parser-expression.c:18-33 | the relational tail never moves back and stays within the array |
| PastaParserExpression.SimpleExpression | libpasta/parser-expression.c:36-71 | `parser_simple_expression` takes at least one token, within the array |
| PastaParserExpression.SignedSimpleExpression | libpasta/parser-expression.c:43-51 | the signed branch takes at least the sign, within the array |
| PastaParserExpression.AddingTail | libpasta/parser-expression.c:54-70 | the adding tail never moves back and stays within the array |
| PastaParserExpression.Term | libpasta/parser-expression.c:78-97 | `parser_term` takes at least one token, within the array |
| PastaParserExpression.MultiplyingTail | libpasta/parser-expression.c:85-96 | the multiplying tail never moves back and stays within the array |
| PastaParserExpression.Factor | libpasta/parser-expression.c:167-214 | `parser_factor` takes at least one token, within the array |
| PastaParserExpression.NotFactor | libpasta/parser-expression.c:197-200 | `not` takes at least itself |
| PastaParserExpression.ParenFactor | libpasta/parser-expression.c:201-205 | `( e )` takes at least the parenthesis |
| PastaParserExpression.IdentifierFactor | libpasta/parser-expression.c:175-191 | the identifier branch takes at least the identifier |
| PastaParserExpression.CallOrConstant | libpasta/parser-expression.c:176-190 | the choice on the token after the identifier takes at least the identifier |
| PastaParserExpression.IdExpressionList | libpasta/parser-expression.c:103-128 | an argument list takes at least its `(` |
| PastaParserExpression.ArgsLoop | libpasta/parser-expression.c:113-127 | the argument loop takes at least the closing token |
| PastaParserExpression.IdSet | libpasta/parser-expression.c:130-165 | a set takes at least its `[` |
| PastaParserExpression.SetLoop | libpasta/parser-expression.c:140-164 | the element loop, with its `..` check, takes at least the closing token |
| PastaParserExpression.SetSeparator | libpasta/parser-expression.c:151-163 | the separator switch takes at least the closing token |
| PastaParserExpression.ParseExpression | libpasta/parser-expression.c:11-34 | the method yields what `Expression` gives and moves as it says |
| PastaParserExpression.ParseRelationTail | libpasta/parser-expression.c:18-33 | the method yields what `RelationTail` gives |
| PastaParserExpression.ParseSimpleExpression | libpasta/parser-expression.c:36-71 | the method yields what `SimpleExpression` gives |
| PastaParserExpression.ParseSignedSimpleExpression | libpasta/parser-expression.c:43-51 | the method yields what `SignedSimpleExpression` gives |
| PastaParserExpression.ParseAddingTail | libpasta/parser-expression.c:54-70 | the method yields what `AddingTail` gives |
| PastaParserExpression.ParseTerm | libpasta/parser-expression.c:78-97 | the method yields what `Term` gives |
| PastaParserExpression.ParseMultiplyingTail | libpasta/parser-expression.c:85-96 | the method yields what `MultiplyingTail` gives |
| PastaParserExpression.ParseFactor | libpasta/parser-expression.c:167-214 | the method yields what `Factor` gives |
| PastaParserExpression.ParseNotFactor | libpasta/parser-expression.c:197-200 | the method yields what `NotFactor` gives |
| PastaParserExpression.ParseParenFactor | libpasta/parser-expression.c:201-205 | the method yields what `ParenFactor` gives |
| PastaParserExpression.ParseIdentifierFactor | libpasta/parser-expression.c:175-191 | the method yields what `IdentifierFactor` gives |
| PastaParserExpression.ParseCallOrConstant | libpasta/parser-expression.c:176-190 | the method yields what `CallOrConstant` gives |
| PastaParserExpression.ParseIdExpressionList | libpasta/parser-expression.c:103-128 | the loop yields what `IdExpressionList` gives |
| PastaParserExpression.ParseIdSet | libpasta/parser-expression.c:130-165 | the loop yields what `IdSet` gives |
| PastaParserExpressionFacts.TermHasShape | libpasta/parser-expression.c:78-97 | a term is multiplying BINARY nodes nested to the right, ending in a GROUPING of the last factor |
| PastaParserExpressionFacts.SimpleHasShape | libpasta/parser-expression.c:36-71 | a simple expression is a sign over a simple expression, or adding BINARY nodes over terms nested to the right, ending in a GROUPING of the last term |
| PastaParserExpressionFacts.SignedHasShape | libpasta/parser-expression.c:43-51 | the signed branch builds a simple expression of that shape |
| PastaParserExpressionFacts.AddingTailHasShape | libpasta/parser-expression.c:54-70 | the adding tail builds a simple expression of that shape |
| PastaParserExpressionFacts.ExpressionShape | libpasta/parser-expression.c:11-34 | an expression is a GROUPING of one simple expression or a relational BINARY of two: a relation never holds a relation |
| PastaParserExpressionFacts.ExpressionRelation | libpasta/parser-expression.c:17-33 | a relational operator after a simple expression gives their BINARY on it, and any other token gives a GROUPING and is left alone |
| PastaParserExpressionFacts.DoubleSign | libpasta/parser-expression.c:43-49 | two signs in a row are an error on the first |
| PastaParserExpressionFacts.LeadingSign | libpasta/parser-expression.c:43-51 | one sign gives a UNARY on it over the simple expression after it, which must parse |
| PastaParserExpressionFacts.SignAfterAddingOp | libpasta/parser-expression.c:56-64 | a sign right after an adding operator is an error on the operator |
| PastaParserExpressionFacts.FactorCases | libpasta/parser-expression.c:173-211 | DIGIT, NIL and STRING are LITERALs; `not` is a UNARY over the next factor; `[` is a set; any token no case names is an error on it |
| PastaParserExpressionFacts.ParenthesesVanish | libpasta/parser-expression.c:201-205 | `( e )` yields `e` itself, and a missing `)` is an error on the token found |
| PastaParserExpressionFacts.IdentifierCases | libpasta/parser-expression.c:175-191 | an identifier is a variable before `[`, `.` or `^`, a call before `(`, a LITERAL before anything else, and an error as the last token |
| PastaParserExpressionFacts.ArgsLoopShape | libpasta/parser-expression.c:113-127 | the argument loop closes its links into a bracketed list |
| PastaParserExpressionFacts.ArgumentListShape | libpasta/parser-expression.c:103-128 | an argument list is a BINARY chain rooted at `(`, on COMMA nodes, closed by a LITERAL of `)` |
| PastaParserExpressionFacts.ArgumentBadSeparator | libpasta/parser-expression.c:124-125 | after an argument, a token other than `,` or `)` is an error on it |
| PastaParserExpressionFacts.SetLoopShape | libpasta/parser-expression.c:140-164 | the set loop closes its links into a bracketed list |
| PastaParserExpressionFacts.SetSeparatorShape | libpasta/parser-expression.c:151-163 | the separator switch closes its links into a bracketed list |
| PastaParserExpressionFacts.SetShape | libpasta/parser-expression.c:130-165 | a set is a BINARY chain rooted at `[`, on COMMA nodes, closed by a LITERAL of `]` |
| PastaParserExpressionFacts.SetStart | libpasta/parser-expression.c:136-138 | a set starts with `[` over its first element |
| PastaParserExpressionFacts.SetRangeStep | libpasta/parser-expression.c:144-149 | `..` after an element makes it BINARY(DOTDOT, lo, hi) |
| PastaParserExpressionFacts.SetClose | libpasta/parser-expression.c:153-155 | `]` closes the set with a LITERAL of it |
| PastaParserExpressionFacts.SetCloseFirst | libpasta/parser-expression.c:153-155 | `]` after the first element closes a one-element set |
| PastaParserExpressionFacts.TermIntended | libpasta/parser-expression.c:73-77 | the left fold the comment describes takes at least one token, within the array |
| PastaParserExpressionFacts.TermIntendedLoop | libpasta/parser-expression.c:73-77 | the fold's loop never moves back and stays within the array |
| PastaParserExpressionFacts.TermStart | libpasta/parser-expression.c:84 | the code starts with a factor |
| PastaParserExpressionFacts.TermIntendedStart | libpasta/parser-expression.c:73-77 | the fold starts with a factor |
| PastaParserExpressionFacts.TermStop | libpasta/parser-expression.c:94-95 | the code stops before a non-multiplying token with a GROUPING |
| PastaParserExpressionFacts.TermIntendedStop | libpasta/parser-expression.c:73-77 | the fold stops there too, grouping only a lone factor |
| PastaParserExpressionFacts.TermStep | libpasta/parser-expression.c:87-93 | on an operator the code recurses into a whole term on the right |
| PastaParserExpressionFacts.TermIntendedStep | libpasta/parser-expression.c:73-77 | the fold takes one factor and goes on |
| PastaParserExpressionFacts.TermOneFactor | libpasta/parser-expression.c:74 | one factor: code and comment agree on GROUPING(f) |
| PastaParserExpressionFacts.TermTwoFactors | libpasta/parser-expression.c:75 | two factors: the code groups the right one, the comment does not |
| PastaParserExpressionFacts.TermNestsRight | libpasta/parser-expression.c:78-97 | as written, three factors nest to the right: `8 / 4 / 2` is 8 divided by 4/2 |
| PastaParserExpressionFacts.TermIntendedNestsLeft | libpasta/parser-expression.c:76 | as the comment shows, three factors nest to the left |
| PastaParserSimpleType.SimpleType | libpasta/parser-simple-type.c:19-73 | `parser_simple_type` takes at least one token, within the array |
| PastaParserSimpleType.Enumeration | libpasta/parser-simple-type.c:26-50 | an enumeration takes at least its `(` |
| PastaParserSimpleType.EnumLoop | libpasta/parser-simple-type.c:32-50 | the enumeration loop takes at least the closing token |
| PastaParserSimpleType.ConstantTail | libpasta/parser-simple-type.c:53-69 | what follows the constant never moves back and stays within the array |
| PastaParserSimpleType.Subrange | libpasta/parser-simple-type.c:54-59 | a subrange takes at least its `..` |
| PastaParserSimpleType.IndexedConstant | libpasta/parser-simple-type.c:60-65 | an indexed constant takes at least its `[` |
| PastaParserSimpleType.ParseSimpleType | libpasta/parser-simple-type.c:19-73 | the method yields what `SimpleType` gives and moves as it says |
| PastaParserSimpleType.ParseEnumeration | libpasta/parser-simple-type.c:26-50 | the loop yields what `Enumeration` gives |
| PastaParserSimpleType.ParseConstantTail | libpasta/parser-simple-type.c:53-69 | the method yields what `ConstantTail` gives |
| PastaParserSimpleType.ParseSubrange | libpasta/parser-simple-type.c:54-59 | the method yields what `Subrange` gives |
| PastaParserSimpleType.ParseIndexedConstant | libpasta/parser-simple-type.c:60-65 | the method yields what `IndexedConstant` gives |
| PastaParserSimpleType.ChainIdentifierLefts | libpasta/parser-simple-type.c:34-44 | links holding LITERAL identifiers close into a list holding them on every left |
| PastaParserSimpleType.EnumLoopShape | libpasta/parser-simple-type.c:32-50 | the loop closes its links into a bracketed list with a LITERAL identifier on each left |
| PastaParserSimpleType.EnumLoopStep | libpasta/parser-simple-type.c:41-44 | a comma and an identifier extend the links and keep their shape |
| PastaParserSimpleType.EnumerationShape | libpasta/parser-simple-type.c:26-50 | an enumeration is a BINARY chain rooted at `(`, on COMMA nodes each holding a LITERAL identifier, closed by a LITERAL of `)` |
| PastaParserSimpleType.EnumBadSeparator | libpasta/parser-simple-type.c:45-49 | after an identifier, a token other than `,` or `)` is an error on it |
| PastaParserSimpleType.SimpleTypeStart | libpasta/parser-simple-type.c:52 | a simple type not starting with `(` starts with a constant |
| PastaParserSimpleType.SubrangeExact | libpasta/parser-simple-type.c:54-59 | `c1 .. c2` is BINARY(DOTDOT, c1, c2) |
| PastaParserSimpleType.IndexedConstantExact | libpasta/parser-simple-type.c:60-65 | `c [ e ]` is BINARY(LBRACKET, c, e), and a missing `]` is an error on the token found |
| PastaParserSimpleType.LoneConstant | libpasta/parser-simple-type.c:66-69 | a constant followed by anything else is GROUPING(c), taking nothing after it |
| PastaParserType.Type | libpasta/parser-type.c:19-124 | `parser_type` takes at least one token, within the array |
| PastaParserType.PackedType | libpasta/parser-type.c:27-31 | `packed` takes at least itself |
| PastaParserType.PointerType | libpasta/parser-type.c:34-43 | `^ id` takes at least the `^` |
| PastaParserType.StructuredType | libpasta/parser-type.c:44-107 | a structured type takes at least its keyword |
| PastaParserType.ArrayType | libpasta/parser-type.c:44-75 | an array type takes at least `array` |
| PastaParserType.IndexList | libpasta/parser-type.c:49-71 | an index list takes at least its `[` |
| PastaParserType.IndexLoop | libpasta/parser-type.c:54-71 | the index loop takes at least the closing token |
| PastaParserType.FileType | libpasta/parser-type.c:76-86 | a file type takes at least `file` |
| PastaParserType.SetType | libpasta/parser-type.c:87-97 | a set type takes at least `set` |
| PastaParserType.RecordType | libpasta/parser-type.c:98-107 | a record type takes at least `record` |
| PastaParserType.FieldList | libpasta/parser-field-list.c:23-162 | `parser_field_list` takes at least one token, within the array |
| PastaParserType.FixedPart | libpasta/parser-field-list.c:31-70 | the fixed-line loop never moves back, and takes a token when it has no line yet |
| PastaParserType.FixedAfter | libpasta/parser-field-list.c:64-69 | after a line the loop never moves back |
| PastaParserType.FixedLine | libpasta/parser-field-list.c:43-54 | a fixed line takes at least one token |
| PastaParserType.CasePart | libpasta/parser-field-list.c:72-159 | the variant part never moves back, and takes a token when no line came before |
| PastaParserType.CaseSelector | libpasta/parser-field-list.c:75-118 | the selector takes at least `case` |
| PastaParserType.BranchLoop | libpasta/parser-field-list.c:135-148 | the branch loop never moves back |
| PastaParserType.Branch | libpasta/parser-field-list.c:190-206 | a branch takes at least one token |
| PastaParserType.ConstantList | libpasta/parser-field-list.c:164-188 | a constant list takes at least one token |
| PastaParserType.ConstantLoop | libpasta/parser-field-list.c:170-187 | the constant loop takes at least one token |
| PastaParserType.ParseType | libpasta/parser-type.c:19-124 | the method yields what `Type` gives and moves as it says |
| PastaParserType.ParsePackedType | libpasta/parser-type.c:27-31 | the method yields what `PackedType` gives |
| PastaParserType.ParsePointerType | libpasta/parser-type.c:34-43 | the method yields what `PointerType` gives |
| PastaParserType.ParseStructuredType | libpasta/parser-type.c:44-107 | the method yields what `StructuredType` gives |
| PastaParserType.ParseArrayType | libpasta/parser-type.c:44-75 | the method yields what `ArrayType` gives |
| PastaParserType.ParseIndexList | libpasta/parser-type.c:49-71 | the loop yields what `IndexList` gives |
| PastaParserType.ParseFileType | libpasta/parser-type.c:76-86 | the method yields what `FileType` gives |
| PastaParserType.ParseSetType | libpasta/parser-type.c:87-97 | the method yields what `SetType` gives |
| PastaParserType.ParseRecordType | libpasta/parser-type.c:98-107 | the method yields what `RecordType` gives |
| PastaParserType.ParseFieldList | libpasta/parser-field-list.c:23-162 | the loop yields what `FieldList` gives |
| PastaParserType.ParseFixedTurn | libpasta/parser-field-list.c:33-69 | one turn of the fixed-line loop: an error or the finished list is what the whole loop gives, and otherwise it moved on and the rest of the loop gives the same |
| PastaParserType.FixedPartLine | libpasta/parser-field-list.c:44-62 | a line is appended to the chain and the loop goes on after it |
| PastaParserType.ParseFixedLine | libpasta/parser-field-list.c:43-54 | the method yields what `FixedLine` gives |
| PastaParserType.ParseCasePart | libpasta/parser-field-list.c:72-159 | the method yields what `CasePart` gives |
| PastaParserType.ParseBranchLoop | libpasta/parser-field-list.c:135-148 | the loop yields what `BranchLoop` gives |
| PastaParserType.BranchSemicolon | libpasta/parser-field-list.c:143-147 | after a semicolon a branch must follow; it is appended and the loop goes on |
| PastaParserType.ParseCaseSelector | libpasta/parser-field-list.c:75-118 | the method yields what `CaseSelector` gives |
| PastaParserType.ParseBranch | libpasta/parser-field-list.c:190-206 | the method yields what `Branch` gives |
| PastaParserType.ParseConstantList | libpasta/parser-field-list.c:164-188 | the loop yields what `ConstantList` gives |
| PastaParserTypeFacts.PackedWraps | libpasta/parser-type.c:118-121 | `packed` before a structured type wraps it in a UNARY on `packed` |
| PastaParserTypeFacts.PackedRejects | libpasta/parser-type.c:35-39 | `packed` before anything but `array`, `file`, `set` or `record` is an error on that token |
| PastaParserTypeFacts.PointerExact | libpasta/parser-type.c:34-43 | `^ id` is UNARY(CARET, LITERAL id), and succeeds exactly when an identifier follows |
| PastaParserTypeFacts.ArrayExact | libpasta/parser-type.c:44-75 | `array [ ... ] of T` is BINARY(ARRAY, index list, T) |
| PastaParserTypeFacts.ArrayNeedsOf | libpasta/parser-type.c:73 | without `of` after the index list it is an error on the token found |
| PastaParserTypeFacts.IndexLoopShape | libpasta/parser-type.c:54-71 | the index loop closes its links into a bracketed list |
| PastaParserTypeFacts.IndexLoopStep | libpasta/parser-type.c:58-61 | a comma and a simple type extend the links and keep their shape |
| PastaParserTypeFacts.IndexListShape | libpasta/parser-type.c:49-71 | the index list is a BINARY chain rooted at `[`, on COMMA nodes, closed by a LITERAL of `]` |
| PastaParserTypeFacts.IndexBadSeparator | libpasta/parser-type.c:65-70 | after a simple type, a token other than `,` or `]` is an error on it |
| PastaParserTypeFacts.FileExact | libpasta/parser-type.c:76-86 | `file of T` is UNARY(FILE, T), T any type |
| PastaParserTypeFacts.SetExact | libpasta/parser-type.c:87-97 | `set of S` is UNARY(SET, S), S a simple type |
| PastaParserTypeFacts.FileSetNeedOf | libpasta/parser-type.c:76-97 | `file` and `set` need `of` right after them |
| PastaParserTypeFacts.RecordExact | libpasta/parser-type.c:98-107 | `record F end` is UNARY(RECORD, F) |
| PastaParserTypeFacts.RecordNeedsEnd | libpasta/parser-type.c:106 | a record must be closed by `end` |
| PastaParserTypeFacts.TypeFallsThrough | libpasta/parser-type.c:108-115 | any other start is a simple type |
| PastaParserTypeFacts.FixedLineExact | libpasta/parser-field-list.c:43-54 | a fixed line `ids : T` is BINARY(colon, ids, T) |
| PastaParserTypeFacts.FixedLineNeedsColon | libpasta/parser-field-list.c:45-50 | a fixed line needs a colon after its identifiers |
| PastaParserTypeFacts.LineWithoutSemicolon | libpasta/parser-field-list.c:64-68 | a line not followed by `;` ends the list there, with no variant part looked for |
| PastaParserTypeFacts.EmptyFieldList | libpasta/parser-field-list.c:151-159 | neither a line nor `case` is an error on the first token |
| PastaParserTypeFacts.FixedPartShape | libpasta/parser-field-list.c:31-70 | the fixed part yields a non-empty chain of tokenless BINARY nodes beginning with the lines already collected, in order |
| PastaParserTypeFacts.FixedAfterShape | libpasta/parser-field-list.c:64-69 | after a line the chain keeps its shape and its items |
| PastaParserTypeFacts.CasePartShape | libpasta/parser-field-list.c:72-159 | the variant part adds the selector and at least one branch to the chain; without `case` it closes the lines so far |
| PastaParserTypeFacts.BranchLoopShape | libpasta/parser-field-list.c:135-148 | each branch after a semicolon is appended to the same chain |
| PastaParserTypeFacts.FieldListShape | libpasta/parser-field-list.c:23-162 | a field list is a non-empty chain of tokenless BINARY nodes ending in null; one starting with `case` holds the selector and a branch |
| PastaParserTypeFacts.SelectorPlain | libpasta/parser-field-list.c:92-94 | `case t of` is UNARY(OF, LITERAL t) |
| PastaParserTypeFacts.SelectorTagged | libpasta/parser-field-list.c:95-113 | `case x : t of` is BINARY(OF, LITERAL t, LITERAL x) |
| PastaParserTypeFacts.SelectorErrors | libpasta/parser-field-list.c:82-118 | every other selector is an error, on the token the code reports: the token after `case`, the first identifier, the token after the colon, or the second identifier when `of` is missing |
| PastaParserTypeFacts.BranchExact | libpasta/parser-field-list.c:190-206 | a branch `c (, c)* : ( F )` is BINARY(colon, constants, F) |
| PastaParserTypeFacts.BranchNeedsColon | libpasta/parser-field-list.c:197-200 | a branch needs a colon after its constants |
| PastaParserTypeFacts.ConstantLoopStep | libpasta/parser-field-list.c:181-186 | a constant followed by a comma is chained before the next one |
| PastaParserTypeFacts.ConstantLoopShape | libpasta/parser-field-list.c:170-187 | the constant loop yields a chain of tokenless BINARY nodes holding the constants before, in order, and at least one more |
| PastaParserTypeFacts.ConstantListShape | libpasta/parser-field-list.c:164-188 | a constant list is a chain of tokenless BINARY nodes whose first item is the first constant |
| PastaParserParameterList.ParameterList | libpasta/parser-parameter-list.c:84-95 | `parser_parameter_list` never moves back and stays within the array |
| PastaParserParameterList.GroupList | libpasta/parser-parameter-list.c:98-136 | a non-empty list takes at least its `(` |
| PastaParserParameterList.GroupLoop | libpasta/parser-parameter-list.c:107-134 | the group loop takes at least the closing token |
| PastaParserParameterList.IdTypeBlock | libpasta/parser-parameter-list.c:139-156 | a group takes at least one token |
| PastaParserParameterList.GroupType | libpasta/parser-parameter-list.c:148-149 | `: id` succeeds exactly when a colon and an identifier follow, yields that identifier, and otherwise fails on the first token that is wrong |
| PastaParserParameterList.ParseParameterList | libpasta/parser-parameter-list.c:84-95 | the method yields what `ParameterList` gives and moves as it says |
| PastaParserParameterList.ParseGroupList | libpasta/parser-parameter-list.c:98-136 | the loop yields what `GroupList` gives |
| PastaParserParameterList.ParseIdTypeBlock | libpasta/parser-parameter-list.c:139-156 | the method yields what `IdTypeBlock` gives |
| PastaParserParameterList.ParseGroupType | libpasta/parser-parameter-list.c:148-149 | the method yields what `GroupType` gives |
| PastaParserParameterList.IdTypeBlockExact | libpasta/parser-parameter-list.c:145-155 | a group is UNARY(type, ids) without `var` and BINARY(type, LITERAL(VAR), ids) with it |
| PastaParserParameterList.IdTypeBlockShape | libpasta/parser-parameter-list.c:62-64 | every group that parses is rooted at its type identifier, in one of those two forms |
| PastaParserParameterList.GroupTypeNotIdentifier | libpasta/parser-parameter-list.c:149 | a non-identifier after the colon is an error on that token |
| PastaParserParameterList.NoParameters | libpasta/parser-parameter-list.c:84-95 | without `(`, or with `()`, the result is null and nothing is consumed |
| PastaParserParameterList.NullMeansNoParameters | libpasta/parser-parameter-list.c:19-22 | conversely, a null result or one that consumes nothing comes only from those two forms |
| PastaParserParameterList.GroupBadSeparator | libpasta/parser-parameter-list.c:126-128 | after a group, a token other than `;` or `)` is an error on it |
| PastaParserParameterList.GroupLoopStep | libpasta/parser-parameter-list.c:130-133 | a group then `;` extends the chain on the carried token, and the `;` is carried to the next node |
| PastaParserParameterList.GroupLoopShape | libpasta/parser-parameter-list.c:107-134 | the loop closes a bracketed list whose items are all groups, the collected ones first |
| PastaParserParameterList.GroupListShape | libpasta/parser-parameter-list.c:28-53 | a non-empty list is BINARY(LPAREN, group, ...), later groups rooted at their semicolons, the last right child LITERAL(RPAREN), every item a group |
| PastaParserParameterList.GroupLinksAdd | libpasta/parser-parameter-list.c:112-118 | a group on the carried token extends the links and keeps their form |
| PastaParserParameterList.GroupLinksClose | libpasta/parser-parameter-list.c:122-125 | closing the links with `)` gives a bracketed list of groups |
| PastaParserStatement.LabelEnd | libpasta/parser-statement.c:32-68 | a label is two tokens, `IDENT :` or `DIGIT :`; otherwise the statement starts where it is |
| PastaParserStatement.Statement | libpasta/parser-statement.c:27-50 | `parser_statement` never moves back and stays within the array |
| PastaParserStatement.UnlabelledStatement | libpasta/parser-statement.c:38-49 | the switch after the label never moves back |
| PastaParserStatement.AssignmentOrProcedure | libpasta/parser-statement.c:70-85 | an assignment or a call takes at least the identifier |
| PastaParserStatement.Assignment | libpasta/parser-statement.c:87-94 | an assignment takes at least one token |
| PastaParserStatement.Procedure | libpasta/parser-statement.c:96-107 | a call takes at least the identifier |
| PastaParserStatement.Arguments | libpasta/parser-statement.c:109-135 | the arguments take at least the `(` |
| PastaParserStatement.ArgumentsLoop | libpasta/parser-statement.c:118-134 | the argument loop takes at least the closing token |
| PastaParserStatement.Begin | libpasta/parser-statement.c:137-160 | a compound statement takes at least `begin` |
| PastaParserStatement.BeginLoop | libpasta/parser-statement.c:145-159 | the statement loop takes at least the closing token |
| PastaParserStatement.ParseStatement | libpasta/parser-statement.c:27-50 | the method yields what `Statement` gives and moves as it says |
| PastaParserStatement.ParseUnlabelledStatement | libpasta/parser-statement.c:38-49 | the method yields what `UnlabelledStatement` gives |
| PastaParserStatement.ParseAssignmentOrProcedure | libpasta/parser-statement.c:70-85 | the method yields what `AssignmentOrProcedure` gives |
| PastaParserStatement.ParseAssignment | libpasta/parser-statement.c:87-94 | the method yields what `Assignment` gives |
| PastaParserStatement.ParseProcedure | libpasta/parser-statement.c:96-107 | the method yields what `Procedure` gives |
| PastaParserStatement.ParseArguments | libpasta/parser-statement.c:109-135 | the loop yields what `Arguments` gives |
| PastaParserStatement.ParseBegin | libpasta/parser-statement.c:137-160 | the loop yields what `Begin` gives |
| PastaParserStatementFacts.LabelDropped | libpasta/parser-statement.c:32-36 | a leading `IDENT :` or `DIGIT :` is dropped and the statement is the one after it; anything else leaves the position alone |
| PastaParserStatementFacts.EmptyStatement | libpasta/parser-statement.c:44-46 | END or SEMICOLON at the start is the empty statement: null, nothing consumed |
| PastaParserStatementFacts.BadStart | libpasta/parser-statement.c:47-48 | any other start, and a number that is not a label, is an error on the first token |
| PastaParserStatementFacts.AssignmentExact | libpasta/parser-statement.c:87-94 | an identifier before `[`, `.`, `^` or `:=` starts BINARY(ASSIGN, variable, expression) |
| PastaParserStatementFacts.PlainAssignment | libpasta/parser-statement.c:87-94 | as written, `x := e` stores UNARY(:=) as its variable |
| PastaParserStatementFacts.PointerAssignmentRejected | libpasta/parser-statement.c:90-91 | as written, `p^ := 1` is rejected: the variable takes the `:=`, and the assignment then fails on the number |
| PastaParserStatementFacts.ProcedureExact | libpasta/parser-statement.c:96-107 | an identifier before anything else is a call: the LITERAL alone, or BINARY(LPAREN, LITERAL, arguments), or the arguments' error |
| PastaParserStatementFacts.ArgumentsLoopAgree | libpasta/parser-statement.c:118-134 | the argument loop of a call takes the same path as the one of `factor_id_expression_list` |
| PastaParserStatementFacts.ArgumentsAgree | libpasta/parser-statement.c:109-135 | a call's arguments parse exactly as an argument list inside an expression |
| PastaParserStatementFacts.ArgumentsShape | libpasta/parser-statement.c:109-135 | the arguments are a BINARY chain rooted at `(`, on COMMA nodes, closed by LITERAL(RPAREN) |
| PastaParserStatementFacts.ArgumentsBadSeparator | libpasta/parser-statement.c:131-132 | after an argument, a token other than `,` or `)` is an error on it |
| PastaParserStatementFacts.BeginLoopShape | libpasta/parser-statement.c:145-159 | the statement loop closes a BINARY chain on SEMICOLON nodes ending in LITERAL(END) |
| PastaParserStatementFacts.BeginShape | libpasta/parser-statement.c:137-160 | a compound statement is a BINARY chain rooted at BEGIN, on SEMICOLON nodes, closed by LITERAL(END) |
| PastaParserStatementFacts.EmptyCompound | libpasta/parser-statement.c:137-160 | `begin end` holds one empty statement |
| PastaParserStatementFacts.BeginBadSeparator | libpasta/parser-statement.c:156-157 | after a statement, a token other than `;` or END is an error on it |
| PastaParserBlock.Block | libpasta/parser-block.c:17-56 | `parser_block` takes at least one token, within the array |
| PastaParserBlock.BlockLoop | libpasta/parser-block.c:25-55 | the part loop takes at least one token |
| PastaParserBlock.BlockPart | libpasta/parser-block.c:27-50 | a part other than BEGIN takes at least one token |
| PastaParserBlock.SectionBlock | libpasta/parser-block.c:84-108 | a CONST, TYPE or VAR section takes at least its keyword |
| PastaParserBlock.SectionLoop | libpasta/parser-block.c:94-107 | the declaration loop takes at least one token |
| PastaParserBlock.Declaration | libpasta/parser-block.c:110-196 | a declaration takes at least one token |
| PastaParserBlock.ConstDeclaration | libpasta/parser-block.c:110-120 | `id = c` takes at least one token |
| PastaParserBlock.TypeDeclaration | libpasta/parser-block.c:148-158 | `id = T` takes at least one token |
| PastaParserBlock.VarDeclaration | libpasta/parser-block.c:186-196 | `ids : T` takes at least one token |
| PastaParserBlock.FunctionProc | libpasta/parser-block.c:198-221 | a routine takes at least its keyword |
| PastaParserBlock.RoutineBody | libpasta/parser-block.c:216-220 | `; block ;` takes at least one token |
| PastaParserBlock.ReturnType | libpasta/parser-block.c:210-214 | a procedure takes no return type and nothing is consumed; a function's never moves back |
| PastaParserBlock.BeginBlock | libpasta/parser-block.c:223-250 | the compound part takes at least `begin` |
| PastaParserBlock.BeginBlockLoop | libpasta/parser-block.c:233-249 | the statement loop takes at least the closing token |
| PastaParserBlock.ParseBlock | libpasta/parser-block.c:17-56 | the loop yields what `Block` gives and moves as it says |
| PastaParserBlock.ParseBlockPart | libpasta/parser-block.c:27-50 | the method yields what `BlockPart` gives |
| PastaParserBlock.ParseSectionBlock | libpasta/parser-block.c:84-108 | the loop yields what `SectionBlock` gives |
| PastaParserBlock.ParseDeclaration | libpasta/parser-block.c:110-196 | the method yields what `Declaration` gives |
| PastaParserBlock.ParseFunctionProc | libpasta/parser-block.c:198-221 | the method yields what `FunctionProc` gives |
| PastaParserBlock.ParseBeginBlock | libpasta/parser-block.c:223-250 | the loop yields what `BeginBlock` gives |
| PastaParserBlockFacts.ChainNullTail | libpasta/parser-block.c:94-107 | links on one separator closed with null form a spine of BINARY nodes on it ending in null |
| PastaParserBlockFacts.DeclarationNode | libpasta/parser-block.c:110-196 | each declaration is rooted by `:` for VAR and by `=` otherwise, naming one identifier outside VAR |
| PastaParserBlockFacts.ConstDeclarationExact | libpasta/parser-block.c:110-120 | `id = c` is BINARY(=, LITERAL id, constant) |
| PastaParserBlockFacts.TypeDeclarationExact | libpasta/parser-block.c:148-158 | `id = T` is BINARY(=, LITERAL id, type) |
| PastaParserBlockFacts.VarDeclarationExact | libpasta/parser-block.c:186-196 | `ids : T` is BINARY(:, identifier list, type) |
| PastaParserBlockFacts.SectionMissingSemicolon | libpasta/parser-block.c:96 | a declaration not followed by `;` is an error on the token there |
| PastaParserBlockFacts.SectionStep | libpasta/parser-block.c:98-106 | after a declaration and its `;`, a prologue kind ends the section without being taken; anything else starts the next declaration on a node of that `;` |
| PastaParserBlockFacts.SectionLinksAdd | libpasta/parser-block.c:104-106 | adding a declaration and carrying its `;` keeps the collected links in form |
| PastaParserBlockFacts.SectionLinksClose | libpasta/parser-block.c:100-101 | closing the links and a last declaration with null gives a section shape |
| PastaParserBlockFacts.SectionLoopShape | libpasta/parser-block.c:94-107 | the section loop closes a section shape and stops on a prologue kind |
| PastaParserBlockFacts.SectionBlockShape | libpasta/parser-block.c:67-108 | a section is BINARY on its keyword with SEMICOLON nodes ending in null, a declaration of its form on each, and the token after it is of a prologue kind |
| PastaParserBlockFacts.RoutineBodyExact | libpasta/parser-block.c:216-220 | `; block ;` gives BINARY(keyword, prototype, block) |
| PastaParserBlockFacts.ProcedureDeclarationExact | libpasta/parser-block.c:198-221 | `procedure id params ; block ;` is BINARY(PROCEDURE, BINARY(id, params, null), block) |
| PastaParserBlockFacts.FunctionDeclarationExact | libpasta/parser-block.c:198-221 | `function id params : T ; block ;` is BINARY(FUNCTION, BINARY(id, params, T), block) |
| PastaParserBlockFacts.ReturnTypeByKeyword | libpasta/parser-block.c:210-216 | a function without `:` and a procedure with one are both errors on the token there |
| PastaParserBlockFacts.BlockBadStart | libpasta/parser-block.c:44-49 | a token that opens no part, EOF among them, is an error on it |
| PastaParserBlockFacts.BlockPartRoot | libpasta/parser-block.c:27-40 | a part other than BEGIN starts with CONST, TYPE, VAR, FUNCTION or PROCEDURE and is BINARY on a token of that kind |
| PastaParserBlockFacts.FunctionProcRoot | libpasta/parser-block.c:198-221 | a routine is BINARY on its keyword |
| PastaParserBlockFacts.BeginBlockLoopShape | libpasta/parser-block.c:233-249 | the statement loop closes a UNARY root on BEGIN with a SEMICOLON spine ending in null, right after the END it takes |
| PastaParserBlockFacts.BeginBlockShape | libpasta/parser-block.c:223-250 | the compound part is UNARY on its BEGIN with SEMICOLON nodes after it, stores no END, and ends right after the END |
| PastaParserBlockFacts.ChainNewSemi | libpasta/parser-block.c:53-54 | links on `newsemi` tokens closed with null form a `newsemi` spine |
| PastaParserBlockFacts.BlockLoopShape | libpasta/parser-block.c:25-55 | the part loop closes a non-empty `newsemi` spine whose last node holds the compound part and whose earlier nodes hold sections and routines |
| PastaParserBlockFacts.BlockShape | libpasta/parser-block.c:17-56 | a block is that spine, and the token before its end is END |
| PastaParserBlockFacts.EmptyBlockExact | libpasta/parser-block.c:41-43 | `begin end` alone is BINARY(newsemi, UNARY(BEGIN, null), null) |
| PastaParserProgram.Program | libpasta/parser-program.c:6-19 | `parser_program` takes at least `program`, within the array |
| PastaParserProgram.ProgIdent | libpasta/parser-program.c:21-35 | the program's name takes at least the identifier |
| PastaParserProgram.ParamChain | libpasta/parser-program.c:44-52 | the parameter chain is rooted at the first identifier |
| PastaParserProgram.ProgParam | libpasta/parser-program.c:37-67 | the parameters take at least the `(` |
| PastaParserProgram.ProgParamLoop | libpasta/parser-program.c:44-66 | the parameter loop takes at least one token |
| PastaParserProgram.ParseProgram | libpasta/parser-program.c:6-19 | the method yields what `Program` gives and moves as it says |
| PastaParserProgram.ParseProgIdent | libpasta/parser-program.c:21-35 | the method yields what `ProgIdent` gives |
| PastaParserProgram.ParseProgParam | libpasta/parser-program.c:37-67 | the loop yields what `ProgParam` gives |
| PastaParserProgram.ParamChainOrder | libpasta/parser-program.c:44-52 | the chain's left spine holds the identifiers in order, each earlier one UNARY and the last a LITERAL, none with a right child |
| PastaParserProgram.LeftSpine | libpasta/parser-program.c:49-51 | the left spine of a node holds only nodes |
| PastaParserProgram.ProgramExact | libpasta/parser-program.c:6-19 | `program id ; block .` is BINARY(PROGRAM, LITERAL id, block), and a missing `.` is an error on the token there |
| PastaParserProgram.ProgIdentWithParams | libpasta/parser-program.c:28-33 | with a `(` after it, the name is promoted to UNARY over the parameter chain |
| PastaParserProgram.ProgParamBadSeparator | libpasta/parser-program.c:63-64 | after a parameter, a token other than `,` or `)` is an error on it |
| PastaParserProgram.ProgParamLoopOnForm | libpasta/parser-program.c:44-66 | `id (, id)* )` with `n` names gives the chain over them, after the names already taken |
| PastaParserProgram.ProgParamOrder | libpasta/parser-program.c:37-67 | a parameter list keeps its `n` identifiers in source order |
| PastaParserProgram.NamesAt | libpasta/parser-program.c:44-66 | the `k`-th parameter is the token `2k` after the first |
| PastaParserLoad.ScanAllStep | libpasta/parser.c:163-176 | each token loaded is the one `scanner_next` yields at the scanner's cursor, and after a token other than TOK_EOF the rest come from the new cursor |
| PastaParserLoad.ScanAllEndsAtEof | libpasta/parser.c:176 | the tokens loaded end with the first TOK_EOF, and no earlier token is TOK_EOF |
| PastaParserLoad.LoadOne | libpasta/parser.c:164 | one `scanner_next` yields the head of the tokens still to load and leaves the rest pending |
| PastaParserLoad.Stage | libpasta/parser.c:165-175 | storing a token in the 64-slot buffer, flushed to the parser when it fills, keeps parser tokens plus buffer equal to the old ones plus the token |
| PastaParserLoad.LoadTokens | libpasta/parser.c:156-180 | the parser ends holding its old tokens followed by every token the scanner yields up to and including the first TOK_EOF, in order |
| LegacyParser.TokenAt | parser.c:140-144 | `parser_token` succeeds exactly when a token is left, and yields it with the position after it |
| LegacyParser.Identifier | parser.c:146-156 | succeeds exactly on an identifier, as its LITERAL, taking one token; otherwise an error on that token |
| LegacyParser.UnsignedInteger | parser.c:158-166 | succeeds exactly on a DIGIT, as its LITERAL, taking one token; otherwise an error on that token |
| LegacyParser.Consume | parser.c:168-175 | succeeds exactly on a token of the kind asked for, taking it; otherwise an error on that token |
| LegacyParser.UnsignedNumber | parser.c:177-202 | the number takes at least its integer part, within the array |
| LegacyParser.FractionPart | parser.c:185-188 | `. DIGIT` takes exactly two tokens, which are the fraction |
| LegacyParser.ExponentPart | parser.c:190-202 | the exponent takes at least the marker and the digits |
| LegacyParser.Parser.constructor | parser.c:49-57 | a new parser has no tokens and is at position 0 |
| LegacyParser.Parser.Append | parser.c:61-78 | the new tokens follow the old ones, in order |
| LegacyParser.Parser.Peek | parser.c:134-138 | the token at the position, the position unchanged |
| LegacyParser.Parser.Token | parser.c:140-144 | the token at the position, the position moved past it |
| LegacyParser.ParseIdentifier | parser.c:146-156 | the method yields what `Identifier` gives and moves as it says |
| LegacyParser.ParseUnsignedInteger | parser.c:158-166 | the method yields what `UnsignedInteger` gives |
| LegacyParser.ParseConsume | parser.c:168-175 | the method succeeds exactly when `Consume` does, at the position it gives, with the same error otherwise |
| LegacyParser.ParseUnsignedNumber | parser.c:177-202 | the method yields what `UnsignedNumber` gives |
| LegacyParser.ParseFractionPart | parser.c:185-188 | the method yields what `FractionPart` gives |
| LegacyParser.ParseExponentPart | parser.c:190-202 | the method yields what `ExponentPart` gives |
| LegacyParser.ListLinksClose | lib/parser-parameter-list.c:34-46 | list links closed by a literal form a bracketed list |
| LegacyParser.ChainIsListTail | lib/parser-parameter-list.c:38-46 | links on separator tokens closed by a literal form a list tail |
| LegacyParserFacts.ExponentSound | parser.c:190-202 | the exponent part reads exactly the tokens it spells |
| LegacyParserFacts.NumberSound | parser.c:177-202 | a successful walk reads a well-formed number DIGIT [DOT DIGIT] [e/E [+/-] DIGIT], exactly its tokens, and stops where the number ends |
| LegacyParserFacts.NumberComplete | parser.c:177-202 | every well-formed number followed by a token that ends it is read back whole, consuming exactly its tokens |
| LegacyParserFacts.ScientificExample | parser.c:177-202 | `1.5e-3` is read with its fraction and its signed exponent |
| LegacyParserFacts.MarkerTextExample | parser.c:191-192 | only the one-letter texts `e` and `E` start an exponent: after `1`, `ex` ends the number |
| LegacyParserFacts.ExponentNeedsDigits | parser.c:195-201 | a sign after the marker without digits is an error on what follows |
| LegacyParameterList.ParameterList | lib/parser-parameter-list.c:8-20 | `parser_parameter_list` never moves back and stays within the array |
| LegacyParameterList.GroupList | lib/parser-parameter-list.c:22-55 | a list takes at least its `(` |
| LegacyParameterList.GroupLoop | lib/parser-parameter-list.c:31-52 | the group loop takes at least the closing token |
| LegacyParameterList.IdTypeBlock | lib/parser-parameter-list.c:57-79 | a group takes at least one token |
| LegacyParameterList.ParseIdList | lib/parser-parameter-list.c:69 | the call yields what the identifier-list parser gives |
| LegacyParameterList.ParseParameterList | lib/parser-parameter-list.c:8-20 | the method yields what `ParameterList` gives and moves as it says |
| LegacyParameterList.ParseGroupList | lib/parser-parameter-list.c:22-55 | the loop yields what `GroupList` gives |
| LegacyParameterList.ParseIdTypeBlock | lib/parser-parameter-list.c:57-79 | the method yields what `IdTypeBlock` gives |
| LegacyParameterList.NoList | lib/parser-parameter-list.c:14-19 | without a `(` the result is null and nothing is consumed |
| LegacyParameterList.LParenStartsList | lib/parser-parameter-list.c:8-20 | any `(`, `()` included, starts a list, which is then never null and always consumes tokens; conversely a null result or one consuming nothing means there was no `(` |
| LegacyParameterList.EmptyParensNotSpecial | lib/parser-parameter-list.c:28-32 | `()` is read as a list whose first group starts at the `)`, so it fails when the identifier list does there |
| LegacyParameterList.IdTypeBlockExact | lib/parser-parameter-list.c:57-79 | a group is BINARY(type, LITERAL(VAR), ids) with `var` and BINARY(type, null, ids) without |
| LegacyParameterList.IdTypeBlockShape | lib/parser-parameter-list.c:57-79 | every group that parses is rooted at its type identifier, in one of those two forms |
| LegacyParameterList.MissingColon | lib/parser-parameter-list.c:72 | a token other than `:` after the identifiers is an error on it |
| LegacyParameterList.TypeNotIdentifier | lib/parser-parameter-list.c:73-76 | a non-identifier after the colon is an error on that token |
| LegacyParameterList.GroupBadSeparator | lib/parser-parameter-list.c:47-51 | after a group, a token other than `;` or `)` is an error on it |
| LegacyParameterList.GroupLoopStep | lib/parser-parameter-list.c:34-51 | a group then `;` extends the chain on the carried token, and the `;` is carried |
| LegacyParameterList.GroupLinksAdd | lib/parser-parameter-list.c:37-40 | a group on the carried token extends the links and keeps their form |
| LegacyParameterList.GroupLinksClose | lib/parser-parameter-list.c:44-46 | closing the links with `)` gives a bracketed list of groups |
| LegacyParameterList.GroupLoopShape | lib/parser-parameter-list.c:31-52 | the loop closes a bracketed list whose items are all groups, the collected ones first |
| LegacyParameterList.GroupListShape | lib/parser-parameter-list.c:22-55 | a list is BINARY(LPAREN, group, ...), later groups on SEMICOLON nodes, closed by LITERAL(RPAREN), every item a group |
| LegacyParserLoad.ScanAllStep | parser.c:87-100 | each token loaded is the one `scanner_next` yields at the scanner's position, and after one other than TOK_EOF the rest come from the new position |
| LegacyParserLoad.ScanAllEndsAtEof | parser.c:100 | the tokens loaded end with the first TOK_EOF, and no earlier token is TOK_EOF |
| LegacyParserLoad.ScanAllAtEnd | parser.c:87-100 | at the end of the input the only token loaded is TOK_EOF |
| LegacyParserLoad.LoadOne | parser.c:88 | one `scanner_next` yields the head of the tokens still to load and leaves the scanner where the others start |
| LegacyParserLoad.Stage | parser.c:89-99 | storing a token in the 64-slot buffer, flushed to the parser when it fills, keeps parser tokens plus buffer equal to the old ones plus the token |
| LegacyParserLoad.LoadStep | parser.c:87-100 | one turn reads and stages the next token still to load, ending after TOK_EOF |
| LegacyParserLoad.LoadTokens | parser.c:80-104 | the parser ends holding its old tokens followed by every token the scanner yields up to and including the first TOK_EOF, in order |

## Left out

- Drivers and the interactive loop (cmd/main.go, utils/repl.c, utils/tokens.c, pascal2c.c): they read files and the terminal and print results; the model starts from the byte buffer or the token array they hand over.
- Printing (`print_token`, `dump_expr`, `parser_dump`, `circbuf_debug`, the `printf` at the end of the legacy `parser_unsigned_number`): output only, it changes no state the model keeps.
- `exit` in the parsers' error routine and the Go tokenizer's `panic` on an unknown rune: the process ends there; the model returns `Failure(SyntaxError(token))` or `UnknownRune` instead, so that callers can be reasoned about.
- Memory management (`malloc`, `realloc`, `free`, `token_free`, `expr_free`, `scanner_free`, `circbuf_free`) and the allocation-failure exit: Dafny sequences and objects grow without failing, so no allocation can fail here.
- The line and column of a token built by `newsemi`, which C leaves uninitialised: they are 0 in the model, since no value can be read from uninitialised memory.
- `parse_identifier_list` in lib/parser-parameter-list.c: its body is not in the repository, so it is a function parameter whose only contract is that it does not move backwards.
- `match_identifier` in the legacy scanner: it is declared but not defined in the legacy token.c, so it is a constructor parameter.
- The null test `last_token &&` in the legacy load loop (parser.c:100): the scanner returns no null token here, since allocation cannot fail in the model.
- Reads past the end of the token array, whose C result is undefined: every parser function returns `Failure(PastEnd)` there instead.
- Unterminated comments and strings, where the C scanners loop for ever or read past the buffer; unterminated comments make the Go tokenizer panic on an index out of range, and an unterminated quote makes it loop for ever, since `peekFar` gives NUL past the end: the specification functions return `None` or `Stuck`, and the methods that scan them require the terminated case.
- PastaParserLoad.LoadTokens: requires that the whole input scans, because an unterminated comment or string makes the C loop spin before the terminating TOK_EOF is reached; the tokens staged before it are not modelled as delivered.
- Integer widths: circbuf's `siz`, `read` and `write` are C `int` (circbuf.c:10-13), libpasta's scanner keeps `len`, `pos`, `line` and `col` as `unsigned int` (libpasta/scanner.c:25-30), and the Go cursor and offsets are `uint` (tokenizer/tokenizer.go:11,79). The model uses unbounded `int`/`nat`, so overflow and wrap-around are not modelled; they need inputs of about 2^31 bytes or more.
- C character classes: `isalpha` and `isdigit` (libpasta/scanner.c:265,313; scanner.c:179,218) are modelled as ASCII, which is what they mean in the "C" locale; other locales are not modelled.
- PastaScanner.Raw: utils/repl.c's buffer has a NUL at `len`; a direct `buffer[pos]` read at or past `len` is undefined in C (utils/tokens.c hands over exactly `len` bytes with no terminator) and is modelled as NUL.
- GoTokenizer.Tokenizer.NextToken: requires that the next token is not `Stuck`, the case where the Go code panics on an unclosed comment or loops for ever on an unclosed quote.
- Go's Unicode classes (`unicode.IsSpace`, `unicode.IsDigit`, `unicode.IsNumber`): the buffer is a sequence of bytes read as Latin-1 characters, so the classes are given on Latin-1 only.
- The `literal` pointer field of the C expression node: the core never sets it, so the node has no such field.
- Concurrency and floating point: the core uses neither; numbers stay in their token text.

## Findings

The main model keeps each of these as the code is written, so that its contracts describe the program as it stands. The corrected definition stands next to it, and its intended property is proved.

| source | as written | input that shows it | evidently intended | confidence | as-written member | corrected member |
|---|---|---|---|---|---|---|
| tokenizer/tokenizer.go:161-173 | after the `*)` of a `(*` comment, the outer loop's `continue` advances once more, stepping over the byte after `)` unexamined | `a(*c*)b`: after `a` the cursor passes `b`, which is never tokenized | `advance` stops on the byte right after `*)` | not executed | GoTokenizerFacts.StarCommentLosesByte | GoTokenizer.SkipIntended |
| libpasta/scanner.c:341-346 | after the three-byte UTF-8 byte order mark, the position is set to 4 | the mark followed by `12` scans as the number `2` | the position after the mark is 3 | not executed | PastaScannerFacts.InitSkipsFirstByte | PastaScanner.InitIntended |
| libpasta/parser-variable.c:37-46 | the suffix loop dispatches on the token it has just taken, not on the next one | `p^ := 1` takes `:=` into the variable; `x := 1` gives a tree on `:=` instead of `x` | dispatch on the token at the position, taking only suffix tokens | not executed | PastaParserVariable.SwallowsFollowingToken | PastaParserVariable.IntendedStops |
| libpasta/parser-expression.c:78-97 | `parser_term` parses its right operand by calling itself, so a chain of factors nests to the right | `8 / 4 / 2` gives 8 divided by (4 / 2) | left nesting, as the function's doc comment draws it: (8 / 4) / 2 | not executed | PastaParserExpressionFacts.TermNestsRight | PastaParserExpressionFacts.TermIntendedNestsLeft |
