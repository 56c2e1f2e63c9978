# tinycompiler front end, modelled in Dafny

This project models the front end of tinycompiler. tinycompiler is a compiler
from a small BASIC-like language (LET, INPUT, PRINT, IF … THEN … ENDIF,
WHILE … REPEAT … ENDWHILE, LABEL and GOTO) to C. The model covers three parts.

- **The lexer** (`lexer/lexer.go`). A byte cursor over the source text, which
  always has a newline appended, produces one classified token per
  `GetToken` call. It skips blanks and `#` comments. It uses one byte of
  lookahead to split `=`/`==`, `<`/`<=`, `>`/`>=` and `!=`. It scans string
  literals, numbers, words and keywords. Every `Abort` becomes an error value.
- **The parser** (`parser/parser.go`). A recursive-descent recogniser with two
  tokens of lookahead. It keeps three growing tables: assigned symbols,
  declared labels and GOTO targets. It checks token kinds, use before
  assignment, duplicate labels and that a comparison has an operator. At the
  end of the program it checks that every GOTO target was declared.
- **The emitter** (`emitter/emitter.go`). Two append-only buffers, a header
  and the code. The output file holds the header followed by the code.

Each stateful part is a class with the source's fields and one method per
source function. Each method is proved against a pure specification
function:
- `Lexer.Lexer.GetToken` against `Lexer.ScanToken`;
- every `Parser.Parser` production against the grammar function of the same
  production;
- the emitter methods against the fold `Emitter.Run` of the calls made so far.

The properties the source promises are lemmas about those functions. Module `Frontend` composes the lexer with the parser, as
`NewParser` takes a lexer and pulls tokens from it.

`parser/parser.go` emits no C: it prints only a trace and never calls the
emitter, so the parser is modelled as a recogniser.

Files, dependencies first:
- `results.dfy`: Result and Outcome values.
- `tokens.dfy`: token kinds, tokens, the keyword table and kind names.
- `lexer.dfy`
- `parser.dfy`
- `parser_properties.dfy`: the table, acceptance and rule lemmas.
- `frontend.dfy`
- `emitter.dfy`

## Model

| member | source | states |
|---|---|---|
| Tokens.IsKeyword | lexer/lexer.go:208-228 | the keyword lookup answers UNKNOWN or one of the eleven keyword kinds (constants 101..111) |
| Tokens.KeywordIsItsName | lexer/lexer.go:208-228 | a word the lookup finds is exactly the name of the kind it finds, so the match is exact and case-sensitive |
| Tokens.KeywordFoundByName | lexer/lexer.go:208-228 | each keyword kind is found under its own name |
| Tokens.CodeIdentifies | lexer/lexer.go:19-50 | distinct token kinds have distinct int64 constants |
| Tokens.EveryKindNamed | lexer/lexer.go:232-293 | no kind's constant falls to the "Invalid TokenType" default |
| Lexer.RunEnd | lexer/lexer.go:85-97 | a skipping loop stops on a byte outside its run, within the source; a run that includes NUL, such as a comment body, stops before the end, on the appended newline at the latest |
| Lexer.RunEndInRun | lexer/lexer.go:85-97 | every byte a skipping loop steps over belongs to its run |
| Lexer.TokenStart | lexer/lexer.go:99-101 | after the blanks and a comment are skipped, the cursor is on a newline or on a byte that is neither blank nor '#' |
| Lexer.ScanToken | lexer/lexer.go:99-206 | a token that scans moves the cursor strictly forward; a token other than EOF ends within the source |
| Lexer.TokenStartSkips | lexer/lexer.go:85-101 | the bytes skipped before a token are blanks, then possibly a '#' comment that runs up to a newline |
| Lexer.StringCovers | lexer/lexer.go:145-158 | a string literal covers its two quotes and exactly the text between them |
| Lexer.CompoundCovers | lexer/lexer.go:113-144 | a one- or two-byte operator covers exactly its text |
| Lexer.ScanAtCovers | lexer/lexer.go:104-205 | a token that scans covers exactly its lexeme in the source; EOF is produced at a NUL and advances one position |
| Lexer.ScanPartitions | lexer/lexer.go:99-206 | the source splits into skippable bytes followed by the token's exact lexeme |
| Lexer.OperatorsLookAheadOneByte | lexer/lexer.go:113-144 | `=`, `>` and `<` give the two-byte EQEQ/GTEQ/LTEQ when '=' follows and the one-byte EQ/GT/LT otherwise; `!=` is NOTEQ, and a `!` without '=' fails naming the byte after it |
| Lexer.StringLiteralShape | lexer/lexer.go:145-158 | a string succeeds if and only if a closing quote comes before any CR, LF, tab, backslash or '%'; its text is the bytes strictly between the quotes and holds none of them |
| Lexer.NumberLiteralShape | lexer/lexer.go:159-178 | a number fails if and only if its digits are followed by a '.' without a digit after it; otherwise its text is digit+ ('.' digit+)? and no digit follows it, and it holds a '.' exactly when one follows the integer digits, so a fraction is always taken |
| Lexer.WordShape | lexer/lexer.go:179-194 | a word is the longest letter-or-digit run starting with a letter; it is IDENT exactly when the lookup answers UNKNOWN, and otherwise it has the keyword's kind |
| Lexer.ScanDispatch | lexer/lexer.go:145-202 | a quote starts a string, a digit a number, a letter a word; a newline is NEWLINE "\n"; NUL is EOF; an unknown-token error comes only from a byte that starts no token |
| Lexer.TokenStreamEndsWithEof | lexer/lexer.go:196-205 | no EOF comes before the last-but-one token, which is EOF; the last token is the parser's lookahead and may itself be EOF |
| Lexer.Lexer.constructor | lexer/lexer.go:53-61 | `Source` is the text plus "\n"; the cursor is on byte 0 |
| Lexer.Lexer.NextChar | lexer/lexer.go:63-72 | `CurPos` grows by exactly one; `CurChar` is the byte there, or NUL past the end, which is what `Peek` answered before |
| Lexer.Lexer.Peek | lexer/lexer.go:74-79 | the byte after the cursor, or NUL past the end |
| Lexer.Lexer.SkipWhitespace | lexer/lexer.go:85-89 | stops at the end of the run of spaces, tabs and CRs, on a byte outside it |
| Lexer.Lexer.SkipComment | lexer/lexer.go:91-97 | on '#', stops exactly on the next newline, which the appended "\n" guarantees; otherwise changes nothing |
| Lexer.Lexer.ReadString | lexer/lexer.go:145-158 | computes `ScanString` and leaves the cursor on the closing quote |
| Lexer.Lexer.ReadNumber | lexer/lexer.go:159-178 | computes `ScanNumber` and leaves the cursor on the last digit |
| Lexer.Lexer.SkipDigits | lexer/lexer.go:161-163 | advances to the last byte of a run of digits |
| Lexer.Lexer.ReadWord | lexer/lexer.go:179-194 | computes `ScanWord` and leaves the cursor on the word's last byte |
| Lexer.Lexer.ReadCompound | lexer/lexer.go:113-136 | computes `ScanCompound`: the two-byte form when '=' follows |
| Lexer.Lexer.ReadOperator | lexer/lexer.go:105-144 | the operator bytes give the token or error `ScanAt` specifies |
| Lexer.Lexer.ReadToken | lexer/lexer.go:104-202 | the token or error `ScanAt` specifies, with the cursor on its last byte |
| Lexer.Lexer.GetToken | lexer/lexer.go:99-206 | returns the token or error `ScanToken` specifies from the old cursor, and moves the cursor to just past the token |
| Lexer.Tokenize | parser/parser.go:53-56 | the tokens the parser pulls by calling `GetToken` again and again are `TokenStream` of the source, or its first error |
| Parser.MatchKind | parser/parser.go:46-51 | succeeds if and only if the current token has the kind, and then advances exactly one token; otherwise fails naming the expected and the actual kind |
| Parser.ParsePrimary | parser/parser.go:228-242 | succeeds if and only if the token is a NUMBER or an IDENT already in the symbol table; fails with use-before-assignment for another IDENT and with unexpected token otherwise |
| Parser.ParseUnary | parser/parser.go:219-226 | a unary consumes at least one token and moves only the position |
| Parser.TermTail | parser/parser.go:213-216 | the `*`/`/` loop stops on a token that is neither |
| Parser.ParseTerm | parser/parser.go:209-217 | a term consumes at least one token and ends on a token that is neither `*` nor `/` |
| Parser.ExpressionTail | parser/parser.go:203-206 | the `+`/`-` loop stops on a token that is neither |
| Parser.ParseExpression | parser/parser.go:199-207 | an expression consumes at least one token and ends on a token that is neither `+` nor `-` |
| Parser.ComparisonTail | parser/parser.go:184-187 | the relational loop stops on a token that is no relational operator |
| Parser.ParseComparison | parser/parser.go:172-188 | a comparison consumes at least one token and moves only the position |
| Parser.SkipNewlines | parser/parser.go:167-169 | skips exactly the run of NEWLINE tokens |
| Parser.ParseNewline | parser/parser.go:163-170 | succeeds if and only if the current token is NEWLINE; it then consumes the whole run of NEWLINEs and nothing else |
| Parser.ParseGuard | parser/parser.go:98-100 | a guard consumes at least one token and moves only the position |
| Parser.ParseGuarded | parser/parser.go:94-118 | the rest of IF or WHILE consumes tokens within the stream |
| Parser.BlockThenMatch | parser/parser.go:102-106 | a body and its closing keyword consume at least that keyword |
| Parser.ParsePrint | parser/parser.go:85-93 | PRINT's operand consumes at least one token and moves only the position |
| Parser.ParseLabel | parser/parser.go:119-129 | the rest of a LABEL statement consumes at least one token, within the stream |
| Parser.ParseGoto | parser/parser.go:130-134 | the rest of a GOTO statement consumes at least one token, within the stream |
| Parser.ParseLet | parser/parser.go:135-146 | the rest of a LET statement consumes at least one token, within the stream |
| Parser.ParseInput | parser/parser.go:147-156 | the rest of an INPUT statement consumes at least one token, within the stream |
| Parser.ParseSimple | parser/parser.go:84-159 | succeeds only on PRINT, LABEL, GOTO, LET or INPUT |
| Parser.StatementBody | parser/parser.go:84-159 | a statement consumes at least its first token |
| Parser.ParseStatement | parser/parser.go:84-161 | every statement ends with at least one NEWLINE and is followed by a token that is not NEWLINE |
| Parser.ParseBlock | parser/parser.go:71-73 | a block stops on its end kind |
| Parser.ParseProgram | parser/parser.go:64-82 | an accepted program ends on EOF with every GOTO target among the declared labels |
| Parser.Parser.constructor | parser/parser.go:18-36 | the tables are empty, `CurToken` is the first token and `PeekToken` the second |
| Parser.Parser.CheckToken | parser/parser.go:38-40 | true if and only if the current token has the kind |
| Parser.Parser.CheckPeek | parser/parser.go:42-44 | true if and only if the lookahead token has the kind |
| Parser.Parser.IsComparisonOperator | parser/parser.go:190-197 | true if and only if the current token is one of GT, GTEQ, LT, LTEQ, EQEQ, NOTEQ |
| Parser.Parser.NextToken | parser/parser.go:53-56 | the old lookahead becomes the current token and the next token is pulled |
| Parser.Parser.Match | parser/parser.go:46-51 | computes `MatchKind` on the parser's state |
| Parser.Parser.Primary | parser/parser.go:228-242 | computes `ParsePrimary` |
| Parser.Parser.Unary | parser/parser.go:219-226 | computes `ParseUnary` |
| Parser.Parser.Term | parser/parser.go:209-217 | computes `ParseTerm`, and leaves the parser where the term ends or reports its error |
| Parser.Parser.Expression | parser/parser.go:199-207 | computes `ParseExpression`, and leaves the parser where the expression ends or reports its error |
| Parser.Parser.Comparison | parser/parser.go:172-188 | computes `ParseComparison`, and leaves the parser where the comparison ends or reports its error |
| Parser.Parser.ComparisonLoop | parser/parser.go:184-187 | computes `ComparisonTail` |
| Parser.Parser.Newline | parser/parser.go:163-170 | computes `ParseNewline` |
| Parser.Parser.Guard | parser/parser.go:98-100 | computes `ParseGuard` |
| Parser.Parser.Guarded | parser/parser.go:94-118 | computes `ParseGuarded` |
| Parser.Parser.Body | parser/parser.go:102-106 | computes `BlockThenMatch` |
| Parser.Parser.Block | parser/parser.go:71-73 | computes `ParseBlock` with a loop over statements |
| Parser.Parser.Statement | parser/parser.go:84-161 | computes `ParseStatement` |
| Parser.Parser.Dispatch | parser/parser.go:84-159 | computes `StatementBody` |
| Parser.Parser.Simple | parser/parser.go:84-159 | computes `ParseSimple` |
| Parser.Parser.Print | parser/parser.go:85-93 | computes `ParsePrint` |
| Parser.Parser.Label | parser/parser.go:119-129 | computes `ParseLabel` |
| Parser.Parser.Goto | parser/parser.go:130-134 | computes `ParseGoto` |
| Parser.Parser.Let | parser/parser.go:135-146 | computes `ParseLet` |
| Parser.Parser.Input | parser/parser.go:147-156 | computes `ParseInput` |
| Parser.Parser.Program | parser/parser.go:64-82 | computes `ParseProgram` |
| Parser.Parser.SkipLeadingNewlines | parser/parser.go:67-69 | computes `SkipNewlines` |
| Parser.Parser.CheckLabels | parser/parser.go:75-80 | passes if and only if every GOTO target is a declared label, and fails with the undeclared-label error otherwise |
| ParserProperties.NamesMeaning | parser/parser.go:119-156 | `Names` of a kind holds exactly the texts that follow the tokens of that kind in the range |
| ParserProperties.TermRange | parser/parser.go:209-217 | a term covers only numbers, identifiers and operators |
| ParserProperties.ExpressionRange | parser/parser.go:199-207 | an expression covers only numbers, identifiers and operators |
| ParserProperties.ComparisonRange | parser/parser.go:172-188 | a comparison covers only numbers, identifiers and relational or arithmetic operators |
| ParserProperties.ComparisonTables | parser/parser.go:172-188 | a comparison adds nothing to any table |
| ParserProperties.GuardedTables | parser/parser.go:94-118 | an IF or WHILE adds to the tables exactly what the statements of its body introduce |
| ParserProperties.LetTables | parser/parser.go:135-146 | a LET adds its target to the symbols, and its value adds nothing |
| ParserProperties.DeclarationTables | parser/parser.go:119-156 | a LABEL, GOTO or INPUT statement that parses moves over its keyword and name and adds the name to its own table and to no other |
| ParserProperties.LabelStep | parser/parser.go:119-129 | the rest of a LABEL statement that parses declares the name and consumes exactly the identifier |
| ParserProperties.GotoStep | parser/parser.go:130-134 | the rest of a GOTO statement that parses records the target and consumes exactly the identifier |
| ParserProperties.InputStep | parser/parser.go:147-156 | the rest of an INPUT statement that parses assigns the name and consumes exactly the identifier |
| ParserProperties.SimpleTables | parser/parser.go:84-156 | a PRINT, LABEL, GOTO, LET or INPUT statement that parses adds to each table exactly what its tokens introduce |
| ParserProperties.StatementTables | parser/parser.go:84-161 | a statement adds to each table exactly what the LET, INPUT, LABEL and GOTO tokens it covers introduce |
| ParserProperties.BlockTables | parser/parser.go:71-73 | a block of statements adds exactly what the tokens it covers introduce |
| ParserProperties.ReplayDeclared | parser/parser.go:119-129 | the declared labels grow by exactly the names after the LABEL tokens |
| ParserProperties.ReplayGotoed | parser/parser.go:130-134 | the GOTO targets grow by exactly the names after the GOTO tokens |
| ParserProperties.ReplaySymbols | parser/parser.go:135-156 | the symbols grow by exactly the names after the LET and INPUT tokens |
| ParserProperties.TablesGrow | parser/parser.go:119-156 | no table ever loses a name |
| ParserProperties.ProgramTables | parser/parser.go:64-82 | at EOF, the three tables hold exactly the names introduced anywhere in the program |
| ParserProperties.ResolvedMeaning | parser/parser.go:75-80 | the GOTO targets are among the declared labels if and only if each GOTO names some LABEL of the program |
| ParserProperties.ProgramAccepts | parser/parser.go:64-82 | a program is accepted if and only if its statements parse up to EOF and every GOTO names a LABEL anywhere in the program, before or after it |
| ParserProperties.LabelDeclaredOnce | parser/parser.go:119-129 | LABEL fails with a duplicate-label error if and only if the name is already declared, whatever the GOTOs; otherwise it declares the name and changes nothing else |
| ParserProperties.AssignAdds | parser/parser.go:135-156 | a LET or INPUT statement that parses adds its target to the symbols and leaves the label tables unchanged |
| ParserProperties.LetAdds | parser/parser.go:135-146 | the rest of a LET statement that parses ends with its target added to the symbols and every other table as before |
| ParserProperties.InputAdds | parser/parser.go:147-156 | the rest of an INPUT statement that parses ends with its target added to the symbols and every other table as before |
| ParserProperties.AssignIdempotent | parser/parser.go:139-142 | a LET or INPUT statement whose target is already assigned leaves the symbols as they were |
| ParserProperties.LetSelfReference | parser/parser.go:135-146 | `LET a = a` is accepted even when `a` was never assigned, since the target is assigned before the value is parsed |
| ParserProperties.LoneOperand | parser/parser.go:199-242 | a primary not followed by an operator is a whole expression |
| ParserProperties.ComparisonHasOperator | parser/parser.go:172-188 | an accepted comparison holds a relational operator |
| ParserProperties.ComparisonNeedsOperator | parser/parser.go:177-182 | an expression not followed by a relational operator fails as a comparison, naming the token found |
| ParserProperties.ChainedComparison | parser/parser.go:184-187 | comparisons chain: three expressions joined by two relational operators, as in `1 < 2 < 3`, are accepted as one comparison |
| ParserProperties.EmptyBodyAccepted | parser/parser.go:102-106 | IF and WHILE bodies may be empty |
| ParserProperties.StatementGrows | parser/parser.go:84-161 | a statement never removes a name from any table |
| Frontend.Compile | parser/parser.go:53-56 | a source text passes only if it tokenizes and its token stream parses as a program |
| Frontend.Recognise | parser/parser.go:18-36 | building a lexer, tokenizing, building a parser and running `Program` gives the verdict `Compile` specifies |
| Frontend.CompileAccepts | parser/parser.go:64-82 | a source text is accepted if and only if it tokenizes, its statements parse up to EOF, and every GOTO names a declared label |
| Emitter.Output | emitter/emitter.go:40 | the written text is all the header lines followed by all the code, each in call order |
| Emitter.RunIsConcatenation | emitter/emitter.go:21-31 | a sequence of calls appends its header lines to the header and its code to the code, and leaves the other buffer alone |
| Emitter.StepIsConcatenation | emitter/emitter.go:21-31 | one call appends to one buffer only |
| Emitter.HeaderCommutes | emitter/emitter.go:40 | a header line and a code call made next to each other can be swapped without changing the written text |
| Emitter.EmitLineIsEmitWithNewline | emitter/emitter.go:21-27 | `EmitLine(c)` has the effect of `Emit(c + "\n")` |
| Emitter.Emitter.constructor | emitter/emitter.go:11-19 | both buffers start empty |
| Emitter.Emitter.Emit | emitter/emitter.go:21-23 | the code grows by the fragment and the header is unchanged |
| Emitter.Emitter.EmitLine | emitter/emitter.go:25-27 | the code grows by the fragment and "\n", and the header is unchanged |
| Emitter.Emitter.HeaderLine | emitter/emitter.go:29-31 | the header grows by the fragment and "\n", and the code is unchanged |
| Emitter.Emitter.Contents | emitter/emitter.go:40 | the text to write is the header followed by the code, which is the header lines of every call so far followed by all the code |

## Left out

- Process exit. `log.Fatalln` in either `Abort` becomes an error value (`LexError`, `ParseError`) that ends the operation. The messages are kept as error constructors carrying the text or kinds they name.
- The `fmt.Println` trace of the parser: it has no effect on acceptance.
- Parser.Parser.CheckLabels: reports only that some GOTO target is undeclared, not which one. The source names the first label that Go's map iteration order happens to reach.
- Lazy lexing: the parser works on the token sequence that `Lexer.Tokenize` produces, not on a live lexer.
  - Acceptance is the same, because the parser pulls every token through EOF and one more before it can accept.
  - When a lexing error lies two or more tokens after the token where parsing fails, the source reports the parsing error, while `Frontend.Compile` reports the lexing error. A lexing error in the token right after the failing one is reported first by both, since the parser pulls it as its lookahead.
- `main.go`: it lexes one fixed string and prints each token kind. The printing is I/O; the loop over `GetToken` up to EOF is what `Lexer.Tokenize` models. Code generation is not modelled either: the parser never calls the emitter.
- `WriteFile`'s file creation, writing, closing and panics are I/O. Only the text it writes (`Header + Code`) is modelled, with `FullPath` kept as a field.
- `unicode.IsDigit` and `unicode.IsLetter` on a byte are modelled as the Latin-1 classification of that byte.
  - Digits are '0'..'9'.
  - Letters are the ASCII letters, ª, µ, º, U+00C0..U+00D6, U+00D8..U+00F6 and U+00F8..U+00FF.
- The text of an unknown-token error is modelled as the byte itself. The Go message converts the byte to a rune, which for bytes from 0x80 up gives its two-byte UTF-8 encoding.
- Parser.Parser.IsComparisonOperator: the six `CheckToken` calls are folded into one test of the current kind against the six relational kinds. The contract is the same.
- Helper methods. Each stands for one branch or loop of a single Go function, each with its own contract:
  - of `Statement`: `Guard`, `Guarded`, `Body`, `Block`, `Dispatch`, `Simple`, `Print`, `Label`, `Goto`, `Let`, `Input`;
  - of `Comparison`: `ComparisonLoop`;
  - of `Program`: `SkipLeadingNewlines`, `CheckLabels`;
  - of `GetToken`: `ReadToken`, `ReadOperator`, `ReadCompound`, `ReadString`, `ReadNumber`, `SkipDigits`, `ReadWord`.
- The tables are sets, not Go `map[string]bool`. Every value stored in these maps is `true`, and the code only tests presence.
- The parser's placeholder tokens before the first two are pulled have an empty text, since Go's zero string is empty. Nothing reads them.
