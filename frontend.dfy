/** The front end composed: the source text is handed to a lexer
    (lexer/lexer.go `NewLexer`), the lexer to a parser (parser/parser.go
    `NewParser`), and `Program` either accepts the whole text or aborts with
    the first error. */
module Frontend {
  import opened Results
  import opened Tokens
  import opened Lexer
  import opened Parser
  import ParserProperties

  /** Why a source text is rejected: the lexer or the parser aborted. */
  datatype CompileError = Lexing(lex: LexError) | Parsing(parse: ParseError)

  /** The verdict on a source text: it is tokenized (the lexer appends the
      final newline), and the token stream is parsed as a program. */
  function Compile(source: seq<Byte>): (r: Outcome<CompileError>)
    ensures r.Pass? ==> TokenStream(source + "\n", 0).Ok?
    ensures r.Pass? ==> ParseProgram(TokenStream(source + "\n", 0).value, Start).Ok?
  {
    var src := source + "\n";
    match TokenStream(src, 0)
    case Err(e) => Fail(Lexing(e))
    case Ok(toks) =>
      match ParseProgram(toks, Start)
      case Ok(_) => Pass
      case Err(e) => Fail(Parsing(e))
  }

  /** A lexer over the source, its tokens read by a parser, and `Program` run:
      the answer is the verdict `Compile` gives. */
  method Recognise(source: seq<Byte>) returns (r: Outcome<CompileError>)
    ensures r == Compile(source)
  {
    var l := new Lexer(source);
    var toks := Tokenize(l);
    if toks.Err? {
      return Fail(Lexing(toks.error));
    }
    var p := new Parser(toks.value);
    var res := p.Program();
    if res.Fail? {
      r := Fail(Parsing(res.error));
    } else {
      r := Pass;
    }
  }

  /** A source text is accepted exactly when it tokenizes, its statements
      parse up to EOF, and every GOTO names a label declared somewhere in the
      program. */
  lemma CompileAccepts(source: seq<Byte>)
    ensures Compile(source).Pass? <==>
      var src := source + "\n";
      TokenStream(src, 0).Ok? &&
      var toks := TokenStream(src, 0).value;
      var s := ParseBlock(toks, SkipNewlines(toks, Start), EOF);
      s.Ok? && ParserProperties.GotosResolved(toks, 0, s.value.pos)
  {
    var src := source + "\n";
    if TokenStream(src, 0).Ok? {
      ParserProperties.ProgramAccepts(TokenStream(src, 0).value);
    }
  }
}
