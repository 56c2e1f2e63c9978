/** The parser of parser/parser.go: a recursive-descent recogniser with two
    tokens of lookahead, a symbol table and two label tables.

    The first half of the module specifies every production as a pure
    function from a parser state (the position of the current token and the
    three tables) to the state after it or the error it aborts with. The
    class `Parser` then holds the state the source mutates, and each of its
    methods is proved to compute what the function of the same production
    says. The parser reads the token stream of `Lexer.TokenStream`. */
module Parser {
  import opened Results
  import opened Tokens
  import Lexer

  /** The reasons the parser aborts. */
  datatype ParseError =
    | Expected(want: TokenType, got: TokenType)   // `Match` on the wrong kind
    | InvalidStatement(text: seq<Byte>, kind: TokenType)
    | DuplicateLabel(name: seq<Byte>)
    | UndeclaredLabel                             // some GOTO target was never declared
    | NoComparisonOperator(text: seq<Byte>)
    | UndefinedVariable(name: seq<Byte>)          // use before assignment
    | UnexpectedToken(text: seq<Byte>)

  /** The parser's tables and the position of its current token. */
  datatype PState = PState(pos: nat, symbols: set<seq<Byte>>, declared: set<seq<Byte>>, gotoed: set<seq<Byte>>)

  /** The state before `Program`: first token current, all tables empty. */
  const Start := PState(0, {}, {}, {})

  /** The token at index `i`; past the end of the stream the lexer keeps
      producing EOF. */
  function At(toks: seq<Token>, i: int): Token {
    if 0 <= i < |toks| then toks[i] else Token([NUL], EOF)
  }

  function Cur(toks: seq<Token>, st: PState): Token {
    At(toks, st.pos)
  }

  /** `NextToken`: the lookahead becomes current. */
  function Advance(st: PState): PState {
    st.(pos := st.pos + 1)
  }

  /** The measure of the recursion: tokens left before the end of the stream. */
  function Dist(toks: seq<Token>, pos: int): nat {
    if pos <= |toks| then |toks| - pos else 0
  }

  /** `st'` is reached from `st` by consuming tokens of `toks`, staying
      within the stream. What the tables gain on the way is stated in
      `ParserProperties`. */
  predicate Consumes(toks: seq<Token>, st: PState, st': PState) {
    st.pos <= st'.pos && (st.pos < st'.pos ==> st'.pos <= |toks|)
  }

  /** The kinds of the statements that add to a table. */
  predicate Declares(k: TokenType) {
    k == LABEL || k == GOTO || k == LET || k == INPUT
  }

  /** Only the position moved, within the stream. */
  predicate Moved(toks: seq<Token>, st: PState, st': PState) {
    st' == st.(pos := st'.pos) && st.pos <= st'.pos && (st.pos < st'.pos ==> st'.pos <= |toks|)
  }

  /** `Match`: consume the current token if it has kind `kind`, else abort. */
  function MatchKind(toks: seq<Token>, st: PState, kind: TokenType): (r: Result<PState, ParseError>)
    ensures r.Ok? <==> Cur(toks, st).kind == kind
    ensures r.Ok? ==> r.value == Advance(st)
    ensures r.Ok? && kind != EOF ==> st.pos < |toks|
    ensures r.Err? ==> r.error == Expected(kind, Cur(toks, st).kind)
  {
    if Cur(toks, st).kind == kind then Ok(Advance(st)) else Err(Expected(kind, Cur(toks, st).kind))
  }

  // ---------------------------------------------------------------------
  // Expressions
  // ---------------------------------------------------------------------

  /** primary ::= NUMBER | IDENT, where the identifier must already be in the
      symbol table. */
  function ParsePrimary(toks: seq<Token>, st: PState): (r: Result<PState, ParseError>)
    ensures r.Ok? <==>
      Cur(toks, st).kind == NUMBER || (Cur(toks, st).kind == IDENT && Cur(toks, st).text in st.symbols)
    ensures r.Ok? ==> r.value == Advance(st) && st.pos < |toks|
    ensures r.Err? && Cur(toks, st).kind == IDENT ==> r.error == UndefinedVariable(Cur(toks, st).text)
    ensures r.Err? && Cur(toks, st).kind != IDENT ==> r.error == UnexpectedToken(Cur(toks, st).text)
  {
    var t := Cur(toks, st);
    if t.kind == NUMBER then Ok(Advance(st))
    else if t.kind == IDENT then
      if t.text !in st.symbols then Err(UndefinedVariable(t.text)) else Ok(Advance(st))
    else Err(UnexpectedToken(t.text))
  }

  /** unary ::= ('+' | '-')? primary */
  function ParseUnary(toks: seq<Token>, st: PState): (r: Result<PState, ParseError>)
    ensures r.Ok? ==> Moved(toks, st, r.value) && st.pos < r.value.pos
  {
    var k := Cur(toks, st).kind;
    if k == PLUS || k == MINUS then ParsePrimary(toks, Advance(st)) else ParsePrimary(toks, st)
  }

  /** The loop of `Term`: ( ('/' | '*') unary )*, which is a further term
      after each operator. */
  function TermTail(toks: seq<Token>, st: PState): (r: Result<PState, ParseError>)
    ensures r.Ok? ==> Moved(toks, st, r.value)
    ensures r.Ok? ==> Cur(toks, r.value).kind != SLASH && Cur(toks, r.value).kind != ASTERISK
    decreases Dist(toks, st.pos)
  {
    var k := Cur(toks, st).kind;
    if k == SLASH || k == ASTERISK then ParseTerm(toks, Advance(st)) else Ok(st)
  }

  /** term ::= unary ( ('/' | '*') unary )* */
  function ParseTerm(toks: seq<Token>, st: PState): (r: Result<PState, ParseError>)
    ensures r.Ok? ==> Moved(toks, st, r.value) && st.pos < r.value.pos
    ensures r.Ok? ==> Cur(toks, r.value).kind != SLASH && Cur(toks, r.value).kind != ASTERISK
    decreases Dist(toks, st.pos)
  {
    var s :- ParseUnary(toks, st);
    TermTail(toks, s)
  }

  /** The loop of `Expression`: ( ('+' | '-') term )*, which is a further
      expression after each operator. */
  function ExpressionTail(toks: seq<Token>, st: PState): (r: Result<PState, ParseError>)
    ensures r.Ok? ==> Moved(toks, st, r.value)
    ensures r.Ok? ==> Cur(toks, r.value).kind != PLUS && Cur(toks, r.value).kind != MINUS
    decreases Dist(toks, st.pos)
  {
    var k := Cur(toks, st).kind;
    if k == PLUS || k == MINUS then ParseExpression(toks, Advance(st)) else Ok(st)
  }

  /** expression ::= term ( ('+' | '-') term )*. Parsing an expression never
      changes the tables. */
  function ParseExpression(toks: seq<Token>, st: PState): (r: Result<PState, ParseError>)
    ensures r.Ok? ==> Moved(toks, st, r.value) && st.pos < r.value.pos
    ensures r.Ok? ==> Cur(toks, r.value).kind != PLUS && Cur(toks, r.value).kind != MINUS
    decreases Dist(toks, st.pos)
  {
    var s :- ParseTerm(toks, st);
    ExpressionTail(toks, s)
  }

  /** The loop of `Comparison`: any further ( relop expression )*. */
  function ComparisonTail(toks: seq<Token>, st: PState): (r: Result<PState, ParseError>)
    ensures r.Ok? ==> Moved(toks, st, r.value) && !IsRelational(Cur(toks, r.value).kind)
    decreases Dist(toks, st.pos)
  {
    if IsRelational(Cur(toks, st).kind) then
      var s :- ParseExpression(toks, Advance(st));
      ComparisonTail(toks, s)
    else Ok(st)
  }

  /** comparison ::= expression ( relop expression )+ : at least one
      relational operator. */
  function ParseComparison(toks: seq<Token>, st: PState): (r: Result<PState, ParseError>)
    ensures r.Ok? ==> Moved(toks, st, r.value) && st.pos < r.value.pos
  {
    var s :- ParseExpression(toks, st);
    if IsRelational(Cur(toks, s).kind) then ComparisonTail(toks, s)
    else Err(NoComparisonOperator(Cur(toks, s).text))
  }

  // ---------------------------------------------------------------------
  // Statements
  // ---------------------------------------------------------------------

  /** The loop of `Newline` (and the first loop of `Program`): skip a run of
      NEWLINE tokens. */
  function SkipNewlines(toks: seq<Token>, st: PState): (s: PState)
    ensures Moved(toks, st, s) && Cur(toks, s).kind != NEWLINE
    ensures forall i :: st.pos <= i < s.pos ==> At(toks, i).kind == NEWLINE
    decreases Dist(toks, st.pos)
  {
    if Cur(toks, st).kind == NEWLINE then SkipNewlines(toks, Advance(st)) else st
  }

  /** newline ::= NEWLINE+ , consuming the whole run. */
  function ParseNewline(toks: seq<Token>, st: PState): (r: Result<PState, ParseError>)
    ensures r.Ok? <==> Cur(toks, st).kind == NEWLINE
    ensures r.Ok? ==> Moved(toks, st, r.value) && st.pos < r.value.pos && Cur(toks, r.value).kind != NEWLINE
    ensures r.Ok? ==> forall i :: st.pos <= i < r.value.pos ==> At(toks, i).kind == NEWLINE
  {
    var s :- MatchKind(toks, st, NEWLINE);
    Ok(SkipNewlines(toks, s))
  }

  /** What follows IF and WHILE before their body: a comparison, `open`
      (THEN or REPEAT) and a newline. */
  function ParseGuard(toks: seq<Token>, st: PState, open: TokenType): (r: Result<PState, ParseError>)
    requires open != EOF
    ensures r.Ok? ==> Moved(toks, st, r.value) && st.pos < r.value.pos
  {
    var s1 :- ParseComparison(toks, st);
    var s2 :- MatchKind(toks, s1, open);
    ParseNewline(toks, s2)
  }

  /** The rest of IF and WHILE after their keyword: the guard, a possibly
      empty body, and `close` (ENDIF or ENDWHILE). */
  function ParseGuarded(toks: seq<Token>, st: PState, open: TokenType, close: TokenType): (r: Result<PState, ParseError>)
    requires open != EOF && close != EOF
    ensures r.Ok? ==> Consumes(toks, st, r.value) && st.pos < r.value.pos
    decreases Dist(toks, st.pos), 0
  {
    var s :- ParseGuard(toks, st, open);
    BlockThenMatch(toks, s, close)
  }

  /** The end of IF and WHILE: the body, then its closing keyword. */
  function BlockThenMatch(toks: seq<Token>, st: PState, close: TokenType): (r: Result<PState, ParseError>)
    requires close != EOF
    ensures r.Ok? ==> Consumes(toks, st, r.value) && st.pos < r.value.pos
    decreases Dist(toks, st.pos), 4
  {
    var s :- ParseBlock(toks, st, close);
    MatchKind(toks, s, close)
  }

  /** PRINT after its keyword: a string, or else an expression. */
  function ParsePrint(toks: seq<Token>, st: PState): (r: Result<PState, ParseError>)
    ensures r.Ok? ==> Moved(toks, st, r.value) && st.pos < r.value.pos
  {
    if Cur(toks, st).kind == STRING then Ok(Advance(st)) else ParseExpression(toks, st)
  }

  /** LABEL after its keyword: the name, which must not be declared yet, is
      declared before it is matched as an identifier. */
  function ParseLabel(toks: seq<Token>, st: PState): (r: Result<PState, ParseError>)
    ensures r.Ok? ==> Consumes(toks, st, r.value) && st.pos < r.value.pos
  {
    var name := Cur(toks, st).text;
    if name in st.declared then Err(DuplicateLabel(name))
    else MatchKind(toks, st.(declared := st.declared + {name}), IDENT)
  }

  /** GOTO after its keyword: the target is recorded, then matched as an
      identifier. */
  function ParseGoto(toks: seq<Token>, st: PState): (r: Result<PState, ParseError>)
    ensures r.Ok? ==> Consumes(toks, st, r.value) && st.pos < r.value.pos
  {
    MatchKind(toks, st.(gotoed := st.gotoed + {Cur(toks, st).text}), IDENT)
  }

  /** LET after its keyword: the name is assigned (so that it may occur in
      its own value), then the identifier, '=' and the expression. */
  function ParseLet(toks: seq<Token>, st: PState): (r: Result<PState, ParseError>)
    ensures r.Ok? ==> Consumes(toks, st, r.value) && st.pos < r.value.pos
  {
    var s1 :- MatchKind(toks, st.(symbols := st.symbols + {Cur(toks, st).text}), IDENT);
    var s2 :- MatchKind(toks, s1, EQ);
    ParseExpression(toks, s2)
  }

  /** INPUT after its keyword: the name is assigned, then matched as an
      identifier. */
  function ParseInput(toks: seq<Token>, st: PState): (r: Result<PState, ParseError>)
    ensures r.Ok? ==> Consumes(toks, st, r.value) && st.pos < r.value.pos
  {
    MatchKind(toks, st.(symbols := st.symbols + {Cur(toks, st).text}), IDENT)
  }

  /** The keyword after the guard of IF (THEN) and of WHILE (REPEAT). */
  function GuardOpen(k: TokenType): TokenType {
    if k == IF then THEN else REPEAT
  }

  /** The keyword that ends the body of IF (ENDIF) and of WHILE (ENDWHILE). */
  function GuardClose(k: TokenType): TokenType {
    if k == IF then ENDIF else ENDWHILE
  }

  /** The statements without a body, dispatched on their first token; any
      other first token is not a statement. */
  function ParseSimple(toks: seq<Token>, st: PState): (r: Result<PState, ParseError>)
    ensures r.Ok? ==> Consumes(toks, st, r.value) && st.pos < r.value.pos
    ensures r.Ok? ==> Cur(toks, st).kind in {PRINT, LABEL, GOTO, LET, INPUT}
  {
    var t := Cur(toks, st);
    var s1 := Advance(st);
    if t.kind == PRINT then ParsePrint(toks, s1)
    else if t.kind == LABEL then ParseLabel(toks, s1)
    else if t.kind == GOTO then ParseGoto(toks, s1)
    else if t.kind == LET then ParseLet(toks, s1)
    else if t.kind == INPUT then ParseInput(toks, s1)
    else Err(InvalidStatement(t.text, t.kind))
  }

  /** A statement up to the newline that must end it, dispatched on its
      first token. */
  function StatementBody(toks: seq<Token>, st: PState): (r: Result<PState, ParseError>)
    ensures r.Ok? ==> Consumes(toks, st, r.value) && st.pos < r.value.pos
    decreases Dist(toks, st.pos), 1
  {
    var k := Cur(toks, st).kind;
    if k == IF || k == WHILE then ParseGuarded(toks, Advance(st), GuardOpen(k), GuardClose(k))
    else ParseSimple(toks, st)
  }

  /** statement ::= one of the nine forms, then newline. */
  function ParseStatement(toks: seq<Token>, st: PState): (r: Result<PState, ParseError>)
    ensures r.Ok? ==> Consumes(toks, st, r.value) && st.pos < r.value.pos
    ensures r.Ok? ==> At(toks, r.value.pos - 1).kind == NEWLINE && Cur(toks, r.value).kind != NEWLINE
    decreases Dist(toks, st.pos), 2
  {
    var body :- StatementBody(toks, st);
    ParseNewline(toks, body)
  }

  /** Statements up to (not including) the first token of kind `end`: the
      body of IF (up to ENDIF), of WHILE (up to ENDWHILE), and of the whole
      program (up to EOF). The body may be empty. */
  function ParseBlock(toks: seq<Token>, st: PState, end: TokenType): (r: Result<PState, ParseError>)
    ensures r.Ok? ==> Consumes(toks, st, r.value) && Cur(toks, r.value).kind == end
    decreases Dist(toks, st.pos), 3
  {
    if Cur(toks, st).kind == end then Ok(st)
    else
      var s :- ParseStatement(toks, st);
      ParseBlock(toks, s, end)
  }

  /** program ::= NEWLINE* statement* EOF, then every GOTO target must have
      been declared by some LABEL. */
  function ParseProgram(toks: seq<Token>, st: PState): (r: Result<PState, ParseError>)
    ensures r.Ok? ==> Consumes(toks, st, r.value) && Cur(toks, r.value).kind == EOF
    ensures r.Ok? ==> r.value.gotoed <= r.value.declared
  {
    var s :- ParseBlock(toks, SkipNewlines(toks, st), EOF);
    if s.gotoed <= s.declared then Ok(s) else Err(UndeclaredLabel)
  }

  // ---------------------------------------------------------------------
  // The parser object
  // ---------------------------------------------------------------------

  class Parser {
    /** The tokens the lexer yields, in order. */
    const Tokens: seq<Token>
    /** Identifiers assigned by LET or INPUT so far. */
    var Symbols: set<seq<Byte>>
    /** Names declared by LABEL so far. */
    var LabelsDeclared: set<seq<Byte>>
    /** Names used by GOTO so far. */
    var LabelsGotoed: set<seq<Byte>>
    var CurToken: Token
    var PeekToken: Token
    /** How many tokens have been pulled from the lexer. */
    var Pulled: nat

    ghost predicate Valid()
      reads this
    {
      2 <= Pulled && CurToken == At(Tokens, Pulled - 2) && PeekToken == At(Tokens, Pulled - 1)
    }

    /** The parser's state in the terms of the grammar functions. */
    ghost function State(): PState
      requires Valid()
      reads this
    {
      PState(Pulled - 2, Symbols, LabelsDeclared, LabelsGotoed)
    }

    /** `NewParser`: empty tables, and two tokens pulled so that the first is
        current and the second is the lookahead. */
    constructor (tokens: seq<Token>)
      ensures Valid() && Tokens == tokens && State() == Start
      ensures CurToken == At(tokens, 0) && PeekToken == At(tokens, 1)
    {
      Tokens := tokens;
      Symbols, LabelsDeclared, LabelsGotoed := {}, {}, {};
      CurToken := Token([], UNKNOWN);
      PeekToken := Token([], UNKNOWN);
      Pulled := 0;
      new;
      NextToken();
      NextToken();
    }

    /** Whether the current token has kind `kind`. */
    function CheckToken(kind: TokenType): (b: bool)
      requires Valid()
      reads this
      ensures b <==> Cur(Tokens, State()).kind == kind
    {
      kind == CurToken.kind
    }

    /** Whether the lookahead token has kind `kind`. */
    function CheckPeek(kind: TokenType): (b: bool)
      requires Valid()
      reads this
      ensures b <==> At(Tokens, State().pos + 1).kind == kind
    {
      kind == PeekToken.kind
    }

    /** Whether the current token is one of the six relational operators:
        the six `CheckToken` tests, one per operator kind, folded into one
        test of the current token's kind. */
    function IsComparisonOperator(): (b: bool)
      requires Valid()
      reads this
      ensures b <==> IsRelational(Cur(Tokens, State()).kind)
    {
      IsRelational(CurToken.kind)
    }

    /** The lookahead becomes current and the next token is pulled. */
    method NextToken()
      modifies this`CurToken, this`PeekToken, this`Pulled
      ensures CurToken == old(PeekToken) && PeekToken == At(Tokens, old(Pulled))
      ensures Pulled == old(Pulled) + 1
      ensures old(Valid()) ==> Valid() && State() == Advance(old(State()))
    {
      CurToken := PeekToken;
      PeekToken := At(Tokens, Pulled);
      Pulled := Pulled + 1;
    }

    /** The parser ended in the state `spec` describes, or failed with its error. */
    ghost predicate Reached(spec: Result<PState, ParseError>, r: Outcome<ParseError>)
      requires Valid()
      reads this
    {
      match spec
      case Ok(s) => r == Pass && State() == s
      case Err(e) => r == Fail(e)
    }

    /** Consumes the current token if it has kind `kind`, else fails naming
        the expected and the actual kind. */
    method Match(kind: TokenType) returns (r: Outcome<ParseError>)
      requires Valid()
      modifies this
      ensures Valid() && Reached(MatchKind(Tokens, old(State()), kind), r)
    {
      if !CheckToken(kind) {
        return Fail(Expected(kind, CurToken.kind));
      }
      NextToken();
      return Pass;
    }

    method Primary() returns (r: Outcome<ParseError>)
      requires Valid()
      modifies this
      ensures Valid() && Reached(ParsePrimary(Tokens, old(State())), r)
    {
      if CheckToken(NUMBER) {
        NextToken();
      } else if CheckToken(IDENT) {
        if CurToken.text !in Symbols {
          return Fail(UndefinedVariable(CurToken.text));
        }
        NextToken();
      } else {
        return Fail(UnexpectedToken(CurToken.text));
      }
      return Pass;
    }

    method Unary() returns (r: Outcome<ParseError>)
      requires Valid()
      modifies this
      ensures Valid() && Reached(ParseUnary(Tokens, old(State())), r)
    {
      if CheckToken(PLUS) || CheckToken(MINUS) {
        NextToken();
      }
      r := Primary();
    }

    method Term() returns (r: Outcome<ParseError>)
      requires Valid()
      modifies this
      ensures Valid() && Reached(ParseTerm(Tokens, old(State())), r)
    {
      r := Unary();
      if r.Fail? {
        return;
      }
      while CheckToken(SLASH) || CheckToken(ASTERISK)
        invariant Valid() && r == Pass
        invariant ParseTerm(Tokens, old(State())) == TermTail(Tokens, State())
        decreases Dist(Tokens, State().pos)
      {
        NextToken();
        r := Unary();
        if r.Fail? {
          return;
        }
      }
    }

    method Expression() returns (r: Outcome<ParseError>)
      requires Valid()
      modifies this
      ensures Valid() && Reached(ParseExpression(Tokens, old(State())), r)
    {
      r := Term();
      if r.Fail? {
        return;
      }
      while CheckToken(PLUS) || CheckToken(MINUS)
        invariant Valid() && r == Pass
        invariant ParseExpression(Tokens, old(State())) == ExpressionTail(Tokens, State())
        decreases Dist(Tokens, State().pos)
      {
        NextToken();
        r := Term();
        if r.Fail? {
          return;
        }
      }
    }

    method Comparison() returns (r: Outcome<ParseError>)
      requires Valid()
      modifies this
      ensures Valid() && Reached(ParseComparison(Tokens, old(State())), r)
    {
      r := Expression();
      if r.Pass? {
        if IsComparisonOperator() {
          r := ComparisonLoop();
        } else {
          r := Fail(NoComparisonOperator(CurToken.text));
        }
      }
    }

    /** The operator loop of `Comparison`, entered on a relational operator:
        the first operator and expression and every further one. */
    method ComparisonLoop() returns (r: Outcome<ParseError>)
      requires Valid() && IsRelational(CurToken.kind)
      modifies this
      ensures Valid() && Reached(ComparisonTail(Tokens, old(State())), r)
    {
      ghost var s0 := State();
      r := Pass;
      while IsComparisonOperator()
        invariant Valid() && r == Pass
        invariant ComparisonTail(Tokens, s0) == ComparisonTail(Tokens, State())
        decreases Dist(Tokens, State().pos)
      {
        NextToken();
        r := Expression();
        if r.Fail? {
          return;
        }
      }
    }

    method Newline() returns (r: Outcome<ParseError>)
      requires Valid()
      modifies this
      ensures Valid() && Reached(ParseNewline(Tokens, old(State())), r)
    {
      r := Match(NEWLINE);
      if r.Fail? {
        return;
      }
      while CheckToken(NEWLINE)
        invariant Valid()
        invariant SkipNewlines(Tokens, State()) == SkipNewlines(Tokens, Advance(old(State())))
        decreases Dist(Tokens, State().pos)
      {
        NextToken();
      }
    }
  
    /** `Comparison`, `Match` of THEN or REPEAT, then `Newline`. */
    method Guard(open: TokenType) returns (r: Outcome<ParseError>)
      requires Valid() && open != EOF
      modifies this
      ensures Valid() && Reached(ParseGuard(Tokens, old(State()), open), r)
    {
      r := Comparison();
      if r.Fail? {
        return;
      }
      r := Match(open);
      if r.Fail? {
        return;
      }
      r := Newline();
    }

    /** The rest of IF and WHILE after their keyword: the guard, then the
        body. */
    method Guarded(open: TokenType, close: TokenType) returns (r: Outcome<ParseError>)
      requires Valid() && open != EOF && close != EOF
      modifies this
      ensures Valid() && Reached(ParseGuarded(Tokens, old(State()), open, close), r)
      decreases Dist(Tokens, Pulled - 2), 0
    {
      r := Guard(open);
      if r.Fail? {
        return;
      }
      r := Body(close);
    }

    /** The statements of an IF or WHILE body up to its closing keyword
        `close`, then `Match` of that keyword. */
    method Body(close: TokenType) returns (r: Outcome<ParseError>)
      requires Valid() && close != EOF
      modifies this
      ensures Valid() && Reached(BlockThenMatch(Tokens, old(State()), close), r)
      decreases Dist(Tokens, Pulled - 2), 4
    {
      r := Block(close);
      if r.Pass? {
        r := Match(close);
      }
    }

    /** The loop over statements shared by `Program` (up to EOF) and the
        bodies of IF and WHILE (up to their closing keyword). */
    method Block(end: TokenType) returns (r: Outcome<ParseError>)
      requires Valid()
      modifies this
      ensures Valid() && Reached(ParseBlock(Tokens, old(State()), end), r)
      decreases Dist(Tokens, Pulled - 2), 3
    {
      ghost var s0 := State();
      r := Pass;
      while !CheckToken(end)
        invariant Valid() && r == Pass
        invariant Dist(Tokens, State().pos) <= Dist(Tokens, s0.pos)
        invariant ParseBlock(Tokens, State(), end) == ParseBlock(Tokens, s0, end)
        decreases Dist(Tokens, Pulled - 2)
      {
        r := Statement();
        if r.Fail? {
          return;
        }
      }
    }

    /** `Statement`: the statement's own part, then `Newline`. */
    method Statement() returns (r: Outcome<ParseError>)
      requires Valid()
      modifies this
      ensures Valid() && Reached(ParseStatement(Tokens, old(State())), r)
      decreases Dist(Tokens, Pulled - 2), 2
    {
      r := Dispatch();
      if r.Fail? {
        return;
      }
      r := Newline();
    }

    /** The branches of `Statement`, chosen by the current token. */
    method Dispatch() returns (r: Outcome<ParseError>)
      requires Valid()
      modifies this
      ensures Valid() && Reached(StatementBody(Tokens, old(State())), r)
      decreases Dist(Tokens, Pulled - 2), 1
    {
      if CheckToken(IF) {
        NextToken();
        r := Guarded(THEN, ENDIF);
      } else if CheckToken(WHILE) {
        NextToken();
        r := Guarded(REPEAT, ENDWHILE);
      } else {
        r := Simple();
      }
    }

    /** The branches of `Statement` for the statements without a body. */
    method Simple() returns (r: Outcome<ParseError>)
      requires Valid()
      modifies this
      ensures Valid() && Reached(ParseSimple(Tokens, old(State())), r)
    {
      if CheckToken(PRINT) {
        NextToken();
        r := Print();
      } else if CheckToken(LABEL) {
        NextToken();
        r := Label();
      } else if CheckToken(GOTO) {
        NextToken();
        r := Goto();
      } else if CheckToken(LET) {
        NextToken();
        r := Let();
      } else if CheckToken(INPUT) {
        NextToken();
        r := Input();
      } else {
        r := Fail(InvalidStatement(CurToken.text, CurToken.kind));
      }
    }

    /** The PRINT branch after the keyword. */
    method Print() returns (r: Outcome<ParseError>)
      requires Valid()
      modifies this
      ensures Valid() && Reached(ParsePrint(Tokens, old(State())), r)
    {
      if CheckToken(STRING) {
        NextToken();
        r := Pass;
      } else {
        r := Expression();
      }
    }

    /** The LABEL branch after the keyword. */
    method Label() returns (r: Outcome<ParseError>)
      requires Valid()
      modifies this
      ensures Valid() && Reached(ParseLabel(Tokens, old(State())), r)
    {
      if CurToken.text in LabelsDeclared {
        return Fail(DuplicateLabel(CurToken.text));
      }
      LabelsDeclared := LabelsDeclared + {CurToken.text};
      r := Match(IDENT);
    }

    /** The GOTO branch after the keyword. */
    method Goto() returns (r: Outcome<ParseError>)
      requires Valid()
      modifies this
      ensures Valid() && Reached(ParseGoto(Tokens, old(State())), r)
    {
      LabelsGotoed := LabelsGotoed + {CurToken.text};
      r := Match(IDENT);
    }

    /** The LET branch after the keyword. */
    method Let() returns (r: Outcome<ParseError>)
      requires Valid()
      modifies this
      ensures Valid() && Reached(ParseLet(Tokens, old(State())), r)
    {
      Symbols := Symbols + {CurToken.text};
      r := Match(IDENT);
      if r.Fail? {
        return;
      }
      r := Match(EQ);
      if r.Fail? {
        return;
      }
      r := Expression();
    }

    /** The INPUT branch after the keyword. */
    method Input() returns (r: Outcome<ParseError>)
      requires Valid()
      modifies this
      ensures Valid() && Reached(ParseInput(Tokens, old(State())), r)
    {
      Symbols := Symbols + {CurToken.text};
      r := Match(IDENT);
    }

    /** `Program`: leading newlines, statements up to EOF, then every GOTO
        target is looked up among the declared labels. */
    method Program() returns (r: Outcome<ParseError>)
      requires Valid()
      modifies this
      ensures Valid() && Reached(ParseProgram(Tokens, old(State())), r)
    {
      SkipLeadingNewlines();
      r := Block(EOF);
      if r.Pass? {
        r := CheckLabels();
      }
    }

    /** The first loop of `Program`: skip the newlines before the first
        statement. */
    method SkipLeadingNewlines()
      requires Valid()
      modifies this`CurToken, this`PeekToken, this`Pulled
      ensures Valid() && State() == SkipNewlines(Tokens, old(State()))
    {
      while CheckToken(NEWLINE)
        invariant Valid() && SkipNewlines(Tokens, State()) == SkipNewlines(Tokens, old(State()))
        decreases Dist(Tokens, Pulled - 2)
      {
        NextToken();
      }
    }

    /** The final loop of `Program`: each name some GOTO jumps to must have
        been declared by a LABEL. */
    method CheckLabels() returns (r: Outcome<ParseError>)
      ensures r == Pass <==> LabelsGotoed <= LabelsDeclared
      ensures r.Fail? ==> r.error == UndeclaredLabel
    {
      var pending := LabelsGotoed;
      while pending != {}
        invariant pending <= LabelsGotoed
        invariant LabelsGotoed - pending <= LabelsDeclared
        decreases pending
      {
        var name :| name in pending;
        if name !in LabelsDeclared {
          return Fail(UndeclaredLabel);
        }
        pending := pending - {name};
      }
      return Pass;
    }
  }
}
