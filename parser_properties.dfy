/** What the grammar functions of `Parser` guarantee about the tables: the
    names a program assigns, declares and jumps to are read off its token
    stream, so the final label check of `Program` is a property of the tokens
    alone. */
module ParserProperties {
  import opened Results
  import opened Tokens
  import opened Parser

  // ---------------------------------------------------------------------
  // Names introduced in a range of tokens
  // ---------------------------------------------------------------------

  /** The texts of the tokens that follow a token of kind `k` at positions
      `a` up to (not including) `b`. */
  ghost function Names(toks: seq<Token>, a: int, b: int, k: TokenType): set<seq<Byte>>
    decreases b - a
  {
    if b <= a then {}
    else (if At(toks, a).kind == k then {At(toks, a + 1).text} else {}) + Names(toks, a + 1, b, k)
  }

  /** A name is in the range exactly when some position of the range holds
      `k` followed by that name. */
  lemma {:induction false} NamesMeaning(toks: seq<Token>, a: int, b: int, k: TokenType, x: seq<Byte>)
    ensures x in Names(toks, a, b, k) <==> exists i :: a <= i < b && At(toks, i).kind == k && At(toks, i + 1).text == x
    decreases b - a
  {
    if b > a {
      NamesMeaning(toks, a + 1, b, k, x);
    }
  }

  lemma {:induction false} NamesSplit(toks: seq<Token>, a: int, b: int, c: int, k: TokenType)
    requires a <= b <= c
    ensures Names(toks, a, c, k) == Names(toks, a, b, k) + Names(toks, b, c, k)
    decreases b - a
  {
    if a < b {
      NamesSplit(toks, a + 1, b, c, k);
    }
  }

  /** No token in the range starts a statement that adds to a table. */
  ghost predicate Plain(toks: seq<Token>, a: int, b: int) {
    forall i :: a <= i < b ==> !Declares(At(toks, i).kind)
  }

  // ---------------------------------------------------------------------
  // Expressions read only operands and operators
  // ---------------------------------------------------------------------

  /** The kinds an expression or comparison is made of. */
  predicate ExprKind(k: TokenType) {
    k == NUMBER || k == IDENT || k == PLUS || k == MINUS || k == ASTERISK || k == SLASH || IsRelational(k)
  }

  ghost predicate ExprRange(toks: seq<Token>, a: int, b: int) {
    forall i :: a <= i < b ==> ExprKind(At(toks, i).kind)
  }

  /** An operator at `a`, an operand up to `b`, and the rest up to `c`. */
  lemma HeadJoin(toks: seq<Token>, a: int, b: int, c: int)
    requires a < b <= c && ExprKind(At(toks, a).kind) && ExprRange(toks, a + 1, b) && ExprRange(toks, b, c)
    ensures ExprRange(toks, a, c)
  {
  }

  lemma UnaryRange(toks: seq<Token>, st: PState)
    requires ParseUnary(toks, st).Ok?
    ensures ExprRange(toks, st.pos, ParseUnary(toks, st).value.pos)
  {
    var k := Cur(toks, st).kind;
    if k == PLUS || k == MINUS {
      PrimaryRange(toks, Advance(st));
      assert ParseUnary(toks, st) == Ok(Advance(Advance(st)));
      HeadJoin(toks, st.pos, st.pos + 1, st.pos + 2);
    } else {
      PrimaryRange(toks, st);
      assert ParseUnary(toks, st) == Ok(Advance(st));
    }
  }

  lemma PrimaryRange(toks: seq<Token>, st: PState)
    requires ParsePrimary(toks, st).Ok?
    ensures ExprRange(toks, st.pos, st.pos + 1) && ExprRange(toks, st.pos + 1, st.pos + 1)
  {
    assert ExprKind(Cur(toks, st).kind);
  }

  /** A stretch of operands and operators followed by another. */
  lemma RangeJoin(toks: seq<Token>, a: int, b: int, c: int)
    requires a <= b <= c && ExprRange(toks, a, b) && ExprRange(toks, b, c)
    ensures ExprRange(toks, a, c)
  {
  }

  /** A term consumes only numbers, identifiers and operators. */
  lemma {:induction false} TermRange(toks: seq<Token>, st: PState)
    requires ParseTerm(toks, st).Ok?
    ensures ExprRange(toks, st.pos, ParseTerm(toks, st).value.pos)
    decreases Dist(toks, st.pos), 1
  {
    var u := ParseUnary(toks, st).value;
    UnaryRange(toks, st);
    TermTailRange(toks, u);
    RangeJoin(toks, st.pos, u.pos, TermTail(toks, u).value.pos);
  }

  lemma {:induction false} TermTailRange(toks: seq<Token>, st: PState)
    requires TermTail(toks, st).Ok?
    ensures ExprRange(toks, st.pos, TermTail(toks, st).value.pos)
    decreases Dist(toks, st.pos), 0
  {
    var k := Cur(toks, st).kind;
    if k == SLASH || k == ASTERISK {
      TermRange(toks, Advance(st));
      HeadJoin(toks, st.pos, st.pos + 1, ParseTerm(toks, Advance(st)).value.pos);
    }
  }

  /** An expression consumes only numbers, identifiers and operators. */
  lemma {:induction false} ExpressionRange(toks: seq<Token>, st: PState)
    requires ParseExpression(toks, st).Ok?
    ensures ExprRange(toks, st.pos, ParseExpression(toks, st).value.pos)
    decreases Dist(toks, st.pos), 1
  {
    var t := ParseTerm(toks, st).value;
    TermRange(toks, st);
    ExpressionTailRange(toks, t);
    RangeJoin(toks, st.pos, t.pos, ExpressionTail(toks, t).value.pos);
  }

  lemma {:induction false} ExpressionTailRange(toks: seq<Token>, st: PState)
    requires ExpressionTail(toks, st).Ok?
    ensures ExprRange(toks, st.pos, ExpressionTail(toks, st).value.pos)
    decreases Dist(toks, st.pos), 0
  {
    var k := Cur(toks, st).kind;
    if k == PLUS || k == MINUS {
      ExpressionRange(toks, Advance(st));
      HeadJoin(toks, st.pos, st.pos + 1, ParseExpression(toks, Advance(st)).value.pos);
    }
  }

  lemma {:induction false} ComparisonTailRange(toks: seq<Token>, st: PState)
    requires ComparisonTail(toks, st).Ok?
    ensures ExprRange(toks, st.pos, ComparisonTail(toks, st).value.pos)
    decreases Dist(toks, st.pos)
  {
    if IsRelational(Cur(toks, st).kind) {
      var s := ParseExpression(toks, Advance(st)).value;
      ExpressionRange(toks, Advance(st));
      ComparisonTailRange(toks, s);
      HeadJoin(toks, st.pos, s.pos, ComparisonTail(toks, s).value.pos);
    }
  }

  /** A comparison consumes only numbers, identifiers and operators. */
  lemma ComparisonRange(toks: seq<Token>, st: PState)
    requires ParseComparison(toks, st).Ok?
    ensures ExprRange(toks, st.pos, ParseComparison(toks, st).value.pos)
  {
    ExpressionRange(toks, st);
    ComparisonTailRange(toks, ParseExpression(toks, st).value);
  }

  // ---------------------------------------------------------------------
  // The tables hold exactly the names the statements introduce
  // ---------------------------------------------------------------------

  /** `st` with `name` added to the table a statement of kind `k` adds to:
      LET and INPUT assign, LABEL declares, GOTO jumps to the name. */
  function Introduce(st: PState, k: TokenType, name: seq<Byte>): PState {
    if k == LET || k == INPUT then st.(symbols := st.symbols + {name})
    else if k == LABEL then st.(declared := st.declared + {name})
    else if k == GOTO then st.(gotoed := st.gotoed + {name})
    else st
  }

  /** One token further: the keyword at the current position adds the text
      of the token after it. */
  function Next(toks: seq<Token>, st: PState): PState {
    Introduce(Advance(st), Cur(toks, st).kind, At(toks, st.pos + 1).text)
  }

  /** The state reached from `st` by moving over the tokens up to `b`, each
      keyword that adds to a table adding the text of the token after it. */
  ghost function Replay(toks: seq<Token>, st: PState, b: int): (r: PState)
    ensures st.pos <= b ==> r.pos == b
    decreases b - st.pos
  {
    if b <= st.pos then st
    else Replay(toks, Next(toks, st), b)
  }

  /** From `st` to `st'` the tables gained exactly what the statements in
      the tokens between them introduce. */
  ghost predicate Tables(toks: seq<Token>, st: PState, st': PState) {
    st.pos <= st'.pos && st' == Replay(toks, st, st'.pos)
  }

  lemma {:induction false} ReplayTrans(toks: seq<Token>, st: PState, b: int, c: int)
    requires st.pos <= b <= c
    ensures Replay(toks, Replay(toks, st, b), c) == Replay(toks, st, c)
    decreases b - st.pos
  {
    if st.pos < b {
      var s1 := Next(toks, st);
      ReplayFirst(toks, st, b, c);
      ReplayTrans(toks, s1, b, c);
    }
  }

  /** Replaying to either of two later positions starts with the same step. */
  lemma ReplayFirst(toks: seq<Token>, st: PState, b: int, c: int)
    requires st.pos < b <= c
    ensures Replay(toks, st, b) == Replay(toks, Next(toks, st), b) && Replay(toks, st, c) == Replay(toks, Next(toks, st), c)
  {
  }

  lemma TablesTrans(toks: seq<Token>, a: PState, b: PState, c: PState)
    requires Tables(toks, a, b) && Tables(toks, b, c)
    ensures Tables(toks, a, c)
  {
    ReplayTrans(toks, a, b.pos, c.pos);
  }

  lemma {:induction false} PlainReplay(toks: seq<Token>, st: PState, b: int)
    requires st.pos <= b && Plain(toks, st.pos, b)
    ensures Replay(toks, st, b) == st.(pos := b)
    decreases b - st.pos
  {
    if st.pos < b {
      PlainReplay(toks, Advance(st), b);
    }
  }

  /** Moving over tokens that declare nothing leaves the tables as they are. */
  lemma PlainTables(toks: seq<Token>, st: PState, st': PState)
    requires st' == st.(pos := st'.pos) && st.pos <= st'.pos && Plain(toks, st.pos, st'.pos)
    ensures Tables(toks, st, st')
  {
    PlainReplay(toks, st, st'.pos);
  }

  /** Operands and operators declare nothing. */
  lemma ExprPlain(toks: seq<Token>, a: int, b: int)
    requires ExprRange(toks, a, b)
    ensures Plain(toks, a, b)
  {
    forall i | a <= i < b
      ensures !Declares(At(toks, i).kind)
    {
      assert ExprKind(At(toks, i).kind);
    }
  }

  /** Moving over operands and operators leaves the tables as they are. */
  lemma RangeTables(toks: seq<Token>, st: PState, r: PState)
    requires Moved(toks, st, r) && ExprRange(toks, st.pos, r.pos)
    ensures Tables(toks, st, r)
  {
    ExprPlain(toks, st.pos, r.pos);
    PlainTables(toks, st, r);
  }

  lemma ComparisonTables(toks: seq<Token>, st: PState)
    requires ParseComparison(toks, st).Ok?
    ensures Tables(toks, st, ParseComparison(toks, st).value)
  {
    var r := ParseComparison(toks, st).value;
    ComparisonRange(toks, st);
    RangeTables(toks, st, r);
  }

  lemma ExpressionTables(toks: seq<Token>, st: PState)
    requires ParseExpression(toks, st).Ok?
    ensures Tables(toks, st, ParseExpression(toks, st).value)
  {
    var r := ParseExpression(toks, st).value;
    ExpressionRange(toks, st);
    RangeTables(toks, st, r);
  }

  lemma NewlineTables(toks: seq<Token>, st: PState)
    requires ParseNewline(toks, st).Ok?
    ensures Tables(toks, st, ParseNewline(toks, st).value)
  {
    PlainTables(toks, st, ParseNewline(toks, st).value);
  }

  /** A token that declares nothing, followed by a stretch with known tables. */
  lemma StepThenTables(toks: seq<Token>, st: PState, r: PState)
    requires !Declares(Cur(toks, st).kind) && Tables(toks, Advance(st), r)
    ensures Tables(toks, st, r)
  {
  }

  /** The first token of IF and of WHILE. */
  predicate Guarding(k: TokenType) {
    k == IF || k == WHILE
  }

  /** The guard of IF and WHILE declares nothing. */
  lemma GuardTables(toks: seq<Token>, st: PState, k: TokenType)
    requires Guarding(k) && ParseGuard(toks, st, GuardOpen(k)).Ok?
    ensures Tables(toks, st, ParseGuard(toks, st, GuardOpen(k)).value)
  {
    GuardThroughTables(toks, st, GuardOpen(k));
  }

  /** A comparison, the keyword `open` and newlines declare nothing. */
  lemma GuardThroughTables(toks: seq<Token>, st: PState, open: TokenType)
    requires open != EOF && !Declares(open)
    requires ParseGuard(toks, st, open).Ok?
    ensures Tables(toks, st, ParseGuard(toks, st, open).value)
  {
    var s1 := ParseComparison(toks, st).value;
    ComparisonTables(toks, st);
    NewlineTables(toks, Advance(s1));
    StepThenTables(toks, s1, ParseGuard(toks, st, open).value);
    TablesTrans(toks, st, s1, ParseGuard(toks, st, open).value);
  }

  /** IF and WHILE, from the keyword: the keyword and the guard declare
      nothing, and the body adds what its statements introduce. */
  lemma {:induction false} GuardedTables(toks: seq<Token>, st: PState, r: PState)
    requires Guarding(Cur(toks, st).kind)
    requires ParseGuarded(toks, Advance(st), GuardOpen(Cur(toks, st).kind), GuardClose(Cur(toks, st).kind)) == Ok(r)
    ensures Tables(toks, st, r)
    decreases Dist(toks, st.pos), 0
  {
    var k := Cur(toks, st).kind;
    var s := ParseGuard(toks, Advance(st), GuardOpen(k)).value;
    GuardTables(toks, Advance(st), k);
    BlockThenMatchTables(toks, s, k, r);
    GuardedGlue(toks, st, s, r);
  }

  /** The keyword, then a stretch, then another. */
  lemma GuardedGlue(toks: seq<Token>, st: PState, s: PState, r: PState)
    requires Guarding(Cur(toks, st).kind)
    requires Tables(toks, Advance(st), s) && Tables(toks, s, r)
    ensures Tables(toks, st, r)
  {
    TablesTrans(toks, Advance(st), s, r);
  }

  lemma {:induction false} BlockThenMatchTables(toks: seq<Token>, st: PState, k: TokenType, r: PState)
    requires Guarding(k) && BlockThenMatch(toks, st, GuardClose(k)) == Ok(r)
    ensures Tables(toks, st, r)
    decreases Dist(toks, st.pos), 5
  {
    var s := ParseBlock(toks, st, GuardClose(k)).value;
    BlockTables(toks, st, GuardClose(k));
    TablesTrans(toks, st, s, r);
  }

  /** One token that declares nothing adds nothing to the tables. */
  lemma StepTables(toks: seq<Token>, st: PState)
    requires !Declares(Cur(toks, st).kind)
    ensures Tables(toks, st, Advance(st))
  {
  }

  /** A keyword adds the text of the token after it to its table. */
  lemma HeadTables(toks: seq<Token>, st: PState)
    ensures Tables(toks, st, Next(toks, st))
  {
    var s1 := Next(toks, st);
    assert Replay(toks, s1, s1.pos) == s1;
  }

  /** PRINT: the keyword, then a string or an expression. */
  lemma PrintTables(toks: seq<Token>, st: PState)
    requires Cur(toks, st).kind == PRINT
    requires ParsePrint(toks, Advance(st)).Ok?
    ensures Tables(toks, st, ParsePrint(toks, Advance(st)).value)
  {
    var s1 := Advance(st);
    if Cur(toks, s1).kind == STRING {
      StepTables(toks, s1);
    } else {
      ExpressionTables(toks, s1);
    }
    StepThenTables(toks, st, ParsePrint(toks, s1).value);
  }

  /** LET: the name is assigned, then the identifier, '=' and the expression. */
  lemma LetTables(toks: seq<Token>, st: PState)
    requires Cur(toks, st).kind == LET
    requires ParseLet(toks, Advance(st)).Ok?
    ensures Tables(toks, st, ParseLet(toks, Advance(st)).value)
  {
    LetReduces(toks, st);
    LetOperandTables(toks, st);
  }

  /** A LET that parses has the head LET IDENT '=' and is its value's parse. */
  lemma LetReduces(toks: seq<Token>, st: PState)
    requires Cur(toks, st).kind == LET
    requires ParseLet(toks, Advance(st)).Ok?
    ensures LetHead(toks, st)
    ensures ParseLet(toks, Advance(st)) == ParseExpression(toks, LetOperand(toks, Advance(st)))
  {
    var s0 := Advance(st);
    LetShape(toks, s0);
    LetValue(toks, s0);
  }

  /** The tables after the value of a LET. */
  lemma LetOperandTables(toks: seq<Token>, st: PState)
    requires LetHead(toks, st)
    requires ParseExpression(toks, LetOperand(toks, Advance(st))).Ok?
    ensures Tables(toks, st, ParseExpression(toks, LetOperand(toks, Advance(st))).value)
  {
    var s3 := LetOperand(toks, Advance(st));
    ExpressionTables(toks, s3);
    LetGlue(toks, st, ParseExpression(toks, s3).value);
  }

  /** LET, an identifier and '=' from `st` on. */
  predicate LetHead(toks: seq<Token>, st: PState) {
    Cur(toks, st).kind == LET && Cur(toks, Advance(st)).kind == IDENT && At(toks, Advance(st).pos + 1).kind == EQ
  }

  /** Where the value of a LET starts: past the identifier and '=', the name
      already assigned. */
  function LetOperand(toks: seq<Token>, s0: PState): PState {
    Advance(Advance(s0.(symbols := s0.symbols + {Cur(toks, s0).text})))
  }

  /** A LET that parses has an identifier and '=' after its keyword. */
  lemma LetShape(toks: seq<Token>, s0: PState)
    requires ParseLet(toks, s0).Ok?
    ensures Cur(toks, s0).kind == IDENT && At(toks, s0.pos + 1).kind == EQ
  {
    var a := s0.(symbols := s0.symbols + {Cur(toks, s0).text});
    assert MatchKind(toks, a, IDENT).Ok? && MatchKind(toks, Advance(a), EQ).Ok?;
  }

  /** After an identifier and '=', a LET is its expression. */
  lemma LetValue(toks: seq<Token>, s0: PState)
    requires Cur(toks, s0).kind == IDENT && At(toks, s0.pos + 1).kind == EQ
    ensures ParseLet(toks, s0) == ParseExpression(toks, LetOperand(toks, s0))
  {
    var a := s0.(symbols := s0.symbols + {Cur(toks, s0).text});
    assert MatchKind(toks, a, IDENT) == Ok(Advance(a));
    assert MatchKind(toks, Advance(a), EQ) == Ok(Advance(Advance(a)));
  }

  lemma LetGlue(toks: seq<Token>, st: PState, r: PState)
    requires LetHead(toks, st)
    requires Tables(toks, LetOperand(toks, Advance(st)), r)
    ensures Tables(toks, st, r)
  {
    var s0 := Advance(st);
    assert At(toks, st.pos + 1).kind == IDENT && At(toks, st.pos + 2).kind == EQ;
    assert Introduce(s0, LET, At(toks, st.pos + 1).text) == s0.(symbols := s0.symbols + {Cur(toks, s0).text});
    LetReplay(toks, st, r.pos);
  }

  /** The tables after LET, the identifier and '=' are those after the
      keyword alone. */
  lemma LetReplay(toks: seq<Token>, st: PState, b: int)
    requires Cur(toks, st).kind == LET && At(toks, st.pos + 1).kind == IDENT && At(toks, st.pos + 2).kind == EQ
    requires st.pos + 3 <= b
    ensures var s1 := Introduce(Advance(st), LET, At(toks, st.pos + 1).text);
      Replay(toks, st, b) == Replay(toks, Advance(Advance(s1)), b)
  {
    var s1 := Introduce(Advance(st), LET, At(toks, st.pos + 1).text);
    assert Replay(toks, st, b) == Replay(toks, s1, b);
    PlainStep(toks, s1, b);
    PlainStep(toks, Advance(s1), b);
  }

  /** A token that declares nothing is passed over without a change to the tables. */
  lemma PlainStep(toks: seq<Token>, st: PState, b: int)
    requires st.pos < b && !Declares(Cur(toks, st).kind)
    ensures Replay(toks, st, b) == Replay(toks, Advance(st), b)
  {
  }

  /** LABEL, GOTO and INPUT, as parsed: the statement adds its name to its
      own table and to no other, and moves over the keyword and the name. */
  lemma DeclarationTables(toks: seq<Token>, st: PState)
    requires Cur(toks, st).kind == LABEL || Cur(toks, st).kind == GOTO || Cur(toks, st).kind == INPUT
    requires ParseSimple(toks, st).Ok?
    ensures ParseSimple(toks, st).value == Advance(Next(toks, st))
    ensures Tables(toks, st, ParseSimple(toks, st).value)
  {
    var k, s0 := Cur(toks, st).kind, Advance(st);
    if k == LABEL {
      assert ParseSimple(toks, st) == ParseLabel(toks, s0);
      LabelStep(toks, st);
    } else if k == GOTO {
      assert ParseSimple(toks, st) == ParseGoto(toks, s0);
      GotoStep(toks, st);
    } else {
      assert ParseSimple(toks, st) == ParseInput(toks, s0);
      InputStep(toks, st);
    }
    DeclarationReplay(toks, st, Advance(Next(toks, st)));
  }

  /** LABEL after its keyword reaches the reference step over keyword and name. */
  lemma LabelStep(toks: seq<Token>, st: PState)
    requires Cur(toks, st).kind == LABEL && ParseLabel(toks, Advance(st)).Ok?
    ensures ParseLabel(toks, Advance(st)) == Ok(Advance(Next(toks, st)))
    ensures Cur(toks, Advance(st)).kind == IDENT
  {
    var s0 := Advance(st);
    assert Next(toks, st) == s0.(declared := s0.declared + {Cur(toks, s0).text});
  }

  /** GOTO after its keyword reaches the reference step over keyword and name. */
  lemma GotoStep(toks: seq<Token>, st: PState)
    requires Cur(toks, st).kind == GOTO && ParseGoto(toks, Advance(st)).Ok?
    ensures ParseGoto(toks, Advance(st)) == Ok(Advance(Next(toks, st)))
    ensures Cur(toks, Advance(st)).kind == IDENT
  {
    var s0 := Advance(st);
    assert Next(toks, st) == s0.(gotoed := s0.gotoed + {Cur(toks, s0).text});
  }

  /** INPUT after its keyword reaches the reference step over keyword and name. */
  lemma InputStep(toks: seq<Token>, st: PState)
    requires Cur(toks, st).kind == INPUT && ParseInput(toks, Advance(st)).Ok?
    ensures ParseInput(toks, Advance(st)) == Ok(Advance(Next(toks, st)))
    ensures Cur(toks, Advance(st)).kind == IDENT
  {
    var s0 := Advance(st);
    assert Next(toks, st) == s0.(symbols := s0.symbols + {Cur(toks, s0).text});
  }

  /** The reference step over a declaring keyword and the identifier after it. */
  lemma DeclarationReplay(toks: seq<Token>, st: PState, r: PState)
    requires Cur(toks, st).kind == LABEL || Cur(toks, st).kind == GOTO || Cur(toks, st).kind == INPUT
    requires r == Advance(Next(toks, st))
    requires Cur(toks, Advance(st)).kind == IDENT
    ensures Tables(toks, st, r)
  {
    var s1 := Next(toks, st);
    HeadTables(toks, st);
    StepTables(toks, s1);
    TablesTrans(toks, st, s1, r);
  }

  /** The statements without a body. */
  lemma SimpleTables(toks: seq<Token>, st: PState)
    requires ParseSimple(toks, st).Ok?
    ensures Tables(toks, st, ParseSimple(toks, st).value)
  {
    var k := Cur(toks, st).kind;
    if k == PRINT {
      PrintTables(toks, st);
    } else if k == LET {
      LetTables(toks, st);
    } else {
      DeclarationTables(toks, st);
    }
  }

  /** A statement without its newline, by its first token. */
  lemma {:induction false} BodyTables(toks: seq<Token>, st: PState)
    requires StatementBody(toks, st).Ok?
    ensures Tables(toks, st, StatementBody(toks, st).value)
    decreases Dist(toks, st.pos), 1
  {
    var k := Cur(toks, st).kind;
    if k == IF || k == WHILE {
      GuardedTables(toks, st, StatementBody(toks, st).value);
    } else {
      SimpleTables(toks, st);
    }
  }

  lemma {:induction false} StatementTables(toks: seq<Token>, st: PState)
    requires ParseStatement(toks, st).Ok?
    ensures Tables(toks, st, ParseStatement(toks, st).value)
    decreases Dist(toks, st.pos), 3
  {
    var s := StatementBody(toks, st).value;
    BodyTables(toks, st);
    NewlineTables(toks, s);
    TablesTrans(toks, st, s, ParseStatement(toks, st).value);
  }

  /** A block's statements add to each table exactly what they introduce. */
  lemma {:induction false} BlockTables(toks: seq<Token>, st: PState, end: TokenType)
    requires ParseBlock(toks, st, end).Ok?
    ensures Tables(toks, st, ParseBlock(toks, st, end).value)
    decreases Dist(toks, st.pos), 4
  {
    if Cur(toks, st).kind != end {
      var s := ParseStatement(toks, st).value;
      StatementTables(toks, st);
      BlockTables(toks, s, end);
      TablesTrans(toks, st, s, ParseBlock(toks, st, end).value);
    }
  }

  // ---------------------------------------------------------------------
  // The tables read off the tokens, and the label check
  // ---------------------------------------------------------------------

  /** A run of NEWLINE tokens introduces no name. */
  lemma {:induction false} NewlinesNoNames(toks: seq<Token>, a: int, b: int, k: TokenType)
    requires k != NEWLINE && forall i :: a <= i < b ==> At(toks, i).kind == NEWLINE
    ensures Names(toks, a, b, k) == {}
    decreases b - a
  {
    if a < b {
      NewlinesNoNames(toks, a + 1, b, k);
    }
  }

  /** The text after position `i` when the token there has kind `k`. */
  ghost function NameAt(toks: seq<Token>, i: int, k: TokenType): set<seq<Byte>> {
    if At(toks, i).kind == k then {At(toks, i + 1).text} else {}
  }

  /** One step of `Replay`: what the token at `st.pos` adds to each table. */
  lemma ReplayStep(toks: seq<Token>, st: PState, b: int)
    requires st.pos < b
    ensures var s1 := Next(toks, st);
      Replay(toks, st, b) == Replay(toks, s1, b) &&
      s1.declared == st.declared + NameAt(toks, st.pos, LABEL) &&
      s1.gotoed == st.gotoed + NameAt(toks, st.pos, GOTO) &&
      s1.symbols == st.symbols + NameAt(toks, st.pos, LET) + NameAt(toks, st.pos, INPUT)
  {
  }

  /** `Names` by its first position. */
  lemma NamesHead(toks: seq<Token>, a: int, b: int, k: TokenType)
    requires a < b
    ensures Names(toks, a, b, k) == NameAt(toks, a, k) + Names(toks, a + 1, b, k)
  {
  }

  /** Replaying declares exactly the names after the LABEL tokens. */
  lemma {:induction false} ReplayDeclared(toks: seq<Token>, st: PState, b: int)
    requires st.pos <= b
    ensures Replay(toks, st, b).declared == st.declared + Names(toks, st.pos, b, LABEL)
    decreases b - st.pos
  {
    if st.pos < b {
      var s1 := Next(toks, st);
      ReplayStep(toks, st, b);
      ReplayDeclared(toks, s1, b);
      NamesHead(toks, st.pos, b, LABEL);
      UnionAssoc(st.declared, NameAt(toks, st.pos, LABEL), Names(toks, st.pos + 1, b, LABEL));
    }
  }

  /** Replaying records exactly the names after the GOTO tokens. */
  lemma {:induction false} ReplayGotoed(toks: seq<Token>, st: PState, b: int)
    requires st.pos <= b
    ensures Replay(toks, st, b).gotoed == st.gotoed + Names(toks, st.pos, b, GOTO)
    decreases b - st.pos
  {
    if st.pos < b {
      var s1 := Next(toks, st);
      ReplayStep(toks, st, b);
      ReplayGotoed(toks, s1, b);
      NamesHead(toks, st.pos, b, GOTO);
      UnionAssoc(st.gotoed, NameAt(toks, st.pos, GOTO), Names(toks, st.pos + 1, b, GOTO));
    }
  }

  /** Replaying assigns exactly the names after the LET and INPUT tokens. */
  lemma {:induction false} ReplaySymbols(toks: seq<Token>, st: PState, b: int)
    requires st.pos <= b
    ensures Replay(toks, st, b).symbols ==
      st.symbols + (Names(toks, st.pos, b, LET) + Names(toks, st.pos, b, INPUT))
    decreases b - st.pos
  {
    if st.pos < b {
      var s1 := Next(toks, st);
      ReplayStep(toks, st, b);
      ReplaySymbols(toks, s1, b);
      NamesHead(toks, st.pos, b, LET);
      NamesHead(toks, st.pos, b, INPUT);
      SymbolsGlue(Replay(toks, st, b).symbols, s1.symbols, st.symbols,
        NameAt(toks, st.pos, LET), NameAt(toks, st.pos, INPUT),
        Names(toks, st.pos + 1, b, LET), Names(toks, st.pos + 1, b, INPUT),
        Names(toks, st.pos, b, LET), Names(toks, st.pos, b, INPUT));
    }
  }

  /** The step of `ReplaySymbols` over plain sets: the table after the first
      token, grown by the rest, is the first table grown by all. */
  lemma SymbolsGlue<T>(r: set<T>, s1: set<T>, s: set<T>, al: set<T>, ai: set<T>,
                       rl: set<T>, ri: set<T>, l: set<T>, i: set<T>)
    requires r == s1 + (rl + ri) && s1 == s + al + ai && l == al + rl && i == ai + ri
    ensures r == s + (l + i)
  {
    UnionShuffle(s, al, ai, rl, ri);
  }

  lemma UnionAssoc<T>(a: set<T>, b: set<T>, c: set<T>)
    ensures a + b + c == a + (b + c)
  {
  }

  lemma UnionShuffle<T>(a: set<T>, b: set<T>, c: set<T>, d: set<T>, e: set<T>)
    ensures a + b + c + (d + e) == a + (b + d + (c + e))
  {
  }

  /** The tables only grow: what a stretch of tokens adds is never taken away. */
  lemma TablesGrow(toks: seq<Token>, st: PState, st': PState)
    requires Tables(toks, st, st')
    ensures st.symbols <= st'.symbols && st.declared <= st'.declared && st.gotoed <= st'.gotoed
  {
    ReplayDeclared(toks, st, st'.pos);
    ReplayGotoed(toks, st, st'.pos);
    ReplaySymbols(toks, st, st'.pos);
  }

  /** The symbols, labels and GOTO targets a program has after its statements
      are those introduced anywhere among its tokens. */
  lemma ProgramTables(toks: seq<Token>, b: PState)
    requires ParseBlock(toks, SkipNewlines(toks, Start), EOF) == Ok(b)
    ensures b.declared == Names(toks, 0, b.pos, LABEL)
    ensures b.gotoed == Names(toks, 0, b.pos, GOTO)
    ensures b.symbols == Names(toks, 0, b.pos, LET) + Names(toks, 0, b.pos, INPUT)
  {
    var s0 := SkipNewlines(toks, Start);
    BlockTables(toks, s0, EOF);
    StartNames(toks, s0, b.pos);
  }

  /** From the start to the first statement and on to `b`. */
  lemma StartNames(toks: seq<Token>, s0: PState, b: int)
    requires s0 == SkipNewlines(toks, Start) && s0.pos <= b
    ensures Replay(toks, s0, b).declared == Names(toks, 0, b, LABEL)
    ensures Replay(toks, s0, b).gotoed == Names(toks, 0, b, GOTO)
    ensures Replay(toks, s0, b).symbols == Names(toks, 0, b, LET) + Names(toks, 0, b, INPUT)
  {
    ReplayDeclared(toks, s0, b);
    ReplayGotoed(toks, s0, b);
    ReplaySymbols(toks, s0, b);
    LeadingNames(toks, s0, b, LABEL);
    LeadingNames(toks, s0, b, GOTO);
    LeadingNames(toks, s0, b, LET);
    LeadingNames(toks, s0, b, INPUT);
  }

  /** The newlines before the first statement introduce no name. */
  lemma LeadingNames(toks: seq<Token>, s0: PState, b: int, k: TokenType)
    requires s0 == SkipNewlines(toks, Start) && s0.pos <= b && k != NEWLINE
    ensures Names(toks, 0, b, k) == Names(toks, s0.pos, b, k)
  {
    NewlinesNoNames(toks, 0, s0.pos, k);
    NamesSplit(toks, 0, s0.pos, b, k);
  }

  /** Every GOTO among the tokens from `a` to `b` names a label that some
      LABEL among them declares, before or after the GOTO. */
  ghost predicate GotosResolved(toks: seq<Token>, a: int, b: int) {
    forall i :: a <= i < b && At(toks, i).kind == GOTO ==>
      exists j :: a <= j < b && At(toks, j).kind == LABEL && At(toks, j + 1).text == At(toks, i + 1).text
  }

  lemma ResolvedMeaning(toks: seq<Token>, a: int, b: int)
    ensures Names(toks, a, b, GOTO) <= Names(toks, a, b, LABEL) <==> GotosResolved(toks, a, b)
  {
    if Names(toks, a, b, GOTO) <= Names(toks, a, b, LABEL) {
      forall i | a <= i < b && At(toks, i).kind == GOTO
        ensures exists j :: a <= j < b && At(toks, j).kind == LABEL && At(toks, j + 1).text == At(toks, i + 1).text
      {
        NamesMeaning(toks, a, b, GOTO, At(toks, i + 1).text);
        NamesMeaning(toks, a, b, LABEL, At(toks, i + 1).text);
      }
    }
    if GotosResolved(toks, a, b) {
      forall x | x in Names(toks, a, b, GOTO)
        ensures x in Names(toks, a, b, LABEL)
      {
        NamesMeaning(toks, a, b, GOTO, x);
        NamesMeaning(toks, a, b, LABEL, x);
      }
    }
  }

  /** A program is accepted exactly when its statements parse up to EOF and
      each GOTO jumps to a name that a LABEL anywhere in the program
      declares: a forward jump is as good as a backward one. */
  lemma ProgramAccepts(toks: seq<Token>)
    ensures var s := ParseBlock(toks, SkipNewlines(toks, Start), EOF);
      ParseProgram(toks, Start).Ok? <==> s.Ok? && GotosResolved(toks, 0, s.value.pos)
  {
    var s := ParseBlock(toks, SkipNewlines(toks, Start), EOF);
    if s.Ok? {
      ProgramTables(toks, s.value);
      ResolvedMeaning(toks, 0, s.value.pos);
    }
  }

  // ---------------------------------------------------------------------
  // The rules each statement checks
  // ---------------------------------------------------------------------

  /** LABEL fails exactly on a name declared before, whether or not any GOTO
      uses it; otherwise the name is declared and nothing else changes. */
  lemma LabelDeclaredOnce(toks: seq<Token>, st: PState)
    ensures ParseLabel(toks, st) == Err(DuplicateLabel(Cur(toks, st).text)) <==> Cur(toks, st).text in st.declared
    ensures ParseLabel(toks, st).Ok? ==>
      ParseLabel(toks, st).value == Advance(st.(declared := st.declared + {Cur(toks, st).text}))
  {
  }

  /** A LET or INPUT statement that parses adds its target to the symbols,
      and changes no other table. */
  lemma AssignAdds(toks: seq<Token>, st: PState)
    requires Cur(toks, st).kind == LET || Cur(toks, st).kind == INPUT
    requires ParseSimple(toks, st).Ok?
    ensures var r := ParseSimple(toks, st).value;
      r.symbols == st.symbols + {At(toks, st.pos + 1).text} &&
      r.declared == st.declared && r.gotoed == st.gotoed
  {
    var s0 := Advance(st);
    if Cur(toks, st).kind == LET {
      assert ParseSimple(toks, st) == ParseLet(toks, s0);
      LetAdds(toks, s0);
    } else {
      assert ParseSimple(toks, st) == ParseInput(toks, s0);
      InputAdds(toks, s0);
    }
  }

  /** INPUT after its keyword adds its target to the symbols, and only that. */
  lemma InputAdds(toks: seq<Token>, s0: PState)
    requires ParseInput(toks, s0).Ok?
    ensures ParseInput(toks, s0).value == ParseInput(toks, s0).value.(symbols := s0.symbols + {Cur(toks, s0).text}, declared := s0.declared, gotoed := s0.gotoed)
  {
  }

  /** LET after its keyword adds its target to the symbols, and only that. */
  lemma LetAdds(toks: seq<Token>, s0: PState)
    requires ParseLet(toks, s0).Ok?
    ensures ParseLet(toks, s0).value == ParseLet(toks, s0).value.(symbols := s0.symbols + {Cur(toks, s0).text}, declared := s0.declared, gotoed := s0.gotoed)
  {
    LetShape(toks, s0);
    LetValue(toks, s0);
    var e := LetOperand(toks, s0);
    assert e.symbols == s0.symbols + {Cur(toks, s0).text} && e.declared == s0.declared && e.gotoed == s0.gotoed;
  }

  /** A LET or INPUT whose target is already assigned leaves the symbols
      as they were: the name is not entered twice. */
  lemma AssignIdempotent(toks: seq<Token>, st: PState)
    requires Cur(toks, st).kind == LET || Cur(toks, st).kind == INPUT
    requires ParseSimple(toks, st).Ok? && At(toks, st.pos + 1).text in st.symbols
    ensures ParseSimple(toks, st).value.symbols == st.symbols
  {
    AssignAdds(toks, st);
  }

  /** LET assigns its target before its value is parsed, so `LET a = a`
      (followed by anything but an operator) is accepted even when `a` was
      never assigned. */
  lemma LetSelfReference(toks: seq<Token>, st: PState)
    requires Cur(toks, st).kind == IDENT && At(toks, st.pos + 1).kind == EQ
    requires At(toks, st.pos + 2) == Cur(toks, st)
    requires At(toks, st.pos + 3).kind !in {PLUS, MINUS, ASTERISK, SLASH}
    ensures ParseLet(toks, st) == Ok(PState(st.pos + 3, st.symbols + {Cur(toks, st).text}, st.declared, st.gotoed))
  {
    LetValue(toks, st);
    var e := LetOperand(toks, st);
    assert e == PState(st.pos + 2, st.symbols + {Cur(toks, st).text}, st.declared, st.gotoed);
    LoneOperand(toks, e);
  }

  /** A number, or an assigned identifier, not followed by an operator is an
      expression by itself. */
  lemma LoneOperand(toks: seq<Token>, e: PState)
    requires ParsePrimary(toks, e).Ok?
    requires At(toks, e.pos + 1).kind !in {PLUS, MINUS, ASTERISK, SLASH}
    ensures ParseExpression(toks, e) == Ok(Advance(e))
  {
    assert ParseUnary(toks, e) == Ok(Advance(e));
    assert TermTail(toks, Advance(e)) == Ok(Advance(e));
    assert ExpressionTail(toks, Advance(e)) == Ok(Advance(e));
  }

  /** A comparison that parses holds a relational operator, right after its
      first expression. */
  lemma ComparisonHasOperator(toks: seq<Token>, st: PState)
    requires ParseComparison(toks, st).Ok?
    ensures exists i :: st.pos <= i < ParseComparison(toks, st).value.pos && IsRelational(At(toks, i).kind)
  {
    var s := ParseExpression(toks, st).value;
    assert IsRelational(At(toks, s.pos).kind);
  }

  /** Comparisons chain: `a < b < c`, three expressions joined by two
      relational operators, is one comparison, ending where `c` ends. */
  lemma ChainedComparison(toks: seq<Token>, st: PState, s1: PState, s2: PState, s3: PState)
    requires ParseExpression(toks, st) == Ok(s1) && IsRelational(Cur(toks, s1).kind)
    requires ParseExpression(toks, Advance(s1)) == Ok(s2) && IsRelational(Cur(toks, s2).kind)
    requires ParseExpression(toks, Advance(s2)) == Ok(s3) && !IsRelational(Cur(toks, s3).kind)
    ensures ParseComparison(toks, st) == Ok(s3)
  {
    assert ComparisonTail(toks, s3) == Ok(s3);
    assert ComparisonTail(toks, s2) == Ok(s3);
  }

  /** An expression not followed by a relational operator is no comparison:
      the comparison fails naming the token found instead. */
  lemma ComparisonNeedsOperator(toks: seq<Token>, st: PState, s: PState)
    requires ParseExpression(toks, st) == Ok(s) && !IsRelational(Cur(toks, s).kind)
    ensures ParseComparison(toks, st) == Err(NoComparisonOperator(Cur(toks, s).text))
  {
  }

  /** The bodies of IF and WHILE may be empty: a guard followed at once by
      the closing keyword is a whole IF or WHILE. */
  lemma EmptyBodyAccepted(toks: seq<Token>, st: PState, s: PState)
    requires Guarding(Cur(toks, st).kind)
    requires ParseGuard(toks, Advance(st), GuardOpen(Cur(toks, st).kind)) == Ok(s)
    requires Cur(toks, s).kind == GuardClose(Cur(toks, st).kind)
    ensures StatementBody(toks, st) == Ok(Advance(s))
  {
    var k := Cur(toks, st).kind;
    assert ParseBlock(toks, s, GuardClose(k)) == Ok(s);
    assert BlockThenMatch(toks, s, GuardClose(k)) == Ok(Advance(s));
    assert ParseGuarded(toks, Advance(st), GuardOpen(k), GuardClose(k)) == Ok(Advance(s));
  }

  /** A statement never removes a name from any table. */
  lemma StatementGrows(toks: seq<Token>, st: PState)
    requires ParseStatement(toks, st).Ok?
    ensures var r := ParseStatement(toks, st).value;
      st.symbols <= r.symbols && st.declared <= r.declared && st.gotoed <= r.gotoed
  {
    StatementTables(toks, st);
    TablesGrow(toks, st, ParseStatement(toks, st).value);
  }
}
