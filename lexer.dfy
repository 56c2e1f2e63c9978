/** The lexer of lexer/lexer.go: a byte cursor over the source text with a
    trailing newline appended, producing one classified token per call of
    `GetToken`.

    The first half of the module specifies scanning as pure functions of the
    source and a position (`ScanToken`); the class `Lexer` then carries the
    cursor state the source mutates, and each of its methods is proved to
    move the cursor as those functions say. */
module Lexer {
  import opened Results
  import opened Tokens

  /** The reasons the lexer aborts. */
  datatype LexError =
    | ExpectedNotEq(got: Byte)   // "Expected !=, got !" followed by the peeked byte
    | IllegalCharInString        // CR, LF, tab, backslash or '%' inside a string
    | IllegalCharInNumber        // a '.' not followed by a digit
    | UnknownToken(c: Byte)      // a byte that starts no token

  /** Source text as the lexer holds it: it always ends in a newline. */
  predicate EndsInNewline(src: seq<Byte>) {
    |src| > 0 && src[|src| - 1] == '\n'
  }

  /** The byte the cursor reads at `pos`: NUL past either end of the source. */
  function CharAt(src: seq<Byte>, pos: int): Byte {
    if 0 <= pos < |src| then src[pos] else NUL
  }

  /** Bytes that may not appear inside a string literal. */
  predicate IllegalInString(c: Byte) {
    c == '\r' || c == '\n' || c == '\t' || c == '\\' || c == '%'
  }

  /** The runs of bytes the lexer's loops step over. */
  datatype Run = Blank | Digits | Word | CommentBody | StringBody

  predicate InRun(run: Run, c: Byte) {
    match run
    case Blank => c == ' ' || c == '\t' || c == '\r'
    case Digits => IsDigit(c)
    case Word => IsLetter(c) || IsDigit(c)
    case CommentBody => c != '\n'
    case StringBody => c != '"' && !IllegalInString(c)
  }

  /** A run from `i` is sure to stop: either NUL (read past the end) ends it,
      or it cannot cross the newline that ends the source and starts inside it. */
  predicate RunStops(src: seq<Byte>, i: int, run: Run) {
    !InRun(run, NUL) || (EndsInNewline(src) && !InRun(run, '\n') && 0 <= i < |src|)
  }

  /** The first position at or after `i` whose byte is not in the run. */
  function RunEnd(src: seq<Byte>, i: int, run: Run): (r: int)
    requires RunStops(src, i, run)
    ensures i <= r
    ensures !InRun(run, CharAt(src, r))
    ensures i <= |src| ==> r <= |src|
    ensures InRun(run, NUL) ==> r < |src|
    decreases |src| - i
  {
    if InRun(run, CharAt(src, i)) then RunEnd(src, i + 1, run) else i
  }

  /** Every byte the run passes over belongs to it, so `RunEnd` is the first
      position from `i` whose byte does not. */
  lemma {:induction false} RunEndInRun(src: seq<Byte>, i: int, run: Run)
    requires RunStops(src, i, run)
    ensures forall k :: i <= k < RunEnd(src, i, run) ==> InRun(run, CharAt(src, k))
    decreases |src| - i
  {
    if InRun(run, CharAt(src, i)) {
      RunEndInRun(src, i + 1, run);
    }
  }

  /** Where the next token starts when scanning from `pos`: after a run of
      blanks and then, if a '#' starts there, after the comment up to (not
      including) the end of the line. */
  function TokenStart(src: seq<Byte>, pos: int): (q: int)
    requires EndsInNewline(src) && 0 <= pos
    ensures pos <= q
    ensures CharAt(src, q) == '\n' || (!InRun(Blank, CharAt(src, q)) && CharAt(src, q) != '#')
  {
    var p := RunEnd(src, pos, Blank);
    if CharAt(src, p) == '#' then RunEnd(src, p, CommentBody) else p
  }

  /** A token and the cursor position just past it. */
  datatype Scanned = Scanned(token: Token, next: int)

  /** `=`, `>` or `<` at `q`: the two-byte form when a '=' follows, else the one-byte form. */
  function ScanCompound(src: seq<Byte>, q: int, one: TokenType, two: TokenType): Scanned {
    if CharAt(src, q + 1) == '=' then Scanned(Token([CharAt(src, q), '='], two), q + 2)
    else Scanned(Token([CharAt(src, q)], one), q + 1)
  }

  /** A string literal whose opening quote is at `q`. */
  function ScanString(src: seq<Byte>, q: int): Result<Scanned, LexError>
    requires EndsInNewline(src) && 0 <= q && CharAt(src, q) == '"'
  {
    var e := RunEnd(src, q + 1, StringBody);
    if CharAt(src, e) == '"' then Ok(Scanned(Token(src[q + 1..e], STRING), e + 1))
    else Err(IllegalCharInString)
  }

  /** A number whose first digit is at `q`: digits, then optionally a '.' that
      must be followed by at least one digit. */
  function ScanNumber(src: seq<Byte>, q: int): Result<Scanned, LexError>
    requires 0 <= q && IsDigit(CharAt(src, q))
  {
    var d := RunEnd(src, q + 1, Digits);
    if CharAt(src, d) == '.' then
      if !IsDigit(CharAt(src, d + 1)) then Err(IllegalCharInNumber)
      else
        var e := RunEnd(src, d + 1, Digits);
        Ok(Scanned(Token(src[q..e], NUMBER), e))
    else
      Ok(Scanned(Token(src[q..d], NUMBER), d))
  }

  /** A word whose first letter is at `q`: a keyword if the table has it, else an identifier. */
  function ScanWord(src: seq<Byte>, q: int): Scanned
    requires 0 <= q && IsLetter(CharAt(src, q))
  {
    var w := RunEnd(src, q + 1, Word);
    var text := src[q..w];
    var keyword := IsKeyword(text);
    Scanned(Token(text, if keyword == UNKNOWN then IDENT else keyword), w)
  }

  /** The token that starts at `q`, classified by its first byte (and, for
      the operators, the byte after it). */
  function ScanAt(src: seq<Byte>, q: int): Result<Scanned, LexError>
    requires EndsInNewline(src) && 0 <= q
  {
    var c := CharAt(src, q);
    if c == '+' then Ok(Scanned(Token([c], PLUS), q + 1))
    else if c == '-' then Ok(Scanned(Token([c], MINUS), q + 1))
    else if c == '*' then Ok(Scanned(Token([c], ASTERISK), q + 1))
    else if c == '/' then Ok(Scanned(Token([c], SLASH), q + 1))
    else if c == '=' then Ok(ScanCompound(src, q, EQ, EQEQ))
    else if c == '>' then Ok(ScanCompound(src, q, GT, GTEQ))
    else if c == '<' then Ok(ScanCompound(src, q, LT, LTEQ))
    else if c == '!' then
      if CharAt(src, q + 1) == '=' then Ok(Scanned(Token("!=", NOTEQ), q + 2))
      else Err(ExpectedNotEq(CharAt(src, q + 1)))
    else if c == '"' then ScanString(src, q)
    else if IsDigit(c) then ScanNumber(src, q)
    else if IsLetter(c) then Ok(ScanWord(src, q))
    else if c == '\n' then Ok(Scanned(Token("\n", NEWLINE), q + 1))
    else if c == NUL then Ok(Scanned(Token([NUL], EOF), q + 1))
    else Err(UnknownToken(c))
  }

  /** What one `GetToken` produces when the cursor is at `pos`. Every token
      ends strictly after the position scanning started from, and every token
      but EOF ends within the source. */
  function ScanToken(src: seq<Byte>, pos: int): (r: Result<Scanned, LexError>)
    requires EndsInNewline(src) && 0 <= pos
    ensures r.Ok? ==> pos < r.value.next
    ensures r.Ok? && r.value.token.kind != EOF ==> r.value.next <= |src|
  {
    ScanAt(src, TokenStart(src, pos))
  }

  // ---------------------------------------------------------------------
  // Properties of scanning
  // ---------------------------------------------------------------------

  /** The text a token was scanned from: a string literal's quotes are not
      part of its token text. */
  function Lexeme(t: Token): seq<Byte> {
    if t.kind == STRING then ['"'] + t.text + ['"'] else t.text
  }

  /** The bytes from `pos` to `q` are what the lexer skips: blanks, then
      possibly a comment that runs to the end of the line. */
  predicate Skippable(src: seq<Byte>, pos: int, q: int) {
    pos <= q &&
    ((forall k :: pos <= k < q ==> InRun(Blank, CharAt(src, k))) ||
     (exists p :: pos <= p < q && CharAt(src, p) == '#' && CharAt(src, q) == '\n' &&
        (forall k :: pos <= k < p ==> InRun(Blank, CharAt(src, k))) &&
        (forall k :: p < k < q ==> CharAt(src, k) != '\n')))
  }

  /** What `TokenStart` steps over is skippable. */
  lemma TokenStartSkips(src: seq<Byte>, pos: int)
    requires EndsInNewline(src) && 0 <= pos
    ensures Skippable(src, pos, TokenStart(src, pos))
  {
    var p := RunEnd(src, pos, Blank);
    RunEndInRun(src, pos, Blank);
    if CharAt(src, p) == '#' {
      var q := TokenStart(src, pos);
      RunEndInRun(src, p + 1, CommentBody);
      assert pos <= p < q && CharAt(src, q) == '\n';
      assert forall k :: p < k < q ==> InRun(CommentBody, CharAt(src, k));
    }
  }

  /** A string literal covers its quotes and the bytes between them. */
  lemma StringCovers(src: seq<Byte>, q: int)
    requires EndsInNewline(src) && 0 <= q && CharAt(src, q) == '"'
    requires ScanString(src, q).Ok?
    ensures var sc := ScanString(src, q).value;
      q < sc.next <= |src| && src[q..sc.next] == ['"'] + sc.token.text + ['"']
  {
    var e := RunEnd(src, q + 1, StringBody);
    assert src[q..e + 1] == ['"'] + src[q + 1..e] + ['"'];
  }

  /** An operator of one or two bytes covers exactly its text. */
  lemma CompoundCovers(src: seq<Byte>, q: int, one: TokenType, two: TokenType)
    requires EndsInNewline(src) && 0 <= q && CharAt(src, q) != '\n' && CharAt(src, q) != NUL
    ensures var sc := ScanCompound(src, q, one, two);
      q < sc.next <= |src| && src[q..sc.next] == sc.token.text
  {
    if CharAt(src, q + 1) == '=' {
      assert src[q..q + 2] == [src[q], src[q + 1]];
    } else {
      assert src[q..q + 1] == [src[q]];
    }
  }

  /** A one-byte token covers its byte. */
  lemma ByteCovers(src: seq<Byte>, q: int)
    requires 0 <= q < |src|
    ensures src[q..q + 1] == [CharAt(src, q)]
  {
  }

  /** A successful scan at `q` covers exactly the token's lexeme. */
  lemma ScanAtCovers(src: seq<Byte>, q: int)
    requires EndsInNewline(src) && 0 <= q
    requires ScanAt(src, q).Ok?
    ensures var sc := ScanAt(src, q).value;
      if sc.token.kind == EOF then CharAt(src, q) == NUL && sc.next == q + 1
      else q < sc.next <= |src| && src[q..sc.next] == Lexeme(sc.token)
  {
    var c := CharAt(src, q);
    if c == '"' {
      StringCovers(src, q);
    } else if c == '=' {
      CompoundCovers(src, q, EQ, EQEQ);
    } else if c == '>' {
      CompoundCovers(src, q, GT, GTEQ);
    } else if c == '<' {
      CompoundCovers(src, q, LT, LTEQ);
    } else if c == '!' {
      CompoundCovers(src, q, EQ, NOTEQ);
    } else if c == '+' || c == '-' || c == '*' || c == '/' || c == '\n' {
      ByteCovers(src, q);
    }
  }

  /** Scanning partitions the source: a token is preceded only by skippable
      bytes, and a non-EOF token's lexeme is exactly the slice of the source
      it covers; EOF is produced at a NUL and consumes one position. */
  lemma ScanPartitions(src: seq<Byte>, pos: int)
    requires EndsInNewline(src) && 0 <= pos
    ensures var q := TokenStart(src, pos);
      Skippable(src, pos, q) &&
      (ScanToken(src, pos).Ok? ==>
        var sc := ScanToken(src, pos).value;
        if sc.token.kind == EOF then CharAt(src, q) == NUL && sc.next == q + 1
        else q < sc.next <= |src| && src[q..sc.next] == Lexeme(sc.token))
  {
    TokenStartSkips(src, pos);
    if ScanToken(src, pos).Ok? {
      ScanAtCovers(src, TokenStart(src, pos));
    }
  }

  /** `=`, `>`, `<` and `!`: a following '=' makes the two-byte operator, else
      the one-byte one; a '!' not followed by '=' is an error. */
  lemma OperatorsLookAheadOneByte(src: seq<Byte>, pos: int)
    requires EndsInNewline(src) && 0 <= pos
    ensures var q := TokenStart(src, pos);
      var c := CharAt(src, q);
      var eq := CharAt(src, q + 1) == '=';
      (c == '=' ==>
        ScanToken(src, pos) == (if eq then Ok(Scanned(Token("==", EQEQ), q + 2)) else Ok(Scanned(Token("=", EQ), q + 1)))) &&
      (c == '>' ==>
        ScanToken(src, pos) == (if eq then Ok(Scanned(Token(">=", GTEQ), q + 2)) else Ok(Scanned(Token(">", GT), q + 1)))) &&
      (c == '<' ==>
        ScanToken(src, pos) == (if eq then Ok(Scanned(Token("<=", LTEQ), q + 2)) else Ok(Scanned(Token("<", LT), q + 1)))) &&
      (c == '!' ==>
        ScanToken(src, pos) == (if eq then Ok(Scanned(Token("!=", NOTEQ), q + 2)) else Err(ExpectedNotEq(CharAt(src, q + 1)))))
  {
  }

  /** A string literal whose opening quote is at `q` succeeds exactly when a
      closing quote comes before any illegal byte; its text is everything
      strictly between the quotes, and holds neither a quote nor an illegal byte. */
  lemma StringLiteralShape(src: seq<Byte>, q: int)
    requires EndsInNewline(src) && 0 <= q && CharAt(src, q) == '"'
    ensures ScanString(src, q).Ok? <==>
      exists e :: q < e < |src| && src[e] == '"' &&
        forall k :: q < k < e ==> src[k] != '"' && !IllegalInString(src[k])
    ensures ScanString(src, q).Ok? ==>
      var t := ScanString(src, q).value.token;
      t.kind == STRING && q + 1 + |t.text| < |src| &&
      src[q + 1..q + 1 + |t.text|] == t.text && src[q + 1 + |t.text|] == '"' &&
      forall k :: 0 <= k < |t.text| ==> t.text[k] != '"' && !IllegalInString(t.text[k])
  {
    var e := RunEnd(src, q + 1, StringBody);
    RunEndInRun(src, q + 1, StringBody);
    if ScanString(src, q).Ok? {
      assert q < e < |src| && src[e] == '"';
      assert forall k :: q < k < e ==> src[k] == CharAt(src, k);
    } else {
      assert !InRun(StringBody, CharAt(src, e)) && CharAt(src, e) != '"';
      forall e' | q < e' < |src| && src[e'] == '"'
        ensures exists k :: q < k < e' && (src[k] == '"' || IllegalInString(src[k]))
      {
        assert !InRun(StringBody, CharAt(src, e'));
        assert e <= e' && e != e';
        assert q < e < e' && IllegalInString(src[e]);
      }
    }
  }

  /** The text of a run of ASCII digits. */
  predicate AllDigits(s: seq<Byte>) {
    |s| > 0 && forall k :: 0 <= k < |s| ==> IsDigit(s[k])
  }

  /** The shape of a number: digit+ ('.' digit+)?. */
  predicate IsNumberText(s: seq<Byte>) {
    AllDigits(s) || exists i :: 0 < i < |s| && s[i] == '.' && AllDigits(s[..i]) && AllDigits(s[i + 1..])
  }

  /** A non-empty slice of digits is a digit run. */
  lemma DigitSlice(src: seq<Byte>, a: int, b: int)
    requires 0 <= a < b <= |src|
    requires forall k :: a <= k < b ==> IsDigit(CharAt(src, k))
    ensures AllDigits(src[a..b])
  {
    forall k | 0 <= k < b - a
      ensures IsDigit(src[a..b][k])
    {
      assert src[a..b][k] == CharAt(src, a + k);
    }
  }

  /** A number whose first digit is at `q` has the shape digit+ ('.' digit+)?
      and is followed by a non-digit; it fails exactly when its digits are
      followed by a '.' that is not followed by a digit; and it holds a '.'
      exactly when one follows its digits, so a fraction is always taken. */
  lemma NumberLiteralShape(src: seq<Byte>, q: int)
    requires 0 <= q && IsDigit(CharAt(src, q))
    ensures var d := RunEnd(src, q + 1, Digits);
      ScanNumber(src, q).Err? <==> (CharAt(src, d) == '.' && !IsDigit(CharAt(src, d + 1)))
    ensures ScanNumber(src, q).Ok? ==>
      var sc := ScanNumber(src, q).value;
      sc.token.kind == NUMBER && IsNumberText(sc.token.text) && !IsDigit(CharAt(src, sc.next))
    ensures ScanNumber(src, q).Ok? ==>
      ('.' in ScanNumber(src, q).value.token.text <==> CharAt(src, RunEnd(src, q + 1, Digits)) == '.')
  {
    var d := RunEnd(src, q + 1, Digits);
    RunEndInRun(src, q + 1, Digits);
    if CharAt(src, d) != '.' {
      DigitSlice(src, q, d);
    } else if IsDigit(CharAt(src, d + 1)) {
      RunEndInRun(src, d + 1, Digits);
      var e := RunEnd(src, d + 1, Digits);
      FractionShape(src, q, d, e);
      assert src[q..e][d - q] == '.';
    }
  }

  /** Digits from `q` to `d`, a '.', and digits from `d + 1` to `e` make a
      number with a fraction. */
  lemma FractionShape(src: seq<Byte>, q: int, d: int, e: int)
    requires 0 <= q < d && d + 1 < e <= |src| && src[d] == '.'
    requires forall k :: q <= k < d ==> IsDigit(CharAt(src, k))
    requires forall k :: d + 1 <= k < e ==> IsDigit(CharAt(src, k))
    ensures IsNumberText(src[q..e])
  {
    DigitSlice(src, q, d);
    DigitSlice(src, d + 1, e);
    var t := src[q..e];
    var i := d - q;
    assert t[..i] == src[q..d];
    assert t[i + 1..] == src[d + 1..e];
    assert t[i] == '.';
  }

  /** A word whose first letter is at `q` is the longest letter-or-digit run
      there; it gets the keyword's kind when the table has the word, IDENT
      otherwise. */
  lemma WordShape(src: seq<Byte>, q: int)
    requires 0 <= q && IsLetter(CharAt(src, q))
    ensures var sc := ScanWord(src, q);
      var w := sc.token.text;
      |w| > 0 && IsLetter(w[0]) &&
      (forall k :: 0 <= k < |w| ==> IsLetter(w[k]) || IsDigit(w[k])) &&
      !InRun(Word, CharAt(src, sc.next)) &&
      (sc.token.kind == IDENT <==> IsKeyword(w) == UNKNOWN) &&
      (sc.token.kind != IDENT ==> sc.token.kind == IsKeyword(w) && IsKeywordKind(sc.token.kind))
  {
    var w := RunEnd(src, q + 1, Word);
    RunEndInRun(src, q + 1, Word);
    var text := src[q..w];
    forall k | 0 <= k < |text|
      ensures IsLetter(text[k]) || IsDigit(text[k])
    {
      assert text[k] == CharAt(src, q + k);
    }
  }

  /** The token class is decided by the byte `GetToken` stops on after
      skipping: a quote starts a string, a digit a number, a letter a word;
      a newline is its own token with text "\n", a NUL (the cursor past the
      end) is EOF, and any byte that starts no token is an error naming it. */
  lemma ScanDispatch(src: seq<Byte>, pos: int)
    requires EndsInNewline(src) && 0 <= pos
    ensures var q := TokenStart(src, pos);
      var c := CharAt(src, q);
      (c == '"' ==> ScanToken(src, pos) == ScanString(src, q)) &&
      (IsDigit(c) ==> ScanToken(src, pos) == ScanNumber(src, q)) &&
      (IsLetter(c) ==> ScanToken(src, pos) == Ok(ScanWord(src, q))) &&
      (c == '\n' ==> ScanToken(src, pos) == Ok(Scanned(Token("\n", NEWLINE), q + 1))) &&
      (c == NUL ==> ScanToken(src, pos) == Ok(Scanned(Token([NUL], EOF), q + 1))) &&
      (ScanToken(src, pos).Err? && ScanToken(src, pos).error.UnknownToken? ==>
        c !in "+-*/=<>!\"\n" && !IsDigit(c) && !IsLetter(c) && c != NUL)
  {
  }

  // ---------------------------------------------------------------------
  // The token stream the parser pulls
  // ---------------------------------------------------------------------

  /** The tokens `GetToken` yields from `pos` on, as the parser asks for them:
      up to and including the first EOF, and then the one lookahead token the
      parser reads once its current token is EOF. Fails with the first lexing
      error among them. */
  function TokenStream(src: seq<Byte>, pos: int): Result<seq<Token>, LexError>
    requires EndsInNewline(src) && 0 <= pos <= |src|
    decreases |src| - pos
  {
    var sc :- ScanToken(src, pos);
    if sc.token.kind == EOF then
      var look :- ScanToken(src, sc.next);
      Ok([sc.token, look.token])
    else
      var rest :- TokenStream(src, sc.next);
      Ok([sc.token] + rest)
  }

  /** A token stream holds exactly one EOF before its final lookahead token. */
  lemma {:induction false} TokenStreamEndsWithEof(src: seq<Byte>, pos: int)
    requires EndsInNewline(src) && 0 <= pos <= |src|
    requires TokenStream(src, pos).Ok?
    ensures var ts := TokenStream(src, pos).value;
      |ts| >= 2 && ts[|ts| - 2].kind == EOF &&
      forall k :: 0 <= k < |ts| - 2 ==> ts[k].kind != EOF
    decreases |src| - pos
  {
    var sc := ScanToken(src, pos).value;
    if sc.token.kind != EOF {
      TokenStreamEndsWithEof(src, sc.next);
      var rest := TokenStream(src, sc.next).value;
      assert TokenStream(src, pos).value == [sc.token] + rest;
    }
  }

  // ---------------------------------------------------------------------
  // The cursor
  // ---------------------------------------------------------------------

  class Lexer {
    /** The source text with a newline appended. */
    const Source: seq<Byte>
    /** The byte under the cursor, NUL past the end. */
    var CurChar: Byte
    /** The cursor position. */
    var CurPos: int

    ghost predicate Valid()
      reads this
    {
      EndsInNewline(Source) && 0 <= CurPos && CurChar == CharAt(Source, CurPos)
    }

    /** `NewLexer`: the cursor starts on the first byte of `source + "\n"`. */
    constructor (source: seq<Byte>)
      ensures Valid()
      ensures Source == source + "\n" && CurPos == 0 && CurChar == Source[0]
    {
      Source := source + "\n";
      CurChar := NUL;
      CurPos := -1;
      new;
      NextChar();
    }

    /** Advances the cursor by one byte; past the end the current byte is NUL. */
    method NextChar()
      requires -1 <= CurPos
      modifies this`CurPos, this`CurChar
      ensures CurPos == old(CurPos) + 1
      ensures CurChar == (if CurPos < |Source| then Source[CurPos] else NUL)
      ensures CurChar == old(Peek())
    {
      CurPos := CurPos + 1;
      if CurPos >= |Source| {
        CurChar := NUL;
      } else {
        CurChar := Source[CurPos];
      }
    }

    /** The byte after the cursor, NUL when there is none; moves nothing. */
    function Peek(): (b: Byte)
      requires -1 <= CurPos
      reads this
      ensures CurPos + 1 < |Source| ==> b == Source[CurPos + 1]
      ensures CurPos + 1 >= |Source| ==> b == NUL
    {
      if CurPos + 1 >= |Source| then NUL else Source[CurPos + 1]
    }

    /** Steps over spaces, tabs and carriage returns (not newlines). */
    method SkipWhitespace()
      requires Valid()
      modifies this`CurPos, this`CurChar
      ensures Valid()
      ensures CurPos == RunEnd(Source, old(CurPos), Blank)
      ensures !InRun(Blank, CurChar)
    {
      while CurChar == ' ' || CurChar == '\t' || CurChar == '\r'
        invariant Valid() && old(CurPos) <= CurPos
        invariant RunEnd(Source, CurPos, Blank) == RunEnd(Source, old(CurPos), Blank)
        decreases |Source| - CurPos
      {
        NextChar();
      }
    }

    /** On a '#', steps to the newline that ends the line; such a newline
        always exists because the source ends in one. */
    method SkipComment()
      requires Valid()
      modifies this`CurPos, this`CurChar
      ensures Valid()
      ensures old(CurChar) == '#' ==> CurPos == RunEnd(Source, old(CurPos), CommentBody) && CurChar == '\n'
      ensures old(CurChar) != '#' ==> CurPos == old(CurPos) && CurChar == old(CurChar)
    {
      if CurChar == '#' {
        while CurChar != '\n'
          invariant Valid() && old(CurPos) <= CurPos < |Source|
          invariant RunEnd(Source, CurPos, CommentBody) == RunEnd(Source, old(CurPos), CommentBody)
          decreases |Source| - CurPos
        {
          NextChar();
        }
      }
    }

    /** The relation between the result of `GetToken` and the scan it performs
        from the cursor position `from`. */
    ghost predicate Produced(from: int, r: Result<Token, LexError>)
      requires EndsInNewline(Source) && 0 <= from
      reads this
    {
      match ScanToken(Source, from)
      case Ok(sc) => r == Ok(sc.token) && CurPos == sc.next
      case Err(e) => r == Err(e)
    }

    /** The cursor rests on the last byte of the token `spec` describes (the
        final `NextChar` of `GetToken` steps past it), or `r` is its error. */
    ghost predicate OnLastByte(spec: Result<Scanned, LexError>, r: Result<Token, LexError>)
      reads this
    {
      match spec
      case Ok(sc) => r == Ok(sc.token) && CurPos == sc.next - 1
      case Err(e) => r == Err(e)
    }

    /** The string branch of `GetToken`: from the opening quote to the closing one. */
    method ReadString() returns (r: Result<Token, LexError>)
      requires Valid() && CurChar == '"'
      modifies this`CurPos, this`CurChar
      ensures Valid()
      ensures OnLastByte(ScanString(Source, old(CurPos)), r)
    {
      NextChar();
      var startPos := CurPos;
      while CurChar != '"'
        invariant Valid() && startPos == old(CurPos) + 1 && startPos <= CurPos < |Source|
        invariant RunEnd(Source, CurPos, StringBody) == RunEnd(Source, startPos, StringBody)
        decreases |Source| - CurPos
      {
        if IllegalInString(CurChar) {
          return Err(IllegalCharInString);
        }
        NextChar();
      }
      r := Ok(Token(Source[startPos..CurPos], STRING));
    }

    /** The number branch of `GetToken`: digits, then optionally '.' and digits. */
    method ReadNumber() returns (r: Result<Token, LexError>)
      requires Valid() && IsDigit(CurChar)
      modifies this`CurPos, this`CurChar
      ensures Valid()
      ensures OnLastByte(ScanNumber(Source, old(CurPos)), r)
    {
      var startPos := CurPos;
      SkipDigits();
      ghost var d := CurPos + 1;
      if Peek() == '.' {
        NextChar();
        if !IsDigit(Peek()) {
          assert ScanNumber(Source, startPos) == Err(IllegalCharInNumber);
          return Err(IllegalCharInNumber);
        }
        SkipDigits();
        assert ScanNumber(Source, startPos) == Ok(Scanned(Token(Source[startPos..CurPos + 1], NUMBER), CurPos + 1));
      } else {
        assert ScanNumber(Source, startPos) == Ok(Scanned(Token(Source[startPos..d], NUMBER), d));
      }
      r := Ok(Token(Source[startPos..CurPos + 1], NUMBER));
    }

    /** Each digit loop of the number branch: advance while the next byte is a
        digit, stopping on the run's last digit. */
    method SkipDigits()
      requires Valid() && CurPos < |Source|
      modifies this`CurPos, this`CurChar
      ensures Valid() && old(CurPos) <= CurPos < |Source|
      ensures CurPos + 1 == RunEnd(Source, old(CurPos) + 1, Digits)
    {
      while IsDigit(Peek())
        invariant Valid() && old(CurPos) <= CurPos < |Source|
        invariant RunEnd(Source, CurPos + 1, Digits) == RunEnd(Source, old(CurPos) + 1, Digits)
        decreases |Source| - CurPos
      {
        NextChar();
      }
    }

    /** The word branch of `GetToken`: letters and digits, then the keyword lookup. */
    method ReadWord() returns (token: Token)
      requires Valid() && IsLetter(CurChar)
      modifies this`CurPos, this`CurChar
      ensures Valid()
      ensures OnLastByte(Ok(ScanWord(Source, old(CurPos))), Ok(token))
    {
      var startPos := CurPos;
      while IsLetter(Peek()) || IsDigit(Peek())
        invariant Valid() && startPos == old(CurPos) <= CurPos < |Source|
        invariant RunEnd(Source, CurPos + 1, Word) == RunEnd(Source, startPos + 1, Word)
        decreases |Source| - CurPos
      {
        NextChar();
      }
      var tokenText := Source[startPos..CurPos + 1];
      var keyword := IsKeyword(tokenText);
      if keyword == UNKNOWN {
        token := Token(tokenText, IDENT);
      } else {
        token := Token(tokenText, keyword);
      }
    }

    /** The operator branches of `GetToken` for '=', '>' and '<': a
        following '=' makes the two-byte operator `two`, else the one-byte
        operator `one`. */
    method ReadCompound(one: TokenType, two: TokenType) returns (token: Token)
      requires Valid()
      modifies this`CurPos, this`CurChar
      ensures Valid()
      ensures OnLastByte(Ok(ScanCompound(Source, old(CurPos), one, two)), Ok(token))
    {
      if Peek() == '=' {
        var lastChar := CurChar;
        NextChar();
        token := Token([lastChar, CurChar], two);
      } else {
        token := Token([CurChar], one);
      }
    }

    /** Skips blanks and a comment, classifies the token at the cursor and
        leaves the cursor just past it. */
    method GetToken() returns (r: Result<Token, LexError>)
      requires Valid()
      modifies this`CurPos, this`CurChar
      ensures Valid()
      ensures Produced(old(CurPos), r)
    {
      SkipWhitespace();
      SkipComment();
      assert CurPos == TokenStart(Source, old(CurPos));
      r := ReadToken();
      if r.Ok? {
        NextChar();
      }
    }

    /** The `switch` of `GetToken`: the token at the cursor, which is left on
        the token's last byte. */
    method ReadToken() returns (r: Result<Token, LexError>)
      requires Valid()
      modifies this`CurPos, this`CurChar
      ensures Valid()
      ensures OnLastByte(ScanAt(Source, old(CurPos)), r)
    {
      var current := CurChar;
      if current in "+-*/=><!" {
        r := ReadOperator();
      } else if current == '"' {
        r := ReadString();
      } else if IsDigit(current) {
        r := ReadNumber();
      } else if IsLetter(current) {
        var token := ReadWord();
        r := Ok(token);
      } else if current == '\n' {
        r := Ok(Token([current], NEWLINE));
      } else if current == NUL {
        r := Ok(Token([current], EOF));
      } else {
        r := Err(UnknownToken(current));
      }
    }

    /** The operator cases of `GetToken`'s `switch`. */
    method ReadOperator() returns (r: Result<Token, LexError>)
      requires Valid() && CurChar in "+-*/=><!"
      modifies this`CurPos, this`CurChar
      ensures Valid()
      ensures OnLastByte(ScanAt(Source, old(CurPos)), r)
    {
      var current := CurChar;
      var token: Token;
      if current == '+' {
        token := Token([current], PLUS);
      } else if current == '-' {
        token := Token([current], MINUS);
      } else if current == '*' {
        token := Token([current], ASTERISK);
      } else if current == '/' {
        token := Token([current], SLASH);
      } else if current == '=' {
        token := ReadCompound(EQ, EQEQ);
      } else if current == '>' {
        token := ReadCompound(GT, GTEQ);
      } else if current == '<' {
        token := ReadCompound(LT, LTEQ);
      } else if Peek() == '=' {
        var lastChar := current;
        NextChar();
        token := Token([lastChar, CurChar], NOTEQ);
      } else {
        return Err(ExpectedNotEq(Peek()));
      }
      r := Ok(token);
    }
  }

  /** `tokens` followed by the stream `rest`, or the error that ends `rest`. */
  function Prefixed(tokens: seq<Token>, rest: Result<seq<Token>, LexError>): Result<seq<Token>, LexError> {
    if rest.Ok? then Ok(tokens + rest.value) else rest
  }

  /** One step of the token stream: a non-EOF token is followed by the stream
      after it. */
  lemma TokenStreamStep(src: seq<Byte>, from: int, tokens: seq<Token>)
    requires EndsInNewline(src) && 0 <= from <= |src|
    requires ScanToken(src, from).Ok? && ScanToken(src, from).value.token.kind != EOF
    ensures var sc := ScanToken(src, from).value;
      Prefixed(tokens, TokenStream(src, from)) == Prefixed(tokens + [sc.token], TokenStream(src, sc.next))
  {
    var sc := ScanToken(src, from).value;
    var rest := TokenStream(src, sc.next);
    if rest.Ok? {
      assert tokens + ([sc.token] + rest.value) == (tokens + [sc.token]) + rest.value;
    }
  }

  /** Pulls tokens from the lexer as the parser does: through the first EOF
      and the one lookahead token after it. */
  method Tokenize(l: Lexer) returns (r: Result<seq<Token>, LexError>)
    requires l.Valid() && l.CurPos <= |l.Source|
    modifies l`CurPos, l`CurChar
    ensures r == TokenStream(l.Source, old(l.CurPos))
  {
    var tokens: seq<Token> := [];
    ghost var from := l.CurPos;
    ghost var stream := TokenStream(l.Source, from);
    assert stream.Ok? ==> [] + stream.value == stream.value;
    var t := l.GetToken();
    if t.Err? {
      return Err(t.error);
    }
    while t.value.kind != EOF
      invariant l.Valid() && 0 <= from <= |l.Source| && t.Ok?
      invariant ScanToken(l.Source, from) == Ok(Scanned(t.value, l.CurPos))
      invariant stream == Prefixed(tokens, TokenStream(l.Source, from))
      decreases |l.Source| - from
    {
      TokenStreamStep(l.Source, from, tokens);
      tokens := tokens + [t.value];
      from := l.CurPos;
      t := l.GetToken();
      if t.Err? {
        return Err(t.error);
      }
    }
    var look := l.GetToken();
    if look.Err? {
      return Err(look.error);
    }
    return Ok(tokens + [t.value, look.value]);
  }
}
