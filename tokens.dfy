/** The lexical vocabulary of the compiler: bytes, token kinds, tokens, the
    keyword table and the kind names used in error messages
    (lexer/lexer.go, the `Token` and `TokenType` definitions, `isKeyword`
    and `TokenTypeName`). */
module Tokens {

  /** A byte of source text. Source text is a Go `string`, which is a
      sequence of bytes; a byte is modelled as a character below 256, so that
      string literals of ASCII text can be written directly. */
  type Byte = c: char | c as int < 256

  /** The NUL byte: `CurChar` past the end of the source, and the text of EOF. */
  const NUL: Byte := 0 as char

  /** The closed set of token kinds. UNKNOWN is the keyword lookup's
      "not a keyword" answer and the kind of the parser's placeholder tokens. */
  datatype TokenType =
    | EOF | NEWLINE | NUMBER | IDENT | STRING
    | LABEL | GOTO | PRINT | INPUT | LET | IF | THEN | ENDIF | WHILE | REPEAT | ENDWHILE
    | EQ | PLUS | MINUS | ASTERISK | SLASH | EQEQ | NOTEQ | LT | LTEQ | GT | GTEQ
    | UNKNOWN
  {
    /** The numeric value of the kind's constant (a Go `int64`). */
    function Code(): int {
      match this
      case EOF => -1
      case NEWLINE => 0
      case NUMBER => 1
      case IDENT => 2
      case STRING => 3
      case LABEL => 101
      case GOTO => 102
      case PRINT => 103
      case INPUT => 104
      case LET => 105
      case IF => 106
      case THEN => 107
      case ENDIF => 108
      case WHILE => 109
      case REPEAT => 110
      case ENDWHILE => 111
      case EQ => 201
      case PLUS => 202
      case MINUS => 203
      case ASTERISK => 204
      case SLASH => 205
      case EQEQ => 206
      case NOTEQ => 207
      case LT => 208
      case LTEQ => 209
      case GT => 210
      case GTEQ => 211
      case UNKNOWN => 999
    }
  }

  /** A classified lexical unit: its text and its kind. */
  datatype Token = Token(text: seq<Byte>, kind: TokenType)

  /** The eleven keyword kinds, whose constants lie in 101..111. */
  predicate IsKeywordKind(t: TokenType) {
    101 <= t.Code() <= 111
  }

  /** The six relational operators a comparison is built from. */
  predicate IsRelational(t: TokenType) {
    t == GT || t == GTEQ || t == LT || t == LTEQ || t == EQEQ || t == NOTEQ
  }

  /** The keyword table of `isKeyword`: exact, case-sensitive spellings. */
  const Keywords: map<seq<Byte>, TokenType> := map[
    "LABEL" := LABEL,
    "GOTO" := GOTO,
    "PRINT" := PRINT,
    "INPUT" := INPUT,
    "LET" := LET,
    "IF" := IF,
    "THEN" := THEN,
    "ENDIF" := ENDIF,
    "WHILE" := WHILE,
    "REPEAT" := REPEAT,
    "ENDWHILE" := ENDWHILE
  ]

  /** The keyword kind spelt by `word`, or UNKNOWN when `word` is not a keyword. */
  function IsKeyword(word: seq<Byte>): (t: TokenType)
    ensures t == UNKNOWN || IsKeywordKind(t)
  {
    if word in Keywords then Keywords[word] else UNKNOWN
  }

  /** The name of a token kind's constant, or "Invalid TokenType" for a value
      that is no kind's constant. */
  function TokenTypeName(code: int): seq<Byte> {
    match code
    case -1 => "EOF"
    case 0 => "NEWLINE"
    case 1 => "NUMBER"
    case 2 => "IDENT"
    case 3 => "STRING"
    case 101 => "LABEL"
    case 102 => "GOTO"
    case 103 => "PRINT"
    case 104 => "INPUT"
    case 105 => "LET"
    case 106 => "IF"
    case 107 => "THEN"
    case 108 => "ENDIF"
    case 109 => "WHILE"
    case 110 => "REPEAT"
    case 111 => "ENDWHILE"
    case 201 => "EQ"
    case 202 => "PLUS"
    case 203 => "MINUS"
    case 204 => "ASTERISK"
    case 205 => "SLASH"
    case 206 => "EQEQ"
    case 207 => "NOTEQ"
    case 208 => "LT"
    case 209 => "LTEQ"
    case 210 => "GT"
    case 211 => "GTEQ"
    case 999 => "UNKNOWN"
    case _ => "Invalid TokenType"
  }

  /** A word is a keyword exactly when it is the name of a keyword kind: the
      lookup answers UNKNOWN or a keyword kind whose name is the word itself. */
  lemma KeywordIsItsName(word: seq<Byte>)
    ensures IsKeyword(word) == UNKNOWN || word == TokenTypeName(IsKeyword(word).Code())
  {
  }

  /** Every keyword kind is found under its own name. */
  lemma KeywordFoundByName(t: TokenType)
    requires IsKeywordKind(t)
    ensures IsKeyword(TokenTypeName(t.Code())) == t
  {
    assert TokenTypeName(t.Code()) in Keywords && Keywords[TokenTypeName(t.Code())] == t by {
      match t
      case LABEL => case GOTO => case PRINT => case INPUT => case LET => case IF =>
      case THEN => case ENDIF => case WHILE => case REPEAT => case ENDWHILE =>
    }
  }

  /** Distinct kinds have distinct constants. */
  lemma CodeIdentifies(a: TokenType, b: TokenType)
    ensures a.Code() == b.Code() ==> a == b
  {
  }

  /** Every kind's constant has a name: no kind is reported as "Invalid TokenType". */
  lemma EveryKindNamed(t: TokenType)
    ensures TokenTypeName(t.Code()) != "Invalid TokenType"
  {
  }

  /** `unicode.IsDigit` on a byte read as a Latin-1 code point: only '0'..'9'. */
  predicate IsDigit(b: Byte) {
    '0' <= b <= '9'
  }

  /** `unicode.IsLetter` on a byte read as a Latin-1 code point: the ASCII
      letters and the Latin-1 letters ª µ º, U+00C0..U+00D6, U+00D8..U+00F6
      and U+00F8..U+00FF. */
  predicate IsLetter(b: Byte) {
    || 'A' <= b <= 'Z'
    || 'a' <= b <= 'z'
    || b as int == 0xAA || b as int == 0xB5 || b as int == 0xBA
    || 0xC0 <= b as int <= 0xD6
    || 0xD8 <= b as int <= 0xF6
    || 0xF8 <= b as int <= 0xFF
  }
}
