/** The lexer's behaviour as functions of the source text and a cursor
    (MACSLang.Lexer/Lexer.cs). The `Lexer` class runs the same steps imperatively and is
    proved to agree with `SkipTrivia` and `Scan`; the lemmas below are about these functions.

    Character classes (`char.IsDigit`, `char.IsLetter`, `char.IsLetterOrDigit`) are taken to
    be their ASCII restrictions. */
module Scanner {
  import opened Tokens

  /** The character at index `i`, or '\0' at or past the end (`Lexer.Peek`). */
  function At(s: string, i: nat): char {
    if i < |s| then s[i] else '\0'
  }

  predicate IsDigit(c: char) {
    '0' <= c <= '9'
  }

  predicate IsLetter(c: char) {
    'a' <= c <= 'z' || 'A' <= c <= 'Z'
  }

  predicate IsIdentChar(c: char) {
    IsLetter(c) || IsDigit(c) || c == '_'
  }

  predicate IsBlank(c: char) {
    c == ' ' || c == '\r' || c == '\t'
  }

  /** The lexer's position, line and column fields. */
  datatype Cursor = Cursor(pos: nat, line: int, column: int)

  /** `k` calls of `Advance`: position and column move, the line does not. */
  function Advanced(c: Cursor, k: nat): Cursor {
    Cursor(c.pos + k, c.line, c.column + k)
  }

  /** The keyword table (Lexer.cs:16-34). */
  const Keywords: map<string, TokenType> := map[
    "var" := Var, "func" := Func, "int" := IntKeyword, "float" := FloatKeyword,
    "char" := CharKeyword, "bool" := BoolKeyword, "string" := StringKeyword,
    "if" := If, "else" := Else, "while" := While, "for" := For, "return" := Return,
    "print" := Print, "input" := Input, "true" := True, "false" := False]

  /** Kind of an identifier-shaped word: its keyword kind, or `Identifier`. */
  function WordKind(text: string): TokenType {
    if text in Keywords then Keywords[text] else Identifier
  }

  /** Number of '\n' characters in `s[i..j]`. */
  function NewlinesIn(s: string, i: nat, j: nat): nat
    requires i <= j <= |s|
    decreases j - i
  {
    if i == j then 0 else (if s[i] == '\n' then 1 else 0) + NewlinesIn(s, i + 1, j)
  }

  // ---------------------------------------------------------------------------------------
  // Whitespace and comments (SkipWhitespaceAndComments)

  /** Inner loop of a line comment: advance up to, not over, the next '\n'. */
  function SkipLineComment(s: string, c: Cursor): (r: Cursor)
    requires c.pos <= |s|
    ensures c.pos <= r.pos <= |s| && r.line == c.line && r.column == c.column + (r.pos - c.pos)
    ensures r.pos == |s| || s[r.pos] == '\n'
    ensures forall k | c.pos <= k < r.pos :: s[k] != '\n'
    decreases |s| - c.pos
  {
    if c.pos == |s| || s[c.pos] == '\n' then c else SkipLineComment(s, Advanced(c, 1))
  }

  /** Inner loop of a block comment, entered after "/*": stops after the closing "*/" or at
      the end of input. A '\n' increments the line and sets the column to 1, and the
      following `Advance` makes it 2. */
  function SkipBlockBody(s: string, c: Cursor): (r: Cursor)
    requires c.pos <= |s|
    ensures c.pos <= r.pos <= |s|
    decreases |s| - c.pos
  {
    if c.pos == |s| then c
    else if s[c.pos] == '*' && At(s, c.pos + 1) == '/' then Advanced(c, 2)
    else if s[c.pos] == '\n' then SkipBlockBody(s, Cursor(c.pos + 1, c.line + 1, 2))
    else SkipBlockBody(s, Advanced(c, 1))
  }

  /** `SkipWhitespaceAndComments`: whitespace, newlines, line and block comments. */
  function SkipTrivia(s: string, c: Cursor): (r: Cursor)
    ensures c.pos <= r.pos
    ensures c.pos >= |s| ==> r == c
    ensures c.pos < |s| ==> r.pos <= |s|
    ensures r.pos < |s| ==> !IsBlank(s[r.pos]) && s[r.pos] != '\n'
    ensures r.pos < |s| && s[r.pos] == '/' ==> At(s, r.pos + 1) != '/' && At(s, r.pos + 1) != '*'
    decreases |s| - c.pos
  {
    if c.pos >= |s| then c
    else if IsBlank(s[c.pos]) then SkipTrivia(s, Advanced(c, 1))
    else if s[c.pos] == '\n' then SkipTrivia(s, Cursor(c.pos + 1, c.line + 1, 1))
    else if s[c.pos] == '/' && At(s, c.pos + 1) == '/' then SkipTrivia(s, SkipLineComment(s, c))
    else if s[c.pos] == '/' && At(s, c.pos + 1) == '*' then SkipTrivia(s, SkipBlockBody(s, Advanced(c, 2)))
    else c
  }

  // ---------------------------------------------------------------------------------------
  // Scanning loops of NextToken

  /** Index of the closing '"' at or after `i`, or `|s|` when there is none. */
  function StringEnd(s: string, i: nat): (r: nat)
    requires i <= |s|
    ensures i <= r <= |s|
    ensures r < |s| ==> s[r] == '"'
    ensures forall k | i <= k < r :: s[k] != '"'
    decreases |s| - i
  {
    if i == |s| || s[i] == '"' then i else StringEnd(s, i + 1)
  }

  /** End of the run of digits starting at `i`. */
  function DigitsEnd(s: string, i: nat): (r: nat)
    requires i <= |s|
    ensures i <= r <= |s|
    ensures !IsDigit(At(s, r))
    ensures forall k | i <= k < r :: IsDigit(s[k])
    decreases |s| - i
  {
    if i == |s| || !IsDigit(s[i]) then i else DigitsEnd(s, i + 1)
  }

  /** End of the run of letters, digits and '_' starting at `i`. */
  function IdentEnd(s: string, i: nat): (r: nat)
    requires i <= |s|
    ensures i <= r <= |s|
    ensures !IsIdentChar(At(s, r))
    ensures forall k | i <= k < r :: IsIdentChar(s[k])
    decreases |s| - i
  {
    if i == |s| || !IsIdentChar(s[i]) then i else IdentEnd(s, i + 1)
  }

  /** A token and the cursor after it. */
  datatype Scanned = Scanned(token: Token, next: Cursor)

  /** The kind of a one-character operator or delimiter with no two-character form. */
  function SingleCharKind(ch: char): (r: TokenType)
  {
    match ch
    case '+' => Plus
    case '-' => Minus
    case '*' => Multiply
    case '/' => Divide
    case '%' => Modulo
    case '(' => OpenParen
    case ')' => CloseParen
    case '{' => OpenBrace
    case '}' => CloseBrace
    case ';' => Semicolon
    case ':' => Colon
    case ',' => Comma
    case _ => Unknown
  }

  /** Operator characters whose meaning depends on the next character. */
  predicate IsLookaheadChar(ch: char) {
    ch == '=' || ch == '<' || ch == '>' || ch == '!' || ch == '&' || ch == '|'
  }

  /** The one- and two-character forms of a lookahead operator (Lexer.cs:149-218):
      kind of the lone character, second character, kind of the pair. */
  function LoneKind(ch: char): TokenType
    requires IsLookaheadChar(ch)
  {
    match ch
    case '=' => Assign
    case '<' => LessThan
    case '>' => GreaterThan
    case '!' => Not
    case _ => Unknown
  }

  function PairChar(ch: char): char
    requires IsLookaheadChar(ch)
  {
    if ch == '&' || ch == '|' then ch else '='
  }

  function PairKind(ch: char): TokenType
    requires IsLookaheadChar(ch)
  {
    match ch
    case '=' => Equals
    case '<' => LessEqual
    case '>' => GreaterEqual
    case '!' => NotEquals
    case '&' => And
    case _ => Or
  }

  /** An operator or delimiter starting at `c`; the two-character form wins. */
  function ScanOperator(s: string, c: Cursor): Scanned
    requires c.pos < |s| && (IsLookaheadChar(s[c.pos]) || SingleCharKind(s[c.pos]) != Unknown)
  {
    var ch := s[c.pos];
    if !IsLookaheadChar(ch) then Scanned(Token(SingleCharKind(ch), [ch], c.line, c.column), Advanced(c, 1))
    else if At(s, c.pos + 1) == PairChar(ch) then
      Scanned(Token(PairKind(ch), [ch, PairChar(ch)], c.line, c.column), Advanced(c, 2))
    else
      Scanned(Token(LoneKind(ch), [ch], c.line, c.column), Advanced(c, 1))
  }

  /** A string literal whose opening quote is at `c`. */
  function ScanString(s: string, c: Cursor): Scanned
    requires c.pos < |s|
  {
    var e := StringEnd(s, c.pos + 1);
    if e == |s| then Scanned(Token(Unknown, s[c.pos + 1..e], c.line, c.column), Advanced(c, e - c.pos))
    else Scanned(Token(StringLiteral, s[c.pos + 1..e], c.line, c.column), Advanced(c, e - c.pos + 1))
  }

  /** A char literal whose opening quote is at `c`. */
  function ScanChar(s: string, c: Cursor): Scanned {
    var v := At(s, c.pos + 1);
    if At(s, c.pos + 2) != '\'' then Scanned(Token(Unknown, [v], c.line, c.column), Advanced(c, 2))
    else Scanned(Token(CharLiteral, [v], c.line, c.column), Advanced(c, 3))
  }

  /** A number whose first digit is at `c`. */
  function ScanNumber(s: string, c: Cursor): Scanned
    requires c.pos < |s|
  {
    var e := DigitsEnd(s, c.pos);
    if At(s, e) != '.' then Scanned(Token(IntLiteral, s[c.pos..e], c.line, c.column), Advanced(c, e - c.pos))
    else if !IsDigit(At(s, e + 1)) then
      Scanned(Token(Unknown, s[c.pos..e + 1], c.line, c.column), Advanced(c, e + 1 - c.pos))
    else
      var f := DigitsEnd(s, e + 1);
      Scanned(Token(FloatLiteral, s[c.pos..f], c.line, c.column), Advanced(c, f - c.pos))
  }

  /** An identifier or keyword whose first character is at `c`. */
  function ScanWord(s: string, c: Cursor): Scanned
    requires c.pos < |s|
  {
    var e := IdentEnd(s, c.pos);
    Scanned(Token(WordKind(s[c.pos..e]), s[c.pos..e], c.line, c.column), Advanced(c, e - c.pos))
  }

  /** Token recognition once whitespace and comments are skipped (NextToken, Lexer.cs:140-323). */
  function ScanFrom(s: string, c: Cursor): (r: Scanned)
    requires c.pos < |s|
    ensures r.token.kind != EOF && r.token.line == c.line && r.token.column == c.column
    ensures c.pos < r.next.pos <= |s| + 1 && r.next.line == c.line
  {
    var ch := s[c.pos];
    if IsLookaheadChar(ch) || SingleCharKind(ch) != Unknown then ScanOperator(s, c)
    else if ch == '"' then ScanString(s, c)
    else if ch == '\'' then ScanChar(s, c)
    else if IsDigit(ch) then ScanNumber(s, c)
    else if IsLetter(ch) || ch == '_' then ScanWord(s, c)
    else Scanned(Token(Unknown, [ch], c.line, c.column), Advanced(c, 1))
  }

  /** One call of `NextToken` from cursor `c`. Every token other than EOF moves the
      position forward, and the position never passes one beyond the end. */
  function Scan(s: string, c: Cursor): (r: Scanned)
    ensures c.pos <= |s| + 1 ==> r.next.pos <= |s| + 1
    ensures r.token.kind != EOF ==> c.pos < r.next.pos
    ensures r.token.kind == EOF <==> SkipTrivia(s, c).pos >= |s|
  {
    var t := SkipTrivia(s, c);
    if t.pos >= |s| then Scanned(Token(EOF, "", t.line, t.column), t)
    else ScanFrom(s, t)
  }

  /** The whole token stream of `s`, up to and including the first EOF: what repeated
      `NextToken` calls yield from a fresh lexer (line 1, column 1). */
  function Tokenize(s: string): (r: seq<Token>)
    ensures |r| >= 1 && r[|r| - 1].kind == EOF
    ensures forall k | 0 <= k < |r| - 1 :: r[k].kind != EOF
  {
    TokenizeFrom(s, Cursor(0, 1, 1))
  }

  function TokenizeFrom(s: string, c: Cursor): (r: seq<Token>)
    requires c.pos <= |s| + 1
    ensures |r| >= 1 && r[|r| - 1].kind == EOF
    ensures forall k | 0 <= k < |r| - 1 :: r[k].kind != EOF
    decreases |s| + 1 - c.pos
  {
    var t := Scan(s, c);
    if t.token.kind == EOF then [t.token] else [t.token] + TokenizeFrom(s, t.next)
  }

  // ---------------------------------------------------------------------------------------
  // Properties of the lexer

  /** Where trivia skipping has nothing to skip, `NextToken` goes straight to recognising
      the token. */
  lemma ScanAtToken(s: string, c: Cursor)
    requires c.pos < |s| && SkipTrivia(s, c) == c
    ensures Scan(s, c) == ScanFrom(s, c)
  {
  }

  /** A quote, a digit, a letter or '_' is no operator character. */
  lemma NotOperatorStart(ch: char)
    requires ch == '"' || ch == '\'' || IsDigit(ch) || IsLetter(ch) || ch == '_'
    ensures !IsLookaheadChar(ch) && SingleCharKind(ch) == Unknown
  {
  }

  /** At or past the end of the source, `NextToken` returns EOF with an empty lexeme at the
      current line and column and does not move; so it keeps returning the same EOF. */
  lemma EofAtEnd(s: string, c: Cursor)
    requires c.pos >= |s|
    ensures Scan(s, c) == Scanned(Token(EOF, "", c.line, c.column), c)
    ensures Scan(s, Scan(s, c).next) == Scan(s, c)
  {
  }

  /** Once EOF has been returned, every later call returns it again. */
  lemma EofIsStable(s: string, c: Cursor)
    requires Scan(s, c).token.kind == EOF
    ensures Scan(s, Scan(s, c).next) == Scan(s, c)
    ensures Scan(s, c).token.lexeme == ""
  {
    var t := SkipTrivia(s, c);
    assert SkipTrivia(s, t) == t;
  }

  /** Every token starts at the line and column where trivia skipping stopped, which is where
      its first character is. */
  lemma TokenStartsAfterTrivia(s: string, c: Cursor)
    ensures Scan(s, c).token.line == SkipTrivia(s, c).line
    ensures Scan(s, c).token.column == SkipTrivia(s, c).column
    ensures Scan(s, c).next.line == SkipTrivia(s, c).line
  {
  }

  /** The two-character operator wins whenever its second character follows; otherwise the
      lone character is its own token (ASSIGN, LESS_THAN, GREATER_THAN, NOT, or UNKNOWN for
      a lone '&' or '|'). */
  lemma LookaheadOperators(s: string, c: Cursor)
    requires c.pos < |s| && IsLookaheadChar(s[c.pos])
    requires SkipTrivia(s, c) == c
    ensures var ch, r := s[c.pos], Scan(s, c);
      if At(s, c.pos + 1) == PairChar(ch)
      then r.token == Token(PairKind(ch), [ch, PairChar(ch)], c.line, c.column) && r.next.pos == c.pos + 2
      else r.token == Token(LoneKind(ch), [ch], c.line, c.column) && r.next.pos == c.pos + 1
  {
  }

  /** The lookahead tables spelled out. */
  lemma LookaheadTable()
    ensures PairKind('=') == Equals && LoneKind('=') == Assign && PairChar('=') == '='
    ensures PairKind('<') == LessEqual && LoneKind('<') == LessThan && PairChar('<') == '='
    ensures PairKind('>') == GreaterEqual && LoneKind('>') == GreaterThan && PairChar('>') == '='
    ensures PairKind('!') == NotEquals && LoneKind('!') == Not && PairChar('!') == '='
    ensures PairKind('&') == And && LoneKind('&') == Unknown && PairChar('&') == '&'
    ensures PairKind('|') == Or && LoneKind('|') == Unknown && PairChar('|') == '|'
  {
  }

  /** A string literal's lexeme is exactly the text between the quotes, which holds no '"';
      without a closing quote the token is UNKNOWN and carries the rest of the input. */
  lemma StringLiterals(s: string, c: Cursor)
    requires c.pos < |s| && s[c.pos] == '"'
    requires SkipTrivia(s, c) == c
    ensures StringScanned(s, c, Scan(s, c))
  {
    ScanAtToken(s, c);
    NotOperatorStart(s[c.pos]);
    assert Scan(s, c) == ScanString(s, c);
    StringScan(s, c);
  }

  /** What `StringLiterals` promises about the token `r` scanned from the quote at `c`. */
  predicate StringScanned(s: string, c: Cursor, r: Scanned)
    requires c.pos < |s|
  {
    && (r.token.kind == StringLiteral || r.token.kind == Unknown)
    && (forall k | 0 <= k < |r.token.lexeme| :: r.token.lexeme[k] != '"')
    && (r.token.kind == StringLiteral <==> c.pos + 1 + |r.token.lexeme| < |s|)
    && (r.token.kind == StringLiteral ==>
          r.token.lexeme == s[c.pos + 1..c.pos + 1 + |r.token.lexeme|]
          && s[c.pos + 1 + |r.token.lexeme|] == '"'
          && r.next.pos == c.pos + |r.token.lexeme| + 2)
    && (r.token.kind == Unknown ==> r.token.lexeme == s[c.pos + 1..] && r.next.pos == |s|)
  }

  lemma StringScan(s: string, c: Cursor)
    requires c.pos < |s|
    ensures StringScanned(s, c, ScanString(s, c))
  {
    var e := StringEnd(s, c.pos + 1);
    assert ScanString(s, c).token.lexeme == s[c.pos + 1..e];
  }

  /** A char literal is CHAR_LITERAL exactly when a quote follows the single character;
      either way the lexeme is that one character. */
  lemma CharLiterals(s: string, c: Cursor)
    requires c.pos < |s| && s[c.pos] == '\''
    requires SkipTrivia(s, c) == c
    ensures var r := Scan(s, c);
      && r.token.lexeme == [At(s, c.pos + 1)]
      && (r.token.kind == CharLiteral <==> At(s, c.pos + 2) == '\'')
      && (r.token.kind != CharLiteral ==> r.token.kind == Unknown)
  {
    ScanAtToken(s, c);
    NotOperatorStart(s[c.pos]);
    assert Scan(s, c) == ScanChar(s, c);
  }

  /** Numbers: the maximal digit run is INT_LITERAL unless a '.' follows it; digits, '.' and
      at least one digit make a FLOAT_LITERAL over the maximal fraction run; a '.' with no
      digit after it gives UNKNOWN whose lexeme ends in the '.'. */
  lemma Numbers(s: string, c: Cursor)
    requires c.pos < |s| && IsDigit(s[c.pos])
    requires SkipTrivia(s, c) == c
    ensures NumberScanned(s, c, Scan(s, c))
  {
    ScanAtToken(s, c);
    NotOperatorStart(s[c.pos]);
    assert Scan(s, c) == ScanNumber(s, c);
    NumberScan(s, c);
  }

  /** What `Numbers` promises about the token `r` scanned from the digit at `c`. */
  predicate NumberScanned(s: string, c: Cursor, r: Scanned)
    requires c.pos < |s|
  {
    var e := DigitsEnd(s, c.pos);
    && (At(s, e) != '.' ==> r.token == Token(IntLiteral, s[c.pos..e], c.line, c.column))
    && (At(s, e) == '.' && !IsDigit(At(s, e + 1)) ==>
          e < |s| && r.token == Token(Unknown, s[c.pos..e + 1], c.line, c.column)
          && r.token.lexeme[|r.token.lexeme| - 1] == '.')
    && (At(s, e) == '.' && IsDigit(At(s, e + 1)) ==>
          e + 1 < DigitsEnd(s, e + 1)
          && r.token == Token(FloatLiteral, s[c.pos..DigitsEnd(s, e + 1)], c.line, c.column))
  }

  lemma NumberScan(s: string, c: Cursor)
    requires c.pos < |s|
    ensures NumberScanned(s, c, ScanNumber(s, c))
  {
  }

  /** An identifier starts with a letter or '_' and extends over the maximal run of letters,
      digits and '_'; its kind comes from the keyword table, or is IDENTIFIER. */
  lemma Words(s: string, c: Cursor)
    requires c.pos < |s| && (IsLetter(s[c.pos]) || s[c.pos] == '_')
    requires SkipTrivia(s, c) == c
    ensures var r, e := Scan(s, c), IdentEnd(s, c.pos);
      && r.token.lexeme == s[c.pos..e]
      && (r.token.lexeme in Keywords ==> r.token.kind == Keywords[r.token.lexeme])
      && (r.token.lexeme !in Keywords ==> r.token.kind == Identifier)
      && r.next.pos == e
  {
    ScanAtToken(s, c);
    NotOperatorStart(s[c.pos]);
    assert Scan(s, c) == ScanWord(s, c);
  }

  /** A newline outside a comment moves to the next line and resets the column to 1. */
  lemma NewlineResetsColumn(s: string, c: Cursor)
    requires c.pos < |s| && s[c.pos] == '\n'
    ensures Scan(s, c) == Scan(s, Cursor(c.pos + 1, c.line + 1, 1))
  {
  }

  /** `NewlinesIn` adds up over adjacent ranges. */
  lemma {:induction false} NewlinesSplit(s: string, i: nat, j: nat, k: nat)
    requires i <= j <= k <= |s|
    ensures NewlinesIn(s, i, k) == NewlinesIn(s, i, j) + NewlinesIn(s, j, k)
    decreases j - i
  {
    if i < j {
      NewlinesSplit(s, i + 1, j, k);
    }
  }

  /** A block comment advances the line once per '\n' it contains. */
  lemma {:induction false} BlockCommentLines(s: string, c: Cursor)
    requires c.pos <= |s|
    ensures SkipBlockBody(s, c).line == c.line + NewlinesIn(s, c.pos, SkipBlockBody(s, c).pos)
    decreases |s| - c.pos
  {
    if c.pos == |s| {
    } else if s[c.pos] == '*' && At(s, c.pos + 1) == '/' {
      assert NewlinesIn(s, c.pos + 1, c.pos + 2) == 0;
    } else if s[c.pos] == '\n' {
      BlockCommentLines(s, Cursor(c.pos + 1, c.line + 1, 2));
    } else {
      BlockCommentLines(s, Advanced(c, 1));
    }
  }

  /** A line comment contains no '\n'. */
  lemma {:induction false} LineCommentLines(s: string, c: Cursor)
    requires c.pos <= |s|
    ensures NewlinesIn(s, c.pos, SkipLineComment(s, c).pos) == 0
    decreases |s| - c.pos
  {
    if c.pos < |s| && s[c.pos] != '\n' {
      LineCommentLines(s, Advanced(c, 1));
    }
  }

  /** Skipping whitespace and comments advances the line by the number of '\n' skipped,
      whether they stand alone or inside a block comment. */
  lemma {:induction false} TriviaLines(s: string, c: Cursor)
    requires c.pos <= |s|
    ensures SkipTrivia(s, c).line == c.line + NewlinesIn(s, c.pos, SkipTrivia(s, c).pos)
    decreases |s| - c.pos
  {
    var r := SkipTrivia(s, c);
    if c.pos >= |s| {
    } else if IsBlank(s[c.pos]) {
      TriviaLines(s, Advanced(c, 1));
    } else if s[c.pos] == '\n' {
      TriviaLines(s, Cursor(c.pos + 1, c.line + 1, 1));
    } else if s[c.pos] == '/' && At(s, c.pos + 1) == '/' {
      var m := SkipLineComment(s, c);
      assert r == SkipTrivia(s, m);
      LineCommentLines(s, c);
      TriviaLines(s, m);
      NewlinesSplit(s, c.pos, m.pos, r.pos);
    } else if s[c.pos] == '/' && At(s, c.pos + 1) == '*' {
      var m := SkipBlockBody(s, Advanced(c, 2));
      assert r == SkipTrivia(s, m);
      BlockCommentLines(s, Advanced(c, 2));
      TriviaLines(s, m);
      CommentOpenerLines(s, c.pos, m.pos, r.pos);
    }
  }

  /** The two characters of a block comment opener hold no newline, so the lines counted
      from `i` are those counted from `i + 2`. */
  lemma CommentOpenerLines(s: string, i: nat, m: nat, j: nat)
    requires i + 2 <= m <= j <= |s| && s[i] == '/' && s[i + 1] == '*'
    ensures NewlinesIn(s, i, j) == NewlinesIn(s, i + 2, m) + NewlinesIn(s, m, j)
  {
    NewlinesSplit(s, i + 2, m, j);
    NewlinesSplit(s, i, i + 2, j);
    assert NewlinesIn(s, i, i + 2) == 0;
  }

  /** `NextToken` counts the lines of the trivia it skips and no others: a '\n' inside a
      string literal does not advance the line. */
  lemma ScanLines(s: string, c: Cursor)
    requires c.pos <= |s|
    ensures Scan(s, c).token.line == c.line + NewlinesIn(s, c.pos, SkipTrivia(s, c).pos)
    ensures Scan(s, c).next.line == Scan(s, c).token.line
  {
    TriviaLines(s, c);
  }
}
