/** The lexer as the source writes it (MACSLang.Lexer/Lexer.cs): a cursor over the source
    text whose position, line and column fields `Advance` and the newline handling update.
    Each method is proved to do what the matching `Scanner` function describes. */
module Lexer {
  import opened Tokens
  import opened Scanner

  class Lexer {
    const source: string
    var position: nat
    var line: int
    var column: int

    /** The cursor fields as one value. */
    function Here(): Cursor
      reads this
    {
      Cursor(position, line, column)
    }

    /** A fresh lexer starts at position 0, line 1, column 1. */
    constructor(source: string)
      ensures this.source == source && Here() == Cursor(0, 1, 1)
    {
      this.source := source;
      position := 0;
      line := 1;
      column := 1;
    }

    predicate IsAtEnd()
      reads this
    {
      position >= |source|
    }

    /** The character `offset` places ahead, or '\0' at or past the end. */
    function Peek(offset: nat): char
      reads this
    {
      if position + offset >= |source| then '\0' else source[position + offset]
    }

    function CurrentChar(): char
      reads this
    {
      Peek(0)
    }

    /** Moves one character forward on the same line. */
    method Advance()
      modifies this
      ensures Here() == Advanced(old(Here()), 1)
    {
      position := position + 1;
      column := column + 1;
    }

    /** Skips blanks, newlines, line comments and block comments. */
    method SkipWhitespaceAndComments()
      modifies this
      ensures Here() == SkipTrivia(source, old(Here()))
    {
      ghost var start := Here();
      while true
        invariant SkipTrivia(source, Here()) == SkipTrivia(source, start)
        decreases |source| - position
      {
        if IsAtEnd() {
          break;
        }
        var c := CurrentChar();
        if c == ' ' || c == '\r' || c == '\t' {
          Advance();
        } else if c == '\n' {
          Advance();
          line := line + 1;
          column := 1;
        } else if c == '/' && Peek(1) == '/' {
          SkipLineCommentText();
        } else if c == '/' && Peek(1) == '*' {
          Advance();
          Advance();
          SkipBlockCommentText();
        } else {
          return;
        }
      }
    }

    /** The loop of a line comment: up to, not over, the next '\n'. */
    method SkipLineCommentText()
      requires position <= |source|
      modifies this
      ensures Here() == SkipLineComment(source, old(Here()))
    {
      ghost var from := Here();
      while !IsAtEnd() && CurrentChar() != '\n'
        invariant position <= |source|
        invariant SkipLineComment(source, Here()) == SkipLineComment(source, from)
        decreases |source| - position
      {
        Advance();
      }
    }

    /** The loop of a block comment after its "/*": through the closing "*/" or to the end. */
    method SkipBlockCommentText()
      requires position <= |source|
      modifies this
      ensures Here() == SkipBlockBody(source, old(Here()))
    {
      ghost var from := Here();
      while !IsAtEnd()
        invariant position <= |source|
        invariant SkipBlockBody(source, Here()) == SkipBlockBody(source, from)
        decreases |source| - position
      {
        if CurrentChar() == '*' && Peek(1) == '/' {
          Advance();
          Advance();
          break;
        }
        if CurrentChar() == '\n' {
          line := line + 1;
          column := 1;
        }
        Advance();
      }
    }

    /** Skips trivia and recognises one token. */
    method NextToken() returns (t: Token)
      modifies this
      ensures Scanned(t, Here()) == Scan(source, old(Here()))
    {
      SkipWhitespaceAndComments();
      if IsAtEnd() {
        return Token(EOF, "", line, column);
      }
      var c := CurrentChar();
      if IsLookaheadChar(c) || SingleCharKind(c) != Unknown {
        t := LexOperator();
      } else if c == '"' {
        t := LexString();
      } else if c == '\'' {
        t := LexChar();
      } else if IsDigit(c) {
        t := LexNumber();
      } else if IsLetter(c) || c == '_' {
        t := LexWord();
      } else {
        var startLine, startColumn := line, column;
        Advance();
        t := Token(Unknown, [c], startLine, startColumn);
      }
    }

    /** The operator and delimiter cases of `NextToken`. */
    method LexOperator() returns (t: Token)
      requires position < |source|
      requires IsLookaheadChar(source[position]) || SingleCharKind(source[position]) != Unknown
      modifies this
      ensures Scanned(t, Here()) == ScanOperator(source, old(Here()))
    {
      var c := CurrentChar();
      var startLine, startColumn := line, column;
      if IsLookaheadChar(c) {
        Advance();
        if CurrentChar() == PairChar(c) {
          Advance();
          return Token(PairKind(c), [c, PairChar(c)], startLine, startColumn);
        }
        return Token(LoneKind(c), [c], startLine, startColumn);
      }
      Advance();
      return Token(SingleCharKind(c), [c], startLine, startColumn);
    }

    /** The string literal case of `NextToken`, from the opening quote. */
    method LexString() returns (t: Token)
      requires position < |source|
      modifies this
      ensures Scanned(t, Here()) == ScanString(source, old(Here()))
    {
      ghost var start := Here();
      var startLine, startColumn := line, column;
      Advance();
      var sb := "";
      while CurrentChar() != '"' && !IsAtEnd()
        invariant start.pos < position <= |source|
        invariant sb == source[start.pos + 1..position]
        invariant Here() == Advanced(start, position - start.pos)
        invariant StringEnd(source, position) == StringEnd(source, start.pos + 1)
        decreases |source| - position
      {
        sb := sb + [CurrentChar()];
        Advance();
      }
      if CurrentChar() != '"' {
        return Token(Unknown, sb, startLine, startColumn);
      }
      Advance();
      return Token(StringLiteral, sb, startLine, startColumn);
    }

    /** The char literal case of `NextToken`, from the opening quote. */
    method LexChar() returns (t: Token)
      modifies this
      ensures Scanned(t, Here()) == ScanChar(source, old(Here()))
    {
      var startLine, startColumn := line, column;
      Advance();
      var charValue := CurrentChar();
      Advance();
      if CurrentChar() != '\'' {
        return Token(Unknown, [charValue], startLine, startColumn);
      }
      Advance();
      return Token(CharLiteral, [charValue], startLine, startColumn);
    }

    /** The number case of `NextToken`, from the first digit. */
    method LexNumber() returns (t: Token)
      requires position < |source|
      modifies this
      ensures Scanned(t, Here()) == ScanNumber(source, old(Here()))
    {
      var startLine, startColumn := line, column;
      ghost var first := position;
      var sb := ReadDigits();
      if CurrentChar() == '.' {
        sb := sb + [CurrentChar()];
        Advance();
        if !IsDigit(CurrentChar()) {
          return Token(Unknown, sb, startLine, startColumn);
        }
        var fraction := ReadDigits();
        assert source[first..position] == sb + fraction;
        sb := sb + fraction;
        return Token(FloatLiteral, sb, startLine, startColumn);
      }
      return Token(IntLiteral, sb, startLine, startColumn);
    }

    /** A run of digits appended to the number being scanned. */
    method ReadDigits() returns (run: string)
      requires position <= |source|
      modifies this
      ensures position == DigitsEnd(source, old(position)) && run == source[old(position)..position]
      ensures Here() == Advanced(old(Here()), |run|)
    {
      ghost var start := Here();
      run := "";
      while IsDigit(CurrentChar())
        invariant start.pos <= position <= |source|
        invariant run == source[start.pos..position]
        invariant Here() == Advanced(start, position - start.pos)
        invariant DigitsEnd(source, position) == DigitsEnd(source, start.pos)
        decreases |source| - position
      {
        run := run + [CurrentChar()];
        Advance();
      }
    }

    /** The identifier and keyword case of `NextToken`, from the first character. */
    method LexWord() returns (t: Token)
      requires position < |source|
      modifies this
      ensures Scanned(t, Here()) == ScanWord(source, old(Here()))
    {
      ghost var start := Here();
      var startLine, startColumn := line, column;
      var sb := "";
      while IsIdentChar(CurrentChar())
        invariant start.pos <= position <= |source|
        invariant sb == source[start.pos..position]
        invariant Here() == Advanced(start, position - start.pos)
        invariant IdentEnd(source, position) == IdentEnd(source, start.pos)
        decreases |source| - position
      {
        sb := sb + [CurrentChar()];
        Advance();
      }
      var text := sb;
      if text in Keywords {
        return Token(Keywords[text], text, startLine, startColumn);
      }
      return Token(Identifier, text, startLine, startColumn);
    }
  }
}
