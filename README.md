# MACSLang compiler core in Dafny

MACSLang is a small teaching language whose compiler, written in C#, turns MACSLang source text
into C# source text in four deterministic stages. This project models those four stages and
proves properties of each stage and of how they fit together.

- **Lexer** (`Scanner`, `Lexer`). `Scanner` gives the token stream as pure functions over the
  source string: trivia skipping, operator lookahead, strings, chars, numbers, words, line and
  column tracking. The class `Lexer.Lexer` has the cursor fields of `Lexer.cs` (position, line,
  column), and each of its loops is proved to agree with `Scanner`.
- **Parser** (`ParserSpec`, `Parser`, `ParserProperties`). `ParserSpec` is the grammar as
  recursive functions over a token sequence ending in EOF. The class `Parser.Parser` keeps the
  position and the lookahead window of `Parser.cs`, and each `Parse…` method is proved to return
  what its `ParserSpec` function gives. `ParserProperties` covers precedence,
  left associativity, statement dispatch and the `for` header slots.
- **Syntax tree** (`Tokens`, `Ast`). The node datatypes and the validating constructors of the
  literal, type, identifier and function-declaration nodes, including the 32-bit integer
  conversion.
- **Symbols and scopes** (`Symbols`, `SymbolTables`). Function and variable symbols and
  `FunctionSymbol.ToString`. The class `SymbolTables.SymbolTable` is the parent-linked scope chain
  with `Define` and `Resolve`.
- **Semantic analysis** (`SemanticErrors`, `Typing`, `AnalyzerSpec`, `Analyzer`,
  `AnalyzerProperties`).
  - `Typing` holds the typing rules.
  - `AnalyzerSpec` is the two-phase analysis as functions over a chain of scope values. It
    returns the tree annotated with the types the analyzer records.
  - The class `Analyzer.SemanticAnalyzer` holds the current scope object and the current
    function, and each `Visit` is proved against `AnalyzerSpec`.
- **Code generation** (`CodeGenSpec`, `CodeGen`, `CodeGenProperties`, `CodeGenBraces`).
  - `CodeGenSpec` gives the C# text as functions of the tree and of the buffer before each visit.
  - The class `CodeGen.CodeGenerator` has the buffer, the indentation level and the current return
    type, and each `Visit` is proved to append exactly the `CodeGenSpec` text.
  - The properties cover the conversion tables, independence from the earlier buffer, argument
    and parameter joining, and the `;` separators of a `for` header. They also prove that braces
    balance in the whole generated program.
- **Whole compiler** (`CompilerProperties`). Code generation succeeds exactly on trees whose
  operators the generator can convert and whose inputs have a resolved type. Every program the
  analyzer accepts is such a tree, so generation (with the corrected `for` initializer, see Findings) never throws on an analyzed program.

Throws become `Result`/`Outcome` error values carrying the reason and the token, and "nothing
else changes" is stated on every state-changing method.

## Model

| member | source | states |
|---|---|---|
| Lexer.Lexer.constructor | MACSLang.Lexer/Lexer.cs:36-42 | a new lexer holds the source and stands at position 0, line 1, column 1 |
| Lexer.Lexer.Advance | MACSLang.Lexer/Lexer.cs:51-55 | one step moves position and column by one and leaves the line alone (one step per Unicode scalar value, not per UTF-16 code unit; see Left out) |
| Lexer.Lexer.SkipWhitespaceAndComments | MACSLang.Lexer/Lexer.cs:65-132 | the loop leaves the cursor where `Scanner.SkipTrivia` says: past blanks, newlines (line + 1, column 1), line comments and block comments, stopping at a lone '/' |
| Lexer.Lexer.SkipLineCommentText | MACSLang.Lexer/Lexer.cs:86-92 | the line-comment loop stops at the next '\n' or the end, as `Scanner.SkipLineComment` |
| Lexer.Lexer.SkipBlockCommentText | MACSLang.Lexer/Lexer.cs:93-121 | the block-comment loop stops after the closing "*/" or at the end, counting newlines, as `Scanner.SkipBlockBody` |
| Lexer.Lexer.NextToken | MACSLang.Lexer/Lexer.cs:136-324 | the token returned and the cursor left behind are exactly `Scanner.Scan` of the old cursor |
| Lexer.Lexer.LexOperator | MACSLang.Lexer/Lexer.cs:147-240 | the operator and delimiter switch agrees with `Scanner.ScanOperator` (two-character form first) |
| Lexer.Lexer.LexString | MACSLang.Lexer/Lexer.cs:243-258 | the string-literal branch agrees with `Scanner.ScanString` |
| Lexer.Lexer.LexChar | MACSLang.Lexer/Lexer.cs:261-271 | the char-literal branch agrees with `Scanner.ScanChar` (over Unicode scalar values; see Left out) |
| Lexer.Lexer.LexNumber | MACSLang.Lexer/Lexer.cs:275-302 | the number branch agrees with `Scanner.ScanNumber` |
| Lexer.Lexer.ReadDigits | MACSLang.Lexer/Lexer.cs:278-282 | a digit loop consumes exactly the maximal sequence of digits and returns that text |
| Lexer.Lexer.LexWord | MACSLang.Lexer/Lexer.cs:305-319 | the identifier branch agrees with `Scanner.ScanWord` |
| Scanner.SkipLineComment | MACSLang.Lexer/Lexer.cs:88 | stops at the first '\n' at or after the cursor, or at the end; no '\n' is skipped and the line stays put |
| Scanner.SkipBlockBody | MACSLang.Lexer/Lexer.cs:97-113 | a block comment body never moves the cursor backwards nor past the end |
| Scanner.SkipTrivia | MACSLang.Lexer/Lexer.cs:65-132 | trivia skipping stops before a character that is neither blank, nor '\n', nor a comment opener; at the end it changes nothing |
| Scanner.StringEnd | MACSLang.Lexer/Lexer.cs:247-251 | the index of the first '"' at or after the start, or the end of the source |
| Scanner.DigitsEnd | MACSLang.Lexer/Lexer.cs:278-282 | the end of the maximal sequence of digits |
| Scanner.IdentEnd | MACSLang.Lexer/Lexer.cs:308-312 | the end of the maximal sequence of letters, digits and '_' |
| Scanner.ScanFrom | MACSLang.Lexer/Lexer.cs:142-323 | a token recognised at a character is never EOF, starts at the cursor's line and column, and consumes at least one character |
| Scanner.Scan | MACSLang.Lexer/Lexer.cs:136-140 | EOF is returned exactly when only trivia is left; every other token moves the position forward |
| Scanner.TokenizeFrom | MACSLang.Lexer/Lexer.cs:136-140 | the token stream ends with one EOF and holds no EOF before it |
| Scanner.ScanAtToken | MACSLang.Lexer/Lexer.cs:138-147 | with no trivia in front, a token is recognised at the cursor itself |
| Scanner.NotOperatorStart | MACSLang.Lexer/Lexer.cs:147-240 | quotes, digits, letters and '_' fall through the operator switch to the later branches |
| Scanner.EofAtEnd | MACSLang.Lexer/Lexer.cs:140 | at or past the end the token is EOF with an empty lexeme at the current line and column, and the cursor does not move |
| Scanner.EofIsStable | MACSLang.Lexer/Lexer.cs:140 | once EOF has been returned every later call returns the same EOF again |
| Scanner.TokenStartsAfterTrivia | MACSLang.Lexer/Lexer.cs:138-144 | a token's line and column are those where trivia skipping stopped |
| Scanner.LookaheadOperators | MACSLang.Lexer/Lexer.cs:149-218 | the two-character operator is produced exactly when its second character follows; otherwise the lone character is its own token |
| Scanner.LookaheadTable | MACSLang.Lexer/Lexer.cs:149-218 | the pairs are "==", "<=", ">=", "!=", "&&", "\|\|"; a lone '&' or '\|' is UNKNOWN, a lone '!' is NOT |
| Scanner.StringLiterals | MACSLang.Lexer/Lexer.cs:243-258 | a string literal's lexeme is the text between the quotes and holds no '"'; without a closing quote the token is UNKNOWN and takes the rest of the input |
| Scanner.StringScan | MACSLang.Lexer/Lexer.cs:245-257 | the string branch on its own meets the same description |
| Scanner.CharLiterals | MACSLang.Lexer/Lexer.cs:261-271 | the lexeme is the single character after the quote; the kind is CHAR_LITERAL exactly when a quote follows it, UNKNOWN otherwise (characters counted as Unicode scalar values, not UTF-16 code units; see Left out) |
| Scanner.Numbers | MACSLang.Lexer/Lexer.cs:275-302 | a maximal sequence of digits is INT_LITERAL unless '.' follows; digits, '.', digits is FLOAT_LITERAL; a '.' without a digit after it gives UNKNOWN ending in '.' |
| Scanner.NumberScan | MACSLang.Lexer/Lexer.cs:277-301 | the number branch on its own meets the same description |
| Scanner.Words | MACSLang.Lexer/Lexer.cs:305-319 | a word is the maximal sequence of letters, digits and '_'; its kind is its keyword's kind when it is in the table, IDENTIFIER otherwise |
| Scanner.NewlineResetsColumn | MACSLang.Lexer/Lexer.cs:80-84 | a '\n' outside a comment moves to the next line, column 1 |
| Scanner.BlockCommentLines | MACSLang.Lexer/Lexer.cs:106-110 | a block comment advances the line once per '\n' it contains |
| Scanner.LineCommentLines | MACSLang.Lexer/Lexer.cs:88 | a line comment contains no '\n' |
| Scanner.TriviaLines | MACSLang.Lexer/Lexer.cs:65-132 | skipping trivia advances the line by exactly the number of '\n' skipped |
| Scanner.ScanLines | MACSLang.Lexer/Lexer.cs:136-144 | a token's line is the starting line plus the newlines in the trivia before it, and the lexer stays on that line after the token |
| Scanner.ScanOperator | MACSLang.Lexer/Lexer.cs:147-240 | the operator switch; `Scanner.LookaheadOperators` and `LookaheadTable` state which pairs and lone characters it yields, `Lexer.Lexer.LexOperator` is proved equal to it |
| Scanner.ScanString | MACSLang.Lexer/Lexer.cs:243-258 | the string branch; `Scanner.StringScan` and `StringLiterals` state its lexeme, kind and stop position, `Lexer.Lexer.LexString` is proved equal to it |
| Scanner.ScanChar | MACSLang.Lexer/Lexer.cs:261-271 | the char branch; `Scanner.CharLiterals` states its lexeme and kind, `Lexer.Lexer.LexChar` is proved equal to it (over Unicode scalar values; see Left out) |
| Scanner.ScanNumber | MACSLang.Lexer/Lexer.cs:275-302 | the number branch; `Scanner.NumberScan` and `Numbers` state the INT, FLOAT and UNKNOWN cases, `Lexer.Lexer.LexNumber` is proved equal to it |
| Scanner.ScanWord | MACSLang.Lexer/Lexer.cs:305-319 | the word branch; `Scanner.Words` states the maximal lexeme and the keyword lookup, `Lexer.Lexer.LexWord` is proved equal to it |
| Scanner.Tokenize | MACSLang.Lexer/Lexer.cs:136-140 | the token stream of a whole source ends with exactly one EOF and holds no EOF before it, which is what the parser requires of its input |
| ParserSpec.Consume | MACSLang.Parser/Parser.cs:53-63 | succeeds exactly when the current token has the expected kind, returning it one step further on; otherwise the ParseException carries the given message and the current token |
| ParserSpec.ParseType | MACSLang.Parser/Parser.cs:115-127 | succeeds exactly on the five type keywords, consuming that one token; any other token gives the "expected a type" error at it |
| ParserSpec.ParseExpression | MACSLang.Parser/Parser.cs:353-356 | an expression is the `\|\|` level; a success consumes at least one token |
| ParserSpec.ParseLogicalOr | MACSLang.Parser/Parser.cs:359-370 | the `\|\|` level; a success consumes at least one token |
| ParserSpec.ParseLogicalOrRest | MACSLang.Parser/Parser.cs:362-367 | the loop of the `\|\|` level never moves backwards |
| ParserSpec.ParseLogicalAnd | MACSLang.Parser/Parser.cs:373-384 | the `&&` level; a success consumes at least one token |
| ParserSpec.ParseLogicalAndRest | MACSLang.Parser/Parser.cs:376-381 | the loop of the `&&` level never moves backwards |
| ParserSpec.ParseEquality | MACSLang.Parser/Parser.cs:387-398 | the `==`/`!=` level; a success consumes at least one token |
| ParserSpec.ParseEqualityRest | MACSLang.Parser/Parser.cs:390-395 | the loop of the equality level never moves backwards |
| ParserSpec.ParseComparison | MACSLang.Parser/Parser.cs:401-413 | the `<`, `>`, `<=`, `>=` level; a success consumes at least one token |
| ParserSpec.ParseComparisonRest | MACSLang.Parser/Parser.cs:404-410 | the loop of the comparison level never moves backwards |
| ParserSpec.ParseAdditive | MACSLang.Parser/Parser.cs:416-427 | the `+`/`-` level; a success consumes at least one token |
| ParserSpec.ParseAdditiveRest | MACSLang.Parser/Parser.cs:419-424 | the loop of the additive level never moves backwards |
| ParserSpec.ParseMultiplicative | MACSLang.Parser/Parser.cs:430-441 | the `*`, `/`, `%` level; a success consumes at least one token |
| ParserSpec.ParseMultiplicativeRest | MACSLang.Parser/Parser.cs:433-438 | the loop of the multiplicative level never moves backwards |
| ParserSpec.ParseUnary | MACSLang.Parser/Parser.cs:444-454 | prefix `!` and `-`; a success consumes at least one token |
| ParserSpec.ParsePrimary | MACSLang.Parser/Parser.cs:457-487 | literal, name, call or parenthesised expression; a success consumes at least one token |
| ParserSpec.ParseLiteral | MACSLang.Parser/Parser.cs:459-466 | a literal is exactly one token |
| ParserSpec.ParseNameExpression | MACSLang.Parser/Parser.cs:467-477 | a name, or a call when '(' follows; a success consumes at least one token |
| ParserSpec.ParseParenthesized | MACSLang.Parser/Parser.cs:478-484 | a parenthesised expression consumes at least its '(' |
| ParserSpec.ParseCall | MACSLang.Parser/Parser.cs:490-507 | a call node named by the token it starts at, consuming at least that token |
| ParserSpec.ParseArgumentList | MACSLang.Parser/Parser.cs:494-503 | the argument list never moves backwards |
| ParserSpec.ParseNonEmptyArguments | MACSLang.Parser/Parser.cs:497-502 | a non-empty argument list consumes at least one token |
| ParserSpec.ParseArguments | MACSLang.Parser/Parser.cs:498-502 | the argument loop keeps the arguments collected so far as a prefix, never moves backwards, and stops only at a token that is not ',' |
| ParserSpec.ParseBlock | MACSLang.Parser/Parser.cs:130-137 | a block consumes at least its '{' |
| ParserSpec.ParseStatements | MACSLang.Parser/Parser.cs:134 | the statement loop of a block stops only at '}' or EOF |
| ParserSpec.ParseStatement | MACSLang.Parser/Parser.cs:140-188 | a statement consumes at least one token |
| ParserSpec.ParseNameStatement | MACSLang.Parser/Parser.cs:172-187 | a statement starting with a name consumes at least one token |
| ParserSpec.ParseCallStatement | MACSLang.Parser/Parser.cs:181-183 | a call statement consumes at least one token |
| ParserSpec.ParseVarDecl | MACSLang.Parser/Parser.cs:191-207 | a declaration that parses is a VarDecl node and consumes at least one token |
| ParserSpec.ParseInitializer | MACSLang.Parser/Parser.cs:198-203 | the optional initializer never moves backwards |
| ParserSpec.ParseAssignment | MACSLang.Parser/Parser.cs:210-217 | an assignment statement is an AssignStmt node |
| ParserSpec.ParseAssignmentNoSemicolon | MACSLang.Parser/Parser.cs:343-349 | the for-increment assignment is an AssignStmt node |
| ParserSpec.ParseReturn | MACSLang.Parser/Parser.cs:220-226 | a return statement consumes at least one token |
| ParserSpec.ParsePrint | MACSLang.Parser/Parser.cs:229-237 | a print statement consumes at least one token |
| ParserSpec.ParseInput | MACSLang.Parser/Parser.cs:240-248 | an input statement consumes at least one token |
| ParserSpec.ParseIf | MACSLang.Parser/Parser.cs:251-267 | an if statement consumes at least one token |
| ParserSpec.ParseElse | MACSLang.Parser/Parser.cs:259-264 | the optional else branch never moves backwards |
| ParserSpec.ParseWhile | MACSLang.Parser/Parser.cs:270-278 | a while statement consumes at least one token |
| ParserSpec.ParseFor | MACSLang.Parser/Parser.cs:281-340 | a for statement is a ForStmt node |
| ParserSpec.ParseForCondition | MACSLang.Parser/Parser.cs:311-313 | the condition slot never moves backwards |
| ParserSpec.ParseForInit | MACSLang.Parser/Parser.cs:286-308 | the init slot always consumes at least its ';' |
| ParserSpec.ParseNameInit | MACSLang.Parser/Parser.cs:293-303 | an init slot starting with a name consumes at least one token |
| ParserSpec.ParseInitDeclaration | MACSLang.Parser/Parser.cs:289-292 | a declaration in the init slot consumes at least one token |
| ParserSpec.ParseInitAssignment | MACSLang.Parser/Parser.cs:293-296 | an assignment in the init slot consumes at least one token |
| ParserSpec.ParseInitExpression | MACSLang.Parser/Parser.cs:297-303 | an expression in the init slot consumes at least one token |
| ParserSpec.ParseForIncrement | MACSLang.Parser/Parser.cs:315-334 | the increment slot never moves backwards |
| ParserSpec.ParseNameIncrement | MACSLang.Parser/Parser.cs:318-326 | an increment starting with a name consumes at least one token |
| ParserSpec.ParseIncrementExpression | MACSLang.Parser/Parser.cs:327-333 | an expression increment consumes at least one token |
| ParserSpec.ParseParameter | MACSLang.Parser/Parser.cs:106-112 | a parameter consumes at least one token |
| ParserSpec.ParseParameterList | MACSLang.Parser/Parser.cs:84-93 | the parameter list never moves backwards |
| ParserSpec.ParseParameters | MACSLang.Parser/Parser.cs:88-92 | the parameter loop never moves backwards |
| ParserSpec.ParseFunction | MACSLang.Parser/Parser.cs:78-103 | a function declaration consumes at least one token |
| ParserSpec.ParseFunctions | MACSLang.Parser/Parser.cs:70-72 | the declaration loop until EOF; `ParserProperties.FunctionsPrefix` states that it keeps what it has collected as a prefix, and that success and the error do not depend on it |
| ParserSpec.ParseProgramFrom | MACSLang.Parser/Parser.cs:68-75 | a program is its function declarations; `ParserProperties.ProgramIsFunctions` states it as the first declaration followed by the rest |
| ParserSpec.ParseProgram | MACSLang.Parser/Parser.cs:68-75 | the program of the whole stream; `ParserProperties.EmptyProgram` states the empty case and `Parser.Parse` is proved equal to it |
| ParserProperties.PrecedenceLevels | MACSLang.Parser/Parser.cs:359-441 | the six binary levels test exactly the operator kinds of their loop guards: `\|\|`; `&&`; `==`, `!=`; `<`, `>`, `<=`, `>=`; `+`, `-`; `*`, `/`, `%` |
| ParserProperties.EmptyProgram | MACSLang.Parser/Parser.cs:68-75 | a stream holding only EOF is the program with no functions |
| ParserProperties.ProgramIsFunctions | MACSLang.Parser/Parser.cs:68-75 | a program is its first declaration followed by the program after it; an error after it is the program's error |
| ParserProperties.FunctionsPrefix | MACSLang.Parser/Parser.cs:70-72 | the declaration loop only appends to the list collected so far, and fails with the same error |
| ParserProperties.OperandIsExpression | MACSLang.Parser/Parser.cs:353-441 | a unary operand followed by a token that is no binary operator is a whole expression |
| ParserProperties.AdditiveLeftAssociative | MACSLang.Parser/Parser.cs:416-427 | `a - b - c` parses as `(a - b) - c` |
| ParserProperties.LogicalOrLeftAssociative | MACSLang.Parser/Parser.cs:359-370 | `a \|\| b \|\| c` parses as `(a \|\| b) \|\| c` |
| ParserProperties.LogicalOrStep | MACSLang.Parser/Parser.cs:362-367 | one turn of the `\|\|` loop makes the operator node of the left side and the next operand |
| ParserProperties.MultiplicationBindsTighter | MACSLang.Parser/Parser.cs:416-441 | in `a + b * c` the product `b * c` is the right operand of `+` |
| ParserProperties.AdditiveStep | MACSLang.Parser/Parser.cs:419-424 | one turn of the additive loop makes the operator node of the left side and the next operand |
| ParserProperties.Product | MACSLang.Parser/Parser.cs:430-441 | two unary operands joined by `*`, `/` or `%` are one product |
| ParserProperties.MultiplicativeStep | MACSLang.Parser/Parser.cs:433-438 | one turn of the multiplicative loop makes the operator node of the left side and the next operand |
| ParserProperties.AndBindsTighterThanOr | MACSLang.Parser/Parser.cs:359-384 | in `a \|\| b && c` the conjunction is the right operand of `\|\|` |
| ParserProperties.Conjunction | MACSLang.Parser/Parser.cs:373-384 | two equality-level operands joined by `&&` are one conjunction |
| ParserProperties.Disjunction | MACSLang.Parser/Parser.cs:351-369 | two `&&`-level operands joined by `\|\|` are the whole expression, one disjunction |
| ParserProperties.LogicalAndStep | MACSLang.Parser/Parser.cs:376-381 | one turn of the `&&` loop makes the operator node of the left side and the next operand |
| ParserProperties.EqualityLeftAssociative | MACSLang.Parser/Parser.cs:387-398 | `a == b != c` parses as `(a == b) != c` |
| ParserProperties.EqualityStep | MACSLang.Parser/Parser.cs:390-395 | one turn of the equality loop makes the operator node of the left side and the next comparison operand |
| ParserProperties.ComparisonBindsTighterThanEquality | MACSLang.Parser/Parser.cs:387-413 | in `a == b < c` the comparison `b < c` is the right operand of `==` |
| ParserProperties.Comparison | MACSLang.Parser/Parser.cs:401-413 | two additive operands joined by `<`, `>`, `<=` or `>=` are one comparison |
| ParserProperties.ComparisonLeftAssociative | MACSLang.Parser/Parser.cs:401-413 | `a < b < c` parses as `(a < b) < c` |
| ParserProperties.ComparisonStep | MACSLang.Parser/Parser.cs:404-410 | one turn of the comparison loop makes the operator node of the left side and the next additive operand |
| ParserProperties.AdditiveBindsTighterThanComparison | MACSLang.Parser/Parser.cs:401-427 | in `a < b + c` the sum `b + c` is the right operand of `<` |
| ParserProperties.Sum | MACSLang.Parser/Parser.cs:416-427 | two multiplicative operands joined by `+` or `-` are one sum |
| ParserProperties.UnaryIsPrefix | MACSLang.Parser/Parser.cs:444-454 | `!` or `-` applies to the whole unary expression after it |
| ParserProperties.UnaryBindsTighter | MACSLang.Parser/Parser.cs:430-454 | in `-a * b` the operand of `-` is `a` alone |
| ParserProperties.ParenthesizedIsInner | MACSLang.Parser/Parser.cs:478-484 | a parenthesised expression is its inner node with no wrapper; a missing ')' is the "expected ')'" error at the token found |
| ParserProperties.BadExpressionStart | MACSLang.Parser/Parser.cs:457-487 | a token that can start no expression gives the "unexpected token at start of expression" error at it |
| ParserProperties.NameStatementDispatch | MACSLang.Parser/Parser.cs:172-187 | a name starts an assignment before '=', a call statement before '(', and otherwise the "unexpected token at start of statement" error |
| ParserProperties.CallStatementSemicolon | MACSLang.Parser/Parser.cs:181-183 | a call statement is the call followed by its ';'; without it, the "expected ';' after call" error |
| ParserProperties.AssignmentForms | MACSLang.Parser/Parser.cs:210-217 | the statement form of an assignment is the for-increment form plus its ';'; without it, the "expected ';' after assignment" error |
| ParserProperties.ForEmptySlots | MACSLang.Parser/Parser.cs:281-340 | `for ( ; ; )` with a block is a for statement with three empty slots |
| ParserProperties.ForInitDeclaration | MACSLang.Parser/Parser.cs:289-292 | a declaration in the init slot consumes its own ';' and no other |
| ParserProperties.ForInitAssignment | MACSLang.Parser/Parser.cs:293-296 | an assignment in the init slot consumes its own ';' and no other |
| ParserProperties.ForInitExpression | MACSLang.Parser/Parser.cs:297-303 | any other init is an expression statement followed by a separate ';', and the "expected ';' after init" error without it |
| ParserProperties.ForIncrementAssignment | MACSLang.Parser/Parser.cs:318-321 | the increment assignment takes no ';' |
| ParserProperties.DeclarationWithoutInitializer | MACSLang.Parser/Parser.cs:191-207 | `var name: type;` is a declaration of that name and type with no initializer, consuming those five tokens |
| ParserProperties.DeclarationEndsWithSemicolon | MACSLang.Parser/Parser.cs:191-207 | a declaration that parses ends with its ';' token |
| ParserProperties.EmptyBlock | MACSLang.Parser/Parser.cs:130-137 | `{ }` is the empty block, consuming both braces |
| Parser.Parser.constructor | MACSLang.Parser/Parser.cs:16-21 | a new parser stands on the first token of the stream |
| Parser.Parser.CurrentToken | MACSLang.Parser/Parser.cs:24 | the current token is the stream's token at the parser's position |
| Parser.Parser.Advance | MACSLang.Parser/Parser.cs:27-34 | dropping the current token moves one position on and refills the queue; past EOF the lexer keeps returning EOF |
| Parser.Parser.Peek | MACSLang.Parser/Parser.cs:37-42 | looking `k` tokens ahead returns the token `k` positions on without moving, growing the queue to `k + 1` |
| Parser.Parser.Consume | MACSLang.Parser/Parser.cs:53-63 | agrees with `ParserSpec.Consume`; on an error the position does not move |
| Parser.Parser.ParseProgram | MACSLang.Parser/Parser.cs:68-75 | returns exactly `ParserSpec.ParseProgramFrom` of the current position |
| Parser.Parser.ParseFunctionDeclaration | MACSLang.Parser/Parser.cs:78-103 | agrees with `ParserSpec.ParseFunction`: same node or error, same stop position |
| Parser.Parser.ParseParameterList | MACSLang.Parser/Parser.cs:84-93 | agrees with `ParserSpec.ParseParameterList` |
| Parser.Parser.ParseMoreParameters | MACSLang.Parser/Parser.cs:88-92 | agrees with `ParserSpec.ParseParameters` |
| Parser.Parser.ParseParameter | MACSLang.Parser/Parser.cs:106-112 | agrees with `ParserSpec.ParseParameter` |
| Parser.Parser.ParseType | MACSLang.Parser/Parser.cs:115-127 | agrees with `ParserSpec.ParseType` |
| Parser.Parser.ParseBlock | MACSLang.Parser/Parser.cs:130-137 | agrees with `ParserSpec.ParseBlock` |
| Parser.Parser.ParseStatement | MACSLang.Parser/Parser.cs:140-188 | agrees with `ParserSpec.ParseStatement` |
| Parser.Parser.ParseNameStatement | MACSLang.Parser/Parser.cs:172-187 | agrees with `ParserSpec.ParseNameStatement` |
| Parser.Parser.ParseCallStatement | MACSLang.Parser/Parser.cs:181-183 | agrees with `ParserSpec.ParseCallStatement` |
| Parser.Parser.ParseVariableDeclaration | MACSLang.Parser/Parser.cs:191-207 | agrees with `ParserSpec.ParseVarDecl` |
| Parser.Parser.ParseInitializer | MACSLang.Parser/Parser.cs:198-203 | agrees with `ParserSpec.ParseInitializer` |
| Parser.Parser.ParseAssignmentStatement | MACSLang.Parser/Parser.cs:210-217 | agrees with `ParserSpec.ParseAssignment` |
| Parser.Parser.ParseReturnStatement | MACSLang.Parser/Parser.cs:220-226 | agrees with `ParserSpec.ParseReturn` |
| Parser.Parser.ParsePrintStatement | MACSLang.Parser/Parser.cs:229-237 | agrees with `ParserSpec.ParsePrint` |
| Parser.Parser.ParseInputStatement | MACSLang.Parser/Parser.cs:240-248 | agrees with `ParserSpec.ParseInput` |
| Parser.Parser.ParseIfStatement | MACSLang.Parser/Parser.cs:251-267 | agrees with `ParserSpec.ParseIf` |
| Parser.Parser.ParseElse | MACSLang.Parser/Parser.cs:259-264 | agrees with `ParserSpec.ParseElse` |
| Parser.Parser.ParseWhileStatement | MACSLang.Parser/Parser.cs:270-278 | agrees with `ParserSpec.ParseWhile` |
| Parser.Parser.ParseForStatement | MACSLang.Parser/Parser.cs:281-340 | agrees with `ParserSpec.ParseFor` |
| Parser.Parser.ParseForInit | MACSLang.Parser/Parser.cs:286-308 | agrees with `ParserSpec.ParseForInit` |
| Parser.Parser.ParseNameInit | MACSLang.Parser/Parser.cs:293-303 | agrees with `ParserSpec.ParseNameInit` |
| Parser.Parser.ParseInitDeclaration | MACSLang.Parser/Parser.cs:289-292 | agrees with `ParserSpec.ParseInitDeclaration` |
| Parser.Parser.ParseInitAssignment | MACSLang.Parser/Parser.cs:293-296 | agrees with `ParserSpec.ParseInitAssignment` |
| Parser.Parser.ParseInitExpression | MACSLang.Parser/Parser.cs:297-303 | agrees with `ParserSpec.ParseInitExpression` |
| Parser.Parser.ParseForCondition | MACSLang.Parser/Parser.cs:311-313 | agrees with `ParserSpec.ParseForCondition` |
| Parser.Parser.ParseForIncrement | MACSLang.Parser/Parser.cs:315-334 | agrees with `ParserSpec.ParseForIncrement` |
| Parser.Parser.ParseNameIncrement | MACSLang.Parser/Parser.cs:318-326 | agrees with `ParserSpec.ParseNameIncrement` |
| Parser.Parser.ParseIncrementExpression | MACSLang.Parser/Parser.cs:327-333 | agrees with `ParserSpec.ParseIncrementExpression` |
| Parser.Parser.ParseAssignmentStatementWithoutSemicolon | MACSLang.Parser/Parser.cs:343-349 | agrees with `ParserSpec.ParseAssignmentNoSemicolon` |
| Parser.Parser.ParseExpression | MACSLang.Parser/Parser.cs:353-356 | agrees with `ParserSpec.ParseExpression` |
| Parser.Parser.ParseLogicalOrExpression | MACSLang.Parser/Parser.cs:359-370 | agrees with `ParserSpec.ParseLogicalOr` |
| Parser.Parser.ParseLogicalAndExpression | MACSLang.Parser/Parser.cs:373-384 | agrees with `ParserSpec.ParseLogicalAnd` |
| Parser.Parser.ParseEqualityExpression | MACSLang.Parser/Parser.cs:387-398 | agrees with `ParserSpec.ParseEquality` |
| Parser.Parser.ParseComparisonExpression | MACSLang.Parser/Parser.cs:401-413 | agrees with `ParserSpec.ParseComparison` |
| Parser.Parser.ParseAdditiveExpression | MACSLang.Parser/Parser.cs:416-427 | agrees with `ParserSpec.ParseAdditive` |
| Parser.Parser.ParseMultiplicativeExpression | MACSLang.Parser/Parser.cs:430-441 | agrees with `ParserSpec.ParseMultiplicative` |
| Parser.Parser.ParseUnaryExpression | MACSLang.Parser/Parser.cs:444-454 | agrees with `ParserSpec.ParseUnary` |
| Parser.Parser.ParsePrimaryExpression | MACSLang.Parser/Parser.cs:457-487 | agrees with `ParserSpec.ParsePrimary` |
| Parser.Parser.ParseLiteral | MACSLang.Parser/Parser.cs:459-466 | agrees with `ParserSpec.ParseLiteral` |
| Parser.Parser.ParseNameExpression | MACSLang.Parser/Parser.cs:467-477 | agrees with `ParserSpec.ParseNameExpression` |
| Parser.Parser.ParseParenthesized | MACSLang.Parser/Parser.cs:478-484 | agrees with `ParserSpec.ParseParenthesized` |
| Parser.Parser.ParseFunctionCallExpression | MACSLang.Parser/Parser.cs:490-507 | agrees with `ParserSpec.ParseCall` |
| Parser.Parser.ParseArgumentList | MACSLang.Parser/Parser.cs:494-503 | agrees with `ParserSpec.ParseArgumentList` |
| Parser.Parser.ParseNonEmptyArguments | MACSLang.Parser/Parser.cs:497-502 | agrees with `ParserSpec.ParseNonEmptyArguments` |
| Parser.Parser.ParseMoreArguments | MACSLang.Parser/Parser.cs:498-502 | agrees with `ParserSpec.ParseArguments` |
| Parser.Parse | MACSLang.Parser/Parser.cs:68-75 | parsing a token stream from a fresh parser returns exactly `ParserSpec.ParseProgram` |
| Ast.ParseInt32 | MACSLang.Syntax/AST/LiteralExpressionNode.cs:19-22 | `int.TryParse` accepts an optionally signed digit string and only inside the 32-bit range |
| Ast.NewLiteral | MACSLang.Syntax/AST/LiteralExpressionNode.cs:13-45 | the literal constructor succeeds exactly for an int lexeme in range, any float, a one-character char, a string or true/false; each kind gets its converted value; the failures quote the lexeme |
| Ast.NewTypeNode | MACSLang.Syntax/AST/TypeNode.cs:12-22 | a type node is built exactly from the five type keywords; anything else fails quoting the lexeme |
| Ast.NewIdentifier | MACSLang.Syntax/AST/IdentifierExpressionNode.cs:12-17 | an identifier node is built exactly from an IDENTIFIER token; anything else fails quoting the lexeme |
| Ast.NewFunctionDeclaration | MACSLang.Syntax/AST/FunctionDeclarationNode.cs:16-24 | a null parameter list becomes empty and a missing token defaults to the name's token; the other fields are kept |
| Ast.NewParameter | MACSLang.Syntax/AST/FunctionDeclarationNode.cs:38-43 | a missing token defaults to the name's token; name and type are kept |
| Ast.DecimalRoundTrip | MACSLang.Syntax/AST/LiteralExpressionNode.cs:19-22 | the decimal text of any natural number is all digits and reads back as that number |
| Ast.ParseInt32RoundTrip | MACSLang.Syntax/AST/LiteralExpressionNode.cs:19-22 | every 32-bit integer printed in decimal parses back to itself |
| Ast.IntLiteralRoundTrip | MACSLang.Syntax/AST/LiteralExpressionNode.cs:19-22 | an INT_LITERAL token holding a 32-bit number's decimal text builds a literal with exactly that value |
| Ast.IntLiteralOverflow | MACSLang.Syntax/AST/LiteralExpressionNode.cs:19-22 | a digit string above int.MaxValue is rejected by the literal constructor |
| Symbols.NewFunctionSymbol | MACSLang.SemanticAnalyzer/FunctionSymbol.cs:14-19 | a function symbol has type FUNC, keeps its name and return type, and a null parameter list becomes empty |
| Symbols.Symbol.ToString | MACSLang.SemanticAnalyzer/FunctionSymbol.cs:21-24 | `FuncSymbol(Name='…', Params:[…], Return=…)` for a function and `VarSymbol(Name='…', Type=…)` for a variable (VariableSymbol.cs:15-18); `Symbols.ParameterListCommas` and `ParameterListSnoc` state that the list names each parameter type once, in order |
| Symbols.KindNames | MACSLang.SemanticAnalyzer/FunctionSymbol.cs:23 | the printed parameter list holds the enum name of each parameter type, in order |
| Symbols.JoinSeparators | MACSLang.SemanticAnalyzer/FunctionSymbol.cs:23 | joining n comma-free texts with ", " puts exactly n - 1 commas in the result |
| Symbols.JoinSnoc | MACSLang.SemanticAnalyzer/FunctionSymbol.cs:23 | joining one more text appends ", " and that text to the earlier join |
| Symbols.KindNameCommaFree | MACSLang.Lexer/TokenType.cs:5-62 | no token kind's enum name contains a comma |
| Symbols.ParameterListCommas | MACSLang.SemanticAnalyzer/FunctionSymbol.cs:21-24 | the parameter list printed by `ToString` has one comma fewer than there are parameters (none when there are none), so the list can be split back into its types |
| Symbols.ParameterListSnoc | MACSLang.SemanticAnalyzer/FunctionSymbol.cs:21-24 | one more parameter type appends ", " and its enum name to the printed list |
| SemanticErrors.FormatErrorMessage | MACSLang.SemanticAnalyzer/SemanticError.cs:19-25 | every message starts with the common head; without a token it is the head and the message, with one it goes on with " em Linha: " and the position |
| SemanticErrors.ReasonText | MACSLang.SemanticAnalyzer/SemanticAnalyzer.cs:37-404 | the message each throw site interpolates; given by its definition only |
| SemanticErrors.SemanticError.Message | MACSLang.SemanticAnalyzer/SemanticError.cs:13-17 | the exception message is `FormatErrorMessage` of the reason's text and the token, whose contract gives its head |
| SymbolTables.DefineIn | MACSLang.SemanticAnalyzer/SymbolTable.cs:23-29 | defining fails exactly when the name is already in the scope, with that name in the error; otherwise the name is bound to the symbol and every other binding is kept |
| SymbolTables.SymbolTable.constructor | MACSLang.SemanticAnalyzer/SymbolTable.cs:15-20 | a new table is empty, has the given parent, and its level is 0 at the root and the parent's level plus one below it |
| SymbolTables.SymbolTable.Chain | MACSLang.SemanticAnalyzer/SymbolTable.cs:9-13 | the chain of scopes from the root ends with this scope and has one entry per level |
| SymbolTables.SymbolTable.Outer | MACSLang.SemanticAnalyzer/SymbolTable.cs:9-13 | the scopes above this one, which the chain extends by this scope |
| SymbolTables.SymbolTable.Resolve | MACSLang.SemanticAnalyzer/SymbolTable.cs:32-41 | resolving walks up the parents and equals lookup in the chain from the innermost scope out |
| SymbolTables.SymbolTable.Define | MACSLang.SemanticAnalyzer/SymbolTable.cs:23-29 | a name already bound fails and changes nothing; a new name is added to this scope and nothing else changes |
| SymbolTables.Lookup | MACSLang.SemanticAnalyzer/SymbolTable.cs:32-41 | `Resolve` over a chain of scope values, innermost first; `SymbolTables.LookupInnermost`, `LookupAbsent`, `LookupFound`, `LookupThroughEmptyScope` and `LookupLayers` state it, and `SymbolTables.SymbolTable.Resolve` is proved equal to it |
| SymbolTables.LookupInnermost | MACSLang.SemanticAnalyzer/SymbolTable.cs:32-41 | lookup returns the binding of the innermost scope binding the name, so inner definitions shadow outer ones |
| SymbolTables.LookupAbsent | MACSLang.SemanticAnalyzer/SymbolTable.cs:39-40 | lookup yields null exactly when no scope of the chain binds the name |
| SymbolTables.LookupFound | MACSLang.SemanticAnalyzer/SymbolTable.cs:34-37 | whatever lookup returns is bound to that name in some scope of the chain |
| SymbolTables.LookupThroughEmptyScope | MACSLang.SemanticAnalyzer/SymbolTable.cs:15-20 | opening a new empty scope changes no lookup |
| SymbolTables.LookupLayers | MACSLang.SemanticAnalyzer/SymbolTable.cs:34-37 | a name bound in the innermost scope resolves there; otherwise lookup falls through to the enclosing chain |
| Typing.IsAssignable | MACSLang.SemanticAnalyzer/SemanticAnalyzer.cs:425-442 | over the five types, stated in both directions by `Typing.AssignableRule` (equality plus int into float), a partial order by `Typing.AssignableOrder`; `Typing.BoolBranchOnlyForTokenKinds` shows the bool branch matters only for token kinds |
| Typing.IsNumeric | MACSLang.SemanticAnalyzer/SemanticAnalyzer.cs:444-448 | int and float; given by its definition, and used by `Typing.ComparableRule`, `PlusTyping`, `ArithmeticTyping`, `RelationalTyping` and `UnaryTyping` |
| Typing.AreComparable | MACSLang.SemanticAnalyzer/SemanticAnalyzer.cs:450-466 | over the five types, both numeric or the same type, symmetric: `Typing.ComparableRule`; it decides `==`/`!=` in `Typing.RelationalTyping` |
| Typing.BinaryType | MACSLang.SemanticAnalyzer/SemanticAnalyzer.cs:227-306 | a binary expression's recorded type is always one of the five types; every error it raises points at the operator |
| Typing.UnaryType | MACSLang.SemanticAnalyzer/SemanticAnalyzer.cs:308-331 | a unary expression's recorded type is a type keyword; every error points at the operator |
| Typing.LiteralType | MACSLang.SemanticAnalyzer/SemanticAnalyzer.cs:333-359 | a literal's recorded type, when its kind has one, is a type keyword |
| Typing.AssignableRule | MACSLang.SemanticAnalyzer/SemanticAnalyzer.cs:425-442 | over the five types, a value may be assigned exactly to its own type, or an int to a float |
| Typing.BoolBranchOnlyForTokenKinds | MACSLang.SemanticAnalyzer/SemanticAnalyzer.cs:432-433 | the bool-from-TRUE branch of `IsAssignable` holds only for a token kind that is not a type, so it never fires on analyzed types |
| Typing.AssignableOrder | MACSLang.SemanticAnalyzer/SemanticAnalyzer.cs:425-442 | on types, assignability is reflexive, antisymmetric and transitive |
| Typing.ComparableRule | MACSLang.SemanticAnalyzer/SemanticAnalyzer.cs:451-466 | two types are comparable exactly when both are numeric or they are equal, and comparability is symmetric |
| Typing.PlusTyping | MACSLang.SemanticAnalyzer/SemanticAnalyzer.cs:239-255 | `+` succeeds exactly when a side is string or both are numeric; a string side gives string; otherwise the sum is float exactly when a side is float; the error names both types |
| Typing.ArithmeticTyping | MACSLang.SemanticAnalyzer/SemanticAnalyzer.cs:257-269 | `- * / %` succeed exactly on numeric sides, give float exactly when a side is float, and otherwise raise naming both types |
| Typing.RelationalTyping | MACSLang.SemanticAnalyzer/SemanticAnalyzer.cs:271-301 | `== !=` need comparable sides, `< > <= >=` numeric sides, `&& \|\|` bool sides (each an if-and-only-if), and all give bool |
| Typing.GroupsOfOperators | MACSLang.SemanticAnalyzer/SemanticAnalyzer.cs:237-305 | each `case` group of the operator switch holds exactly the operators it names, and every other kind falls to the default |
| Typing.UnaryTyping | MACSLang.SemanticAnalyzer/SemanticAnalyzer.cs:308-331 | unary `-` accepts exactly numeric operands and keeps their type; `!` accepts exactly bool and gives bool; any other operator raises naming it |
| Typing.ConstructedLiteralsHaveTypes | MACSLang.SemanticAnalyzer/SemanticAnalyzer.cs:333-359 | every literal the node constructor can build has a type, so the analyzer's default branch for literals is unreachable |
| AnalyzerSpec.TypeOf | MACSLang.SemanticAnalyzer/SemanticAnalyzer.cs:227-422 | every expression visit as one function, the tree returned annotated; `Analyzer.SemanticAnalyzer.VisitExpression` is proved equal to it, and `AnalyzerProperties.TypeOfAnnotates`, `LookupTyped`, `CallErrors` and `CallAccepted` state what it records and when it throws |
| AnalyzerSpec.TypeArguments | MACSLang.SemanticAnalyzer/SemanticAnalyzer.cs:392-400 | the argument loop of a call; `AnalyzerProperties.TypeArgumentsSucceed`, `TypeArgumentsAnnotate`, `TypeArgumentsInOrder`, `TypeArgumentsKeepDone` and `FirstMismatchRaises` state it |
| AnalyzerSpec.CheckStmt | MACSLang.SemanticAnalyzer/SemanticAnalyzer.cs:82-225 | a statement visit; `Analyzer.SemanticAnalyzer.VisitStatement` is proved equal to it, and `AnalyzerProperties.OnlyDeclarationsBind`, `ConditionsMustBeBool`, `AssignmentRules`, `InputResolvesTarget`, `ReturnMustBeAssignable` and `ReturnOutsideFunctionRaises` state its rules |
| AnalyzerSpec.CheckVarDecl | MACSLang.SemanticAnalyzer/SemanticAnalyzer.cs:82-101 | a declaration; `AnalyzerProperties.DeclarationRules`, `InitializerSeesItsVariable` and `InitializerMustBeAssignable` state its rules |
| AnalyzerSpec.CheckAssignment | MACSLang.SemanticAnalyzer/SemanticAnalyzer.cs:103-123 | an assignment; `Analyzer.SemanticAnalyzer.VisitAssignment` is proved equal to it, and `AnalyzerProperties.AssignmentRules` states its rules: an undeclared or function target raises at the name, and it is accepted exactly when the target is a variable and the value types and is assignable to the variable's type |
| AnalyzerSpec.CheckInput | MACSLang.SemanticAnalyzer/SemanticAnalyzer.cs:132-146 | an input; `Analyzer.SemanticAnalyzer.VisitInput` is proved equal to it, and `AnalyzerProperties.InputResolvesTarget` states that it is accepted exactly when the target is a visible variable, whose declared type it records, and otherwise raises at the target |
| AnalyzerSpec.CheckReturn | MACSLang.SemanticAnalyzer/SemanticAnalyzer.cs:148-158 | a return; `AnalyzerProperties.ReturnOutsideFunctionRaises` states the error outside a function, and `AnalyzerProperties.ReturnMustBeAssignable` that inside one it is accepted exactly when the value types and is assignable to the return type, with the mismatch raised at the value |
| AnalyzerSpec.CheckScopedBlock | MACSLang.SemanticAnalyzer/SemanticAnalyzer.cs:169-179 | a block in a scope of its own; `Analyzer.SemanticAnalyzer.VisitScopedBlock` is proved equal to it and `AnalyzerProperties.WhileBodyMayShadow` states the shadowing it allows |
| AnalyzerSpec.CheckIf | MACSLang.SemanticAnalyzer/SemanticAnalyzer.cs:160-181 | an `if`; `AnalyzerProperties.ConditionsMustBeBool` states the condition rule |
| AnalyzerSpec.CheckWhile | MACSLang.SemanticAnalyzer/SemanticAnalyzer.cs:183-196 | a `while`; `AnalyzerProperties.ConditionsMustBeBool` and `WhileBodyMayShadow` state it |
| AnalyzerSpec.CheckFor | MACSLang.SemanticAnalyzer/SemanticAnalyzer.cs:198-220 | a `for` in one loop scope; `AnalyzerProperties.ForBodySharesLoopScope` states that a body redeclaring the loop variable raises |
| AnalyzerSpec.CheckSlot | MACSLang.SemanticAnalyzer/SemanticAnalyzer.cs:203-217 | an optional `for` slot; `Analyzer.SemanticAnalyzer.VisitSlot` is proved equal to it |
| AnalyzerSpec.CheckForCondition | MACSLang.SemanticAnalyzer/SemanticAnalyzer.cs:205-212 | an optional `for` condition; `AnalyzerProperties.ForConditionMustBeBool` states the bool rule |
| AnalyzerSpec.CheckBlock | MACSLang.SemanticAnalyzer/SemanticAnalyzer.cs:76-80 | a block without a scope of its own; `Analyzer.SemanticAnalyzer.VisitBlock` is proved equal to it |
| AnalyzerSpec.CheckStatements | MACSLang.SemanticAnalyzer/SemanticAnalyzer.cs:76-80 | the statement loop of a block; `CompilerProperties.CheckedStatementsGenerable` is the lemma about it |
| AnalyzerSpec.SignatureOf | MACSLang.SemanticAnalyzer/SemanticAnalyzer.cs:37-43 | the symbol of a declaration; `AnalyzerProperties.SignatureTyped` states its types |
| AnalyzerSpec.RegisterFunctions | MACSLang.SemanticAnalyzer/SemanticAnalyzer.cs:37-43 | the first phase; `AnalyzerProperties.RegistrationSucceeds`, `RegistrationKeeps`, `RegistrationBinds`, `RegistrationSize` and `DuplicateFunctionsRaiseFirst` state it |
| AnalyzerSpec.DefineParameters | MACSLang.SemanticAnalyzer/SemanticAnalyzer.cs:54-58 | the parameters as variables of the function scope; `Analyzer.SemanticAnalyzer.DefineParameters` is proved equal to it and `CompilerProperties.ParametersTyped` is a lemma about it |
| AnalyzerSpec.CheckFunction | MACSLang.SemanticAnalyzer/SemanticAnalyzer.cs:46-66 | one function of the second phase; `Analyzer.SemanticAnalyzer.AnalyzeFunction` is proved equal to it, and `AnalyzerProperties.BodiesSucceed`, `CheckedFunctionKeepsSignature` and `CompilerProperties.CheckedFunctionGenerable` state it |
| AnalyzerSpec.CheckFunctions | MACSLang.SemanticAnalyzer/SemanticAnalyzer.cs:46-66 | the second phase; `AnalyzerProperties.BodiesSucceed` and `BodiesInOrder` state it |
| AnalyzerSpec.CheckProgram | MACSLang.SemanticAnalyzer/SemanticAnalyzer.cs:33-67 | both phases; `Analyzer.SemanticAnalyzer.VisitProgram` is proved equal to it, and `AnalyzerProperties.SignaturesAreGlobal` and `CurrentFunctionIsTheDeclaration` state what its first phase gives the second |
| AnalyzerSpec.Analyze | MACSLang.SemanticAnalyzer/SemanticAnalyzer.cs:26-29 | analysis on a new analyzer; `AnalyzerProperties.AnalysisKeepsSignatures` and `DuplicateFunctionsRaiseFirst` state it, `CompilerProperties.AnalyzedProgramsGenerate` links it to generation |
| AnalyzerSpec.ParameterTypes | MACSLang.SemanticAnalyzer/SemanticAnalyzer.cs:37-43 | the signature records each parameter's declared type, one per parameter, in order |
| Analyzer.SemanticAnalyzer.constructor | MACSLang.SemanticAnalyzer/SemanticAnalyzer.cs:18-23 | a new analyzer has an empty global scope with no parent and no current function |
| Analyzer.SemanticAnalyzer.VisitExpression | MACSLang.SemanticAnalyzer/SemanticAnalyzer.cs:227-404 | visiting an expression returns exactly `AnalyzerSpec.TypeOf` in the current scope chain |
| Analyzer.SemanticAnalyzer.VisitBinary | MACSLang.SemanticAnalyzer/SemanticAnalyzer.cs:227-306 | agrees with `AnalyzerSpec.TypeOf` on binary expressions |
| Analyzer.SemanticAnalyzer.VisitUnary | MACSLang.SemanticAnalyzer/SemanticAnalyzer.cs:308-331 | agrees with `AnalyzerSpec.TypeOf` on unary expressions |
| Analyzer.SemanticAnalyzer.VisitLiteral | MACSLang.SemanticAnalyzer/SemanticAnalyzer.cs:333-359 | agrees with `AnalyzerSpec.TypeOf` on literals |
| Analyzer.SemanticAnalyzer.VisitIdentifier | MACSLang.SemanticAnalyzer/SemanticAnalyzer.cs:361-372 | agrees with `AnalyzerSpec.TypeOf` on names: undeclared and function names raise, a variable gets its type |
| Analyzer.SemanticAnalyzer.VisitFunctionCall | MACSLang.SemanticAnalyzer/SemanticAnalyzer.cs:374-404 | the argument loop agrees with `AnalyzerSpec.TypeOf` on calls |
| Analyzer.SemanticAnalyzer.VisitStatement | MACSLang.SemanticAnalyzer/SemanticAnalyzer.cs:82-225 | a statement visit returns the node and scope of `AnalyzerSpec.CheckStmt`, keeps the current function, and on success restores the scope object |
| Analyzer.SemanticAnalyzer.VisitBlock | MACSLang.SemanticAnalyzer/SemanticAnalyzer.cs:76-80 | the statement loop agrees with `AnalyzerSpec.CheckBlock` and opens no scope |
| Analyzer.SemanticAnalyzer.VisitVariableDeclaration | MACSLang.SemanticAnalyzer/SemanticAnalyzer.cs:82-101 | agrees with `AnalyzerSpec.CheckVarDecl`, changing only the current scope's bindings |
| Analyzer.SemanticAnalyzer.VisitAssignment | MACSLang.SemanticAnalyzer/SemanticAnalyzer.cs:103-123 | agrees with `AnalyzerSpec.CheckAssignment` and binds nothing, so by `AnalyzerProperties.AssignmentRules` it accepts exactly a visible variable target with an assignable value |
| Analyzer.SemanticAnalyzer.VisitPrint | MACSLang.SemanticAnalyzer/SemanticAnalyzer.cs:125-129 | agrees with `AnalyzerSpec.CheckStmt` on print statements |
| Analyzer.SemanticAnalyzer.VisitInput | MACSLang.SemanticAnalyzer/SemanticAnalyzer.cs:132-146 | agrees with `AnalyzerSpec.CheckInput` and binds nothing, so by `AnalyzerProperties.InputResolvesTarget` the resolved target type it records is the target variable's declared type |
| Analyzer.SemanticAnalyzer.VisitReturn | MACSLang.SemanticAnalyzer/SemanticAnalyzer.cs:148-158 | agrees with `AnalyzerSpec.CheckReturn` and binds nothing, so by `AnalyzerProperties.ReturnMustBeAssignable` it accepts exactly a value assignable to the current function's return type |
| Analyzer.SemanticAnalyzer.VisitScopedBlock | MACSLang.SemanticAnalyzer/SemanticAnalyzer.cs:169-179 | pushing a new table, visiting the block and popping agrees with `AnalyzerSpec.CheckScopedBlock` and restores the current scope |
| Analyzer.SemanticAnalyzer.VisitIf | MACSLang.SemanticAnalyzer/SemanticAnalyzer.cs:160-181 | agrees with `AnalyzerSpec.CheckIf` and restores the current scope |
| Analyzer.SemanticAnalyzer.VisitWhile | MACSLang.SemanticAnalyzer/SemanticAnalyzer.cs:183-196 | agrees with `AnalyzerSpec.CheckWhile` and restores the current scope |
| Analyzer.SemanticAnalyzer.VisitSlot | MACSLang.SemanticAnalyzer/SemanticAnalyzer.cs:203-217 | visiting an optional initializer or increment agrees with `AnalyzerSpec.CheckSlot` |
| Analyzer.SemanticAnalyzer.VisitForCondition | MACSLang.SemanticAnalyzer/SemanticAnalyzer.cs:205-212 | agrees with `AnalyzerSpec.CheckForCondition` |
| Analyzer.SemanticAnalyzer.VisitFor | MACSLang.SemanticAnalyzer/SemanticAnalyzer.cs:198-220 | agrees with `AnalyzerSpec.CheckFor` and restores the current scope |
| Analyzer.SemanticAnalyzer.VisitExpressionStatement | MACSLang.SemanticAnalyzer/SemanticAnalyzer.cs:222-225 | agrees with `AnalyzerSpec.CheckStmt` on expression statements |
| Analyzer.SemanticAnalyzer.Signature | MACSLang.SemanticAnalyzer/SemanticAnalyzer.cs:37-43 | the loop collecting parameter types builds exactly `AnalyzerSpec.SignatureOf` |
| Analyzer.SemanticAnalyzer.RegisterFunctions | MACSLang.SemanticAnalyzer/SemanticAnalyzer.cs:37-43 | the registration loop agrees with `AnalyzerSpec.RegisterFunctions` from the current global bindings |
| Analyzer.SemanticAnalyzer.DefineParameters | MACSLang.SemanticAnalyzer/SemanticAnalyzer.cs:54-58 | the parameter loop agrees with `AnalyzerSpec.DefineParameters` |
| Analyzer.SemanticAnalyzer.AnalyzeFunction | MACSLang.SemanticAnalyzer/SemanticAnalyzer.cs:46-66 | one body pass equals `AnalyzerSpec.CheckFunction`; on success the global scope is current again and there is no current function |
| Analyzer.SemanticAnalyzer.VisitProgram | MACSLang.SemanticAnalyzer/SemanticAnalyzer.cs:33-67 | the two loops together equal `AnalyzerSpec.CheckProgram` on the global bindings |
| Analyzer.Analyze | MACSLang.SemanticAnalyzer/SemanticAnalyzer.cs:26-29 | analysing a program with a new analyzer returns exactly `AnalyzerSpec.Analyze` |
| AnalyzerProperties.LookupTyped | MACSLang.SemanticAnalyzer/SemanticAnalyzer.cs:361-372 | in a chain of typed symbols every lookup finds a typed symbol |
| AnalyzerProperties.TypeOfAnnotates | MACSLang.SemanticAnalyzer/SemanticAnalyzer.cs:416-422 | an expression that types has a type keyword recorded at every node |
| AnalyzerProperties.TypeArgumentsAnnotate | MACSLang.SemanticAnalyzer/SemanticAnalyzer.cs:392-400 | every argument tree the loop returns is fully annotated |
| AnalyzerProperties.TypeArgumentsSucceed | MACSLang.SemanticAnalyzer/SemanticAnalyzer.cs:392-400 | the argument loop succeeds exactly when every remaining argument types and is assignable to its parameter |
| AnalyzerProperties.TypeArgumentsStep | MACSLang.SemanticAnalyzer/SemanticAnalyzer.cs:392-400 | a successful loop types the current argument and continues with its tree appended |
| AnalyzerProperties.FittingArgumentStep | MACSLang.SemanticAnalyzer/SemanticAnalyzer.cs:392-400 | an argument that types and is assignable to its parameter is appended and the loop goes on with the next one |
| AnalyzerProperties.MisfitArgumentFails | MACSLang.SemanticAnalyzer/SemanticAnalyzer.cs:392-400 | an argument that fails to type or is not assignable to its parameter makes the loop fail |
| AnalyzerProperties.TypeArgumentsKeepDone | MACSLang.SemanticAnalyzer/SemanticAnalyzer.cs:392-400 | the loop returns one tree per argument and keeps the trees already done |
| AnalyzerProperties.TypeArgumentsInOrder | MACSLang.SemanticAnalyzer/SemanticAnalyzer.cs:392-400 | the tree at position k is argument k typed |
| AnalyzerProperties.MismatchRaisesHere | MACSLang.SemanticAnalyzer/SemanticAnalyzer.cs:395-399 | an argument not assignable to its parameter raises with its 1-based position, the function's name and both types, at the argument's token |
| AnalyzerProperties.FirstMismatchRaises | MACSLang.SemanticAnalyzer/SemanticAnalyzer.cs:392-400 | the leftmost unassignable argument is the one reported |
| AnalyzerProperties.CallErrors | MACSLang.SemanticAnalyzer/SemanticAnalyzer.cs:376-389 | a call to an undeclared name, to a variable, or with the wrong argument count raises that error at the name |
| AnalyzerProperties.CallAccepted | MACSLang.SemanticAnalyzer/SemanticAnalyzer.cs:374-404 | an accepted call names a function, has one assignable argument per parameter and the function's return type |
| AnalyzerProperties.DeclarationRules | MACSLang.SemanticAnalyzer/SemanticAnalyzer.cs:82-101 | redeclaring a name of the current scope raises at the name; otherwise a declaration without initializer binds the variable in the current scope, shadowing outer ones |
| AnalyzerProperties.InitializerSeesItsVariable | MACSLang.SemanticAnalyzer/SemanticAnalyzer.cs:88-99 | the variable is defined before its initializer is checked, so `x = x` refers to the new variable |
| AnalyzerProperties.InitializerMustBeAssignable | MACSLang.SemanticAnalyzer/SemanticAnalyzer.cs:92-99 | an initializer that types is accepted exactly when it is assignable to the declared type |
| AnalyzerProperties.OnlyDeclarationsBind | MACSLang.SemanticAnalyzer/SemanticAnalyzer.cs:82-225 | only a declaration changes the current scope, by binding its variable; every other statement leaves it as it was |
| AnalyzerProperties.ConditionsMustBeBool | MACSLang.SemanticAnalyzer/SemanticAnalyzer.cs:160-196 | an `if` or `while` condition of any type but bool raises at the condition |
| AnalyzerProperties.ForConditionMustBeBool | MACSLang.SemanticAnalyzer/SemanticAnalyzer.cs:205-212 | a present `for` condition raises unless it is bool, and is kept annotated when it is |
| AnalyzerProperties.ReturnOutsideFunctionRaises | MACSLang.SemanticAnalyzer/SemanticAnalyzer.cs:148-152 | `return` with no current function raises before its value is examined |
| AnalyzerProperties.AssignmentRules | MACSLang.SemanticAnalyzer/SemanticAnalyzer.cs:103-123 | an undeclared target raises "not declared" and a function target "not a variable", both at the name; for a variable target a value that fails to type passes its error on, one not assignable to the variable's type raises the mismatch at the value, and an assignable one is accepted with the scope unchanged; accepted exactly when all of these hold |
| AnalyzerProperties.InputResolvesTarget | MACSLang.SemanticAnalyzer/SemanticAnalyzer.cs:132-146 | an undeclared target or a function target raises at the target; a variable target is accepted, recording its declared type as the resolved target type and changing nothing else; a variable of the current scope is the one found |
| AnalyzerProperties.ReturnMustBeAssignable | MACSLang.SemanticAnalyzer/SemanticAnalyzer.cs:148-158 | inside a function, a value that fails to type passes its error on, one not assignable to the return type raises the mismatch naming the function and both types at the value, and an assignable one is accepted with the scope unchanged |
| AnalyzerProperties.ForBodySharesLoopScope | MACSLang.SemanticAnalyzer/SemanticAnalyzer.cs:198-220 | the `for` body shares the loop scope, so redeclaring the loop variable there raises |
| AnalyzerProperties.WhileBodyMayShadow | MACSLang.SemanticAnalyzer/SemanticAnalyzer.cs:183-196 | a `while` body opens its own scope, so it may redeclare a name of the enclosing scope |
| AnalyzerProperties.FreshNamesStep | MACSLang.SemanticAnalyzer/SemanticAnalyzer.cs:37-43 | the remaining names are fresh exactly when the current one is fresh and the rest are fresh after binding it |
| AnalyzerProperties.RegistrationSucceeds | MACSLang.SemanticAnalyzer/SemanticAnalyzer.cs:37-43 | the first phase succeeds exactly when the function names are new and distinct, and otherwise raises "already defined" with no token |
| AnalyzerProperties.RegistrationKeeps | MACSLang.SemanticAnalyzer/SemanticAnalyzer.cs:37-43 | a successful first phase keeps every binding it started from |
| AnalyzerProperties.RegistrationBinds | MACSLang.SemanticAnalyzer/SemanticAnalyzer.cs:37-43 | a successful first phase binds every declared name to its signature |
| AnalyzerProperties.RegistrationSize | MACSLang.SemanticAnalyzer/SemanticAnalyzer.cs:37-43 | a successful first phase adds exactly one binding per declaration |
| AnalyzerProperties.SignatureTyped | MACSLang.SemanticAnalyzer/SemanticAnalyzer.cs:37-43 | a signature's parameter and return types are type keywords |
| AnalyzerProperties.RegistrationTyped | MACSLang.SemanticAnalyzer/SemanticAnalyzer.cs:37-43 | the global scope the first phase builds holds only typed symbols |
| AnalyzerProperties.DuplicateFunctionsRaiseFirst | MACSLang.SemanticAnalyzer/SemanticAnalyzer.cs:33-67 | two functions of one name make the whole analysis fail in the first phase with "already defined", whatever the bodies hold |
| AnalyzerProperties.SignaturesAreGlobal | MACSLang.SemanticAnalyzer/SemanticAnalyzer.cs:33-67 | after the first phase every function, declared earlier or later, resolves to its signature, so bodies may call functions declared after them |
| AnalyzerProperties.CurrentFunctionIsTheDeclaration | MACSLang.SemanticAnalyzer/SemanticAnalyzer.cs:50-52 | in the second phase the current function is the symbol of the declaration being checked |
| AnalyzerProperties.BodiesSucceed | MACSLang.SemanticAnalyzer/SemanticAnalyzer.cs:46-66 | the second phase succeeds exactly when every function body checks |
| AnalyzerProperties.BodiesInOrder | MACSLang.SemanticAnalyzer/SemanticAnalyzer.cs:46-66 | the second phase returns each function's checked result in its own position |
| AnalyzerProperties.AnalysisKeepsSignatures | MACSLang.SemanticAnalyzer/SemanticAnalyzer.cs:26-67 | an analysed program has the same functions in order, with names, parameters and return types unchanged |
| AnalyzerProperties.CheckedFunctionKeepsSignature | MACSLang.SemanticAnalyzer/SemanticAnalyzer.cs:46-66 | a checked function is the declaration with only its body replaced: name, parameters and return type unchanged |
| CodeGenSpec.ConvertType | MACSLang.CodeGenerator/CodeGenerator.cs:378-390 | the five types and FUNC have a C# name and every other kind throws naming the kind |
| CodeGenSpec.ConvertOperator | MACSLang.CodeGenerator/CodeGenerator.cs:392-412 | a kind that is not converted throws naming the kind |
| CodeGenSpec.ToLower | MACSLang.CodeGenerator/CodeGenerator.cs:340 | lower-casing keeps the length and lower-cases each character in place |
| CodeGenSpec.ParameterTexts | MACSLang.CodeGenerator/CodeGenerator.cs:414-422 | one "type name" text per parameter, in order |
| CodeGenSpec.DefaultValue | MACSLang.CodeGenerator/CodeGenerator.cs:171-179 | the default initializer per type; `CodeGenProperties.UninitializedDeclaration` states that a declaration without initializer receives it, `DefaultPlain` that it holds no brace or `;` |
| CodeGenSpec.LiteralText | MACSLang.CodeGenerator/CodeGenerator.cs:328-349 | quotes around strings and chars, lower-cased booleans; `CodeGenProperties.LiteralLowering`, `LexedBooleansPrintVerbatim` and `LiteralPlain` state it |
| CodeGenSpec.ExprText | MACSLang.CodeGenerator/CodeGenerator.cs:315-368 | an expression visit as text; `CodeGen.CodeGenerator.VisitExpression` is proved to append it, `CodeGenProperties.ExprAppends`, `ExprAnyBuffer`, `CallText` and `CompilerProperties.ExprGenerates` state it |
| CodeGenSpec.StmtText | MACSLang.CodeGenerator/CodeGenerator.cs:158-311 | a statement visit as text; `CodeGen.CodeGenerator.VisitStatement` is proved to append it, `CodeGenProperties.StmtAppends`, `CodeGenBraces.StmtBalanced` and `CompilerProperties.StmtGenerates` state it |
| CodeGenSpec.InputText | MACSLang.CodeGenerator/CodeGenerator.cs:198-230 | an input visit as text; `CodeGenProperties.InputShape` and `InputNeedsAnalysis` state it |
| CodeGenSpec.ForInitText | MACSLang.CodeGenerator/CodeGenerator.cs:265-281 | the corrected init slot; `CodeGenProperties.ForInitMatchesDeclaration` states that a declaration in it is written as a declaration statement is |
| CodeGenSpec.ForInitAsWritten | MACSLang.CodeGenerator/CodeGenerator.cs:265-281 | the init slot as the source writes it; `CodeGenProperties.AsWrittenDiffersOnlyWithoutInitializer` and `UninitializedLoopVariable` state where it throws |
| CodeGenSpec.ForHeaderText | MACSLang.CodeGenerator/CodeGenerator.cs:263-302 | the `for` header; `CodeGenProperties.ForHeaderParts`, `ForHeaderSemicolons` and `CodeGenBraces.ForHeaderBalanced` state it |
| CodeGenSpec.ForText | MACSLang.CodeGenerator/CodeGenerator.cs:261-304 | a `for` visit as text; `CodeGenBraces.ForBalanced` and `CompilerProperties.ForGenerates` state it |
| CodeGenSpec.BlockText | MACSLang.CodeGenerator/CodeGenerator.cs:138-155 | a block visit as text; `CodeGenProperties.BlockAppends`, `CodeGenBraces.BlockBalanced` and `CompilerProperties.BlockGenerates` state it |
| CodeGenSpec.FunctionText | MACSLang.CodeGenerator/CodeGenerator.cs:109-136 | a function visit as text; `CodeGenProperties.FunctionAppends`, `MainIgnoresParameters` and `CodeGenBraces.FunctionBalanced` state it |
| CodeGenSpec.GenerateText | MACSLang.CodeGenerator/CodeGenerator.cs:27-65 | `Generate` from a given level; `CodeGenProperties.GenerateAppends` states it |
| CodeGenSpec.Generate | MACSLang.CodeGenerator/CodeGenerator.cs:19-65 | the output of a new generator; `CodeGenBraces.GenerateBalanced` and `CompilerProperties.ProgramGenerates` state it |
| CodeGen.CodeGenerator.constructor | MACSLang.CodeGenerator/CodeGenerator.cs:19-24 | a new generator has an empty buffer, level 0 and return type "void" |
| CodeGen.CodeGenerator.Emit | MACSLang.CodeGenerator/CodeGenerator.cs:69-72 | the code is appended to the buffer and nothing else changes |
| CodeGen.CodeGenerator.EmitIndent | MACSLang.CodeGenerator/CodeGenerator.cs:80-86 | the loop appends four spaces per level (none below level one) and nothing else |
| CodeGen.CodeGenerator.EmitLine | MACSLang.CodeGenerator/CodeGenerator.cs:74-78 | the indentation, the code and a newline are appended |
| CodeGen.CodeGenerator.Indent | MACSLang.CodeGenerator/CodeGenerator.cs:88-91 | the level goes up by one and the buffer is unchanged |
| CodeGen.CodeGenerator.Dedent | MACSLang.CodeGenerator/CodeGenerator.cs:93-96 | the level goes down by one and the buffer is unchanged |
| CodeGen.CodeGenerator.VisitExpression | MACSLang.CodeGenerator/CodeGenerator.cs:315-368 | an expression visit appends exactly `CodeGenSpec.ExprText`, or throws its error |
| CodeGen.CodeGenerator.VisitCall | MACSLang.CodeGenerator/CodeGenerator.cs:356-368 | the argument loop appends the call's text as `CodeGenSpec.ExprText` gives it |
| CodeGen.CodeGenerator.VisitStatement | MACSLang.CodeGenerator/CodeGenerator.cs:158-311 | a statement visit appends exactly `CodeGenSpec.StmtText` at the current level and restores the level |
| CodeGen.CodeGenerator.VisitInitializer | MACSLang.CodeGenerator/CodeGenerator.cs:164-180 | appends " = " and the value, or the declared type's default |
| CodeGen.CodeGenerator.VisitVariableDeclaration | MACSLang.CodeGenerator/CodeGenerator.cs:158-182 | appends `CodeGenSpec.DeclarationText` |
| CodeGen.CodeGenerator.VisitInput | MACSLang.CodeGenerator/CodeGenerator.cs:198-230 | appends `CodeGenSpec.InputText`: a flush line, then the read for the resolved type, or throws for a type with no C# name |
| CodeGen.CodeGenerator.VisitIf | MACSLang.CodeGenerator/CodeGenerator.cs:239-251 | appends `CodeGenSpec.IfText` and restores the level |
| CodeGen.CodeGenerator.VisitWhile | MACSLang.CodeGenerator/CodeGenerator.cs:253-259 | appends `CodeGenSpec.WhileText` and restores the level |
| CodeGen.CodeGenerator.VisitForInit | MACSLang.CodeGenerator/CodeGenerator.cs:265-281 | appends the corrected initialization slot `CodeGenSpec.ForInitText` |
| CodeGen.CodeGenerator.VisitForCondition | MACSLang.CodeGenerator/CodeGenerator.cs:284-287 | appends the condition when present |
| CodeGen.CodeGenerator.VisitIncrement | MACSLang.CodeGenerator/CodeGenerator.cs:290-301 | appends an assignment or expression increment, nothing for other statements |
| CodeGen.CodeGenerator.VisitForHeader | MACSLang.CodeGenerator/CodeGenerator.cs:263-302 | appends the three slots with their "; " separators and the indented ")" line |
| CodeGen.CodeGenerator.VisitFor | MACSLang.CodeGenerator/CodeGenerator.cs:261-304 | appends `CodeGenSpec.ForText` and restores the level |
| CodeGen.CodeGenerator.VisitBlock | MACSLang.CodeGenerator/CodeGenerator.cs:138-155 | appends the brace lines with the statements one level deeper between them, and restores the level |
| CodeGen.CodeGenerator.FormatParameters | MACSLang.CodeGenerator/CodeGenerator.cs:414-422 | the loop builds exactly `CodeGenSpec.FormatParameters` |
| CodeGen.CodeGenerator.VisitMain | MACSLang.CodeGenerator/CodeGenerator.cs:115-128 | the `main` branch appends `CodeGenSpec.FunctionText` for it |
| CodeGen.CodeGenerator.VisitFunction | MACSLang.CodeGenerator/CodeGenerator.cs:109-136 | appends `CodeGenSpec.FunctionText`; afterwards the return type is "void" again |
| CodeGen.CodeGenerator.VisitProgram | MACSLang.CodeGenerator/CodeGenerator.cs:100-107 | appends each function followed by a blank line, as `CodeGenSpec.FunctionsText` |
| CodeGen.CodeGenerator.EmitPreamble | MACSLang.CodeGenerator/CodeGenerator.cs:30-40 | appends the using lines, the namespace and class openings, and leaves the level two deeper |
| CodeGen.CodeGenerator.Generate | MACSLang.CodeGenerator/CodeGenerator.cs:27-65 | returns `CodeGenSpec.GenerateText`, which on success is the whole buffer, with the level restored |
| CodeGen.GenerateCode | MACSLang.CodeGenerator/CodeGenerator.cs:19-65 | a new generator's `Generate` returns exactly `CodeGenSpec.Generate` |
| CodeGenProperties.LinedAppends | MACSLang.CodeGenerator/CodeGenerator.cs:74-78 | a line appended to a longer buffer is that buffer's prefix followed by the line |
| CodeGenProperties.ExprAppends | MACSLang.CodeGenerator/CodeGenerator.cs:315-368 | an expression's text does not depend on what the buffer held before it |
| CodeGenProperties.ArgumentsAppend | MACSLang.CodeGenerator/CodeGenerator.cs:356-368 | the arguments' text does not depend on the earlier buffer |
| CodeGenProperties.StmtAppends | MACSLang.CodeGenerator/CodeGenerator.cs:158-311 | a statement's text does not depend on the earlier buffer |
| CodeGenProperties.ClosedAppends | MACSLang.CodeGenerator/CodeGenerator.cs:184-196 | an opening text, an expression and a closing line do not depend on the earlier buffer |
| CodeGenProperties.InitializerAppends | MACSLang.CodeGenerator/CodeGenerator.cs:164-180 | an initializer's text does not depend on the earlier buffer |
| CodeGenProperties.IfAppends | MACSLang.CodeGenerator/CodeGenerator.cs:239-251 | an `if`'s text does not depend on the earlier buffer |
| CodeGenProperties.ForHeaderAppends | MACSLang.CodeGenerator/CodeGenerator.cs:263-302 | a `for` header does not depend on the earlier buffer |
| CodeGenProperties.ForInitAppends | MACSLang.CodeGenerator/CodeGenerator.cs:265-281 | the initialization slot does not depend on the earlier buffer |
| CodeGenProperties.ForConditionAppends | MACSLang.CodeGenerator/CodeGenerator.cs:284-287 | the condition slot does not depend on the earlier buffer |
| CodeGenProperties.IncrementAppends | MACSLang.CodeGenerator/CodeGenerator.cs:290-301 | the increment slot does not depend on the earlier buffer |
| CodeGenProperties.BlockAppends | MACSLang.CodeGenerator/CodeGenerator.cs:138-155 | a block's text does not depend on the earlier buffer |
| CodeGenProperties.StatementsAppend | MACSLang.CodeGenerator/CodeGenerator.cs:148-151 | the statement loop's text does not depend on the earlier buffer |
| CodeGenProperties.FunctionAppends | MACSLang.CodeGenerator/CodeGenerator.cs:109-136 | a function's text does not depend on the earlier buffer |
| CodeGenProperties.FunctionsAppend | MACSLang.CodeGenerator/CodeGenerator.cs:100-107 | the function loop's text does not depend on the earlier buffer |
| CodeGenProperties.PreambleAppends | MACSLang.CodeGenerator/CodeGenerator.cs:30-40 | the preamble does not depend on the earlier buffer |
| CodeGenProperties.GenerateAppends | MACSLang.CodeGenerator/CodeGenerator.cs:27-65 | `Generate` returns the old buffer followed by a program text that does not depend on it |
| CodeGenProperties.SpacesShape | MACSLang.CodeGenerator/CodeGenerator.cs:80-86 | indentation is exactly four spaces per level and nothing else |
| CodeGenProperties.TypeNamesRoundTrip | MACSLang.CodeGenerator/CodeGenerator.cs:378-390 | the type table reads back: each converted kind is recovered from its C# name, and every name read back converts to itself |
| CodeGenProperties.TypeNamesDistinct | MACSLang.CodeGenerator/CodeGenerator.cs:378-390 | distinct kinds get distinct C# type names |
| CodeGenProperties.OperatorsConverted | MACSLang.CodeGenerator/CodeGenerator.cs:392-412 | exactly the fourteen operators are converted |
| CodeGenProperties.OperatorsReadBack | MACSLang.CodeGenerator/CodeGenerator.cs:392-412 | each operator is recovered from its C# spelling |
| CodeGenProperties.SpellingsReadBack | MACSLang.CodeGenerator/CodeGenerator.cs:392-412 | every spelling read back is produced by exactly that operator |
| CodeGenProperties.OperatorsSpelledAsScanned | MACSLang.CodeGenerator/CodeGenerator.cs:392-412 | each operator's C# spelling, scanned by the MACSLang lexer, is one token of that very operator covering the spelling |
| CodeGenProperties.ToLowerIdempotent | MACSLang.CodeGenerator/CodeGenerator.cs:340 | lower-casing keeps the length and is idempotent |
| CodeGenProperties.LexedBooleansPrintVerbatim | MACSLang.CodeGenerator/CodeGenerator.cs:338-341 | a TRUE or FALSE token from the lexer is spelled `true` or `false`, so it is written unchanged |
| CodeGenProperties.ExprAnyBuffer | MACSLang.CodeGenerator/CodeGenerator.cs:315-368 | an expression's text after any buffer is that buffer followed by its text from an empty one |
| CodeGenProperties.GroupingNotWritten | MACSLang.CodeGenerator/CodeGenerator.cs:315-326 | no parentheses are written: `(a o1 b) o2 c` and `a o1 (b o2 c)` give the same text, and `-(-a)` is written `--a` |
| CodeGenProperties.ArgumentsJoin | MACSLang.CodeGenerator/CodeGenerator.cs:359-366 | the arguments are written in order separated by ", " (a join) |
| CodeGenProperties.CallText | MACSLang.CodeGenerator/CodeGenerator.cs:356-368 | a call is written as its name and its arguments' texts joined by ", " in parentheses |
| CodeGenProperties.ArgumentsSucceed | MACSLang.CodeGenerator/CodeGenerator.cs:359-366 | the arguments generate exactly when each of them does |
| CodeGenProperties.CallSucceeds | MACSLang.CodeGenerator/CodeGenerator.cs:356-368 | a call generates exactly when each argument does |
| CodeGenProperties.TypeNamePlain | MACSLang.CodeGenerator/CodeGenerator.cs:378-390 | no C# type name holds a comma, a ';' or a brace |
| CodeGenProperties.JoinAvoids | MACSLang.CodeGenerator/CodeGenerator.cs:421 | a join holds a character other than ',' and ' ' only if one of the texts does |
| CodeGenProperties.ParameterCommas | MACSLang.CodeGenerator/CodeGenerator.cs:414-422 | the parameter list has exactly one comma fewer than there are parameters, when no name holds one |
| CodeGenProperties.ParametersAvoid | MACSLang.CodeGenerator/CodeGenerator.cs:414-422 | the parameter list holds ';' or a brace only where a parameter name does |
| CodeGenProperties.MainIgnoresParameters | MACSLang.CodeGenerator/CodeGenerator.cs:115-117 | `main` becomes `Main(string[] args)` whatever parameters it declares |
| CodeGenProperties.InputNeedsAnalysis | MACSLang.CodeGenerator/CodeGenerator.cs:203 | an input whose type was never resolved (still VAR) throws, so generation needs the analyzer's annotation |
| CodeGenProperties.InputShape | MACSLang.CodeGenerator/CodeGenerator.cs:198-230 | an input of a resolved type is the flush line, the read and a line end, and depends only on the target's name and type |
| CodeGenProperties.OperatorPlain | MACSLang.CodeGenerator/CodeGenerator.cs:392-412 | no operator spelling holds ';' or a brace |
| CodeGenProperties.LiteralPlain | MACSLang.CodeGenerator/CodeGenerator.cs:328-349 | a literal's text holds ';' or a brace only where its lexeme does |
| CodeGenProperties.ExprKeeps | MACSLang.CodeGenerator/CodeGenerator.cs:315-368 | an expression adds ';' or braces to the buffer only through its lexemes |
| CodeGenProperties.ArgumentsKeep | MACSLang.CodeGenerator/CodeGenerator.cs:356-368 | so do the arguments of a call |
| CodeGenProperties.AppendPlain | MACSLang.CodeGenerator/CodeGenerator.cs:69-72 | appending text without a character keeps its count |
| CodeGenProperties.DefaultPlain | MACSLang.CodeGenerator/CodeGenerator.cs:171-179 | the default initializers hold no ';' or brace |
| CodeGenProperties.ForInitKeeps | MACSLang.CodeGenerator/CodeGenerator.cs:265-281 | the initialization slot adds markup only through its lexemes |
| CodeGenProperties.IncrementKeeps | MACSLang.CodeGenerator/CodeGenerator.cs:290-301 | the increment slot adds markup only through its lexemes |
| CodeGenProperties.SpacesPlain | MACSLang.CodeGenerator/CodeGenerator.cs:80-86 | indentation holds no markup |
| CodeGenProperties.LinedCount | MACSLang.CodeGenerator/CodeGenerator.cs:74-78 | a line adds exactly the markup of its code |
| CodeGenProperties.ForHeaderSemicolons | MACSLang.CodeGenerator/CodeGenerator.cs:282-288 | a `for` header holds exactly the two ';' separating its slots, whichever slots are empty |
| CodeGenProperties.ForHeaderParts | MACSLang.CodeGenerator/CodeGenerator.cs:263-302 | the header is the "for (" opening, the three slots with their separators, and the ")" line |
| CodeGenProperties.HeaderCount | MACSLang.CodeGenerator/CodeGenerator.cs:282-302 | the separators and the ")" line add exactly two ';' |
| CodeGenProperties.ForInitMatchesDeclaration | MACSLang.CodeGenerator/CodeGenerator.cs:158-182 | the corrected initialization slot writes a declaration exactly as the declaration statement does, without its ";" line end |
| CodeGenProperties.AsWrittenDiffersOnlyWithoutInitializer | MACSLang.CodeGenerator/CodeGenerator.cs:267-271 | the slot as written and the corrected slot differ exactly on a declaration without initializer |
| CodeGenProperties.UninitializedLoopVariable | MACSLang.CodeGenerator/CodeGenerator.cs:269-270 | `for (var i: int; ; ) { }` (the tree `CompilerProperties.UninitializedLoopVariableParses` shows the parser builds) passes analysis, the slot as written throws on the missing initializer, and the corrected generator writes `for (int i = 0; ; )` |
| CodeGenBraces.BalanceAppend | MACSLang.CodeGenerator/CodeGenerator.cs:69-72 | brace balance adds up over concatenation |
| CodeGenBraces.BalanceCounts | MACSLang.CodeGenerator/CodeGenerator.cs:138-155 | the balance is the number of '{' minus the number of '}' |
| CodeGenBraces.LinedBalance | MACSLang.CodeGenerator/CodeGenerator.cs:74-78 | a line adds the balance of its code |
| CodeGenBraces.ExprBalanced | MACSLang.CodeGenerator/CodeGenerator.cs:315-368 | a brace-free expression keeps the balance |
| CodeGenBraces.SetOutBalanced | MACSLang.CodeGenerator/CodeGenerator.cs:121 | the console set-up line opens and closes one object initializer |
| CodeGenBraces.ReadBraceless | MACSLang.CodeGenerator/CodeGenerator.cs:206-228 | every read line is brace-free when the target name is |
| CodeGenBraces.StmtBalanced | MACSLang.CodeGenerator/CodeGenerator.cs:158-311 | every statement's text adds as many '{' as '}' |
| CodeGenBraces.ForHeaderBalanced | MACSLang.CodeGenerator/CodeGenerator.cs:263-302 | a `for` header is brace-free |
| CodeGenBraces.IfBalanced | MACSLang.CodeGenerator/CodeGenerator.cs:239-251 | an `if` is balanced |
| CodeGenBraces.WhileBalanced | MACSLang.CodeGenerator/CodeGenerator.cs:253-259 | a `while` is balanced |
| CodeGenBraces.ForBalanced | MACSLang.CodeGenerator/CodeGenerator.cs:261-304 | a `for` is balanced |
| CodeGenBraces.BlockBalanced | MACSLang.CodeGenerator/CodeGenerator.cs:138-155 | a block's brace lines match and its statements are balanced |
| CodeGenBraces.StatementsBalanced | MACSLang.CodeGenerator/CodeGenerator.cs:148-151 | the statement loop is balanced |
| CodeGenBraces.MainEntryBalance | MACSLang.CodeGenerator/CodeGenerator.cs:117-121 | the lines `main` starts with open one brace |
| CodeGenBraces.MainBalanced | MACSLang.CodeGenerator/CodeGenerator.cs:115-128 | the `main` branch is balanced |
| CodeGenBraces.FunctionBalanced | MACSLang.CodeGenerator/CodeGenerator.cs:109-136 | every function's text is balanced |
| CodeGenBraces.FunctionsBalanced | MACSLang.CodeGenerator/CodeGenerator.cs:100-107 | the function loop is balanced |
| CodeGenBraces.PreambleBalance | MACSLang.CodeGenerator/CodeGenerator.cs:30-40 | the preamble opens the namespace and the class and closes neither |
| CodeGenBraces.GenerateBalanced | MACSLang.CodeGenerator/CodeGenerator.cs:27-65 | the generated program holds as many '{' as '}' when no lexeme holds a brace |
| CodeGenProperties.TypeNameTable | MACSLang.CodeGenerator/CodeGenerator.cs:382-387 | int, float, char, bool and string keep their names in C#, and FUNC becomes "void" |
| CodeGenProperties.UninitializedDeclaration | MACSLang.CodeGenerator/CodeGenerator.cs:169-181 | a declaration without initializer is written with its type's default: ` = 0`, ` = 0.0f`, ` = '\0'`, ` = false` or ` = string.Empty` |
| CodeGenProperties.LiteralLowering | MACSLang.CodeGenerator/CodeGenerator.cs:328-349 | string and char lexemes are written between their quotes and floats with an `f`, so the lexeme reads back from the text; booleans are lower-cased and ints unchanged |
| CompilerProperties.ExprGenerates | MACSLang.CodeGenerator/CodeGenerator.cs:315-368 | an expression generates exactly when every operator in it is one of the fourteen converted operators |
| CompilerProperties.ArgumentsGenerate | MACSLang.CodeGenerator/CodeGenerator.cs:359-366 | the arguments generate exactly when each is generable |
| CompilerProperties.InitializerGenerates | MACSLang.CodeGenerator/CodeGenerator.cs:164-180 | an initializer generates exactly when its value, if any, is generable |
| CompilerProperties.StmtGenerates | MACSLang.CodeGenerator/CodeGenerator.cs:158-311 | a statement generates exactly when its expressions are generable and each input has a resolved type, at any level and after any buffer |
| CompilerProperties.IfGenerates | MACSLang.CodeGenerator/CodeGenerator.cs:239-251 | an `if` generates exactly when it is generable |
| CompilerProperties.ForInitGenerates | MACSLang.CodeGenerator/CodeGenerator.cs:265-281 | the initialization slot generates exactly when its expression parts are generable |
| CompilerProperties.IncrementGenerates | MACSLang.CodeGenerator/CodeGenerator.cs:290-301 | the increment slot generates exactly when its expression parts are generable |
| CompilerProperties.ForHeaderGenerates | MACSLang.CodeGenerator/CodeGenerator.cs:263-302 | a `for` header generates exactly when its three slots do |
| CompilerProperties.ForGenerates | MACSLang.CodeGenerator/CodeGenerator.cs:261-304 | a `for` generates exactly when its header and body do |
| CompilerProperties.BlockGenerates | MACSLang.CodeGenerator/CodeGenerator.cs:138-155 | a block generates exactly when all its statements do |
| CompilerProperties.StatementsGenerate | MACSLang.CodeGenerator/CodeGenerator.cs:148-151 | the statement loop succeeds exactly when every remaining statement is generable |
| CompilerProperties.FunctionGenerates | MACSLang.CodeGenerator/CodeGenerator.cs:109-136 | a function generates exactly when its body does |
| CompilerProperties.FunctionsGenerate | MACSLang.CodeGenerator/CodeGenerator.cs:100-107 | the function loop succeeds exactly when every remaining body is generable |
| CompilerProperties.ProgramGenerates | MACSLang.CodeGenerator/CodeGenerator.cs:27-65 | `Generate` succeeds exactly on generable programs |
| CompilerProperties.EnvSnoc | MACSLang.SemanticAnalyzer/SemanticAnalyzer.cs:18-23 | a chain of typed scopes extended by a typed scope is typed |
| CompilerProperties.TypedExprGenerable | MACSLang.SemanticAnalyzer/SemanticAnalyzer.cs:227-404 | an expression the analyzer types uses only converted operators |
| CompilerProperties.TypedArgumentsGenerable | MACSLang.SemanticAnalyzer/SemanticAnalyzer.cs:392-400 | the argument trees the analyzer returns are generable |
| CompilerProperties.CheckedStmtGenerable | MACSLang.SemanticAnalyzer/SemanticAnalyzer.cs:82-225 | a statement the analyzer accepts is generable, and its scope stays one of typed symbols |
| CompilerProperties.CheckedDeclarationGenerable | MACSLang.SemanticAnalyzer/SemanticAnalyzer.cs:82-101 | an accepted declaration is generable and binds a typed variable |
| CompilerProperties.CheckedScopedBlockGenerable | MACSLang.SemanticAnalyzer/SemanticAnalyzer.cs:169-179 | an accepted block in its own scope is generable |
| CompilerProperties.CheckedForGenerable | MACSLang.SemanticAnalyzer/SemanticAnalyzer.cs:198-220 | an accepted `for` is generable |
| CompilerProperties.CheckedSlotGenerable | MACSLang.SemanticAnalyzer/SemanticAnalyzer.cs:203-217 | an accepted `for` slot is generable as an initializer and as an increment |
| CompilerProperties.CheckedBlockGenerable | MACSLang.SemanticAnalyzer/SemanticAnalyzer.cs:76-80 | an accepted block is generable |
| CompilerProperties.CheckedStatementsGenerable | MACSLang.SemanticAnalyzer/SemanticAnalyzer.cs:76-80 | every statement the analyzer's loop accepts is generable |
| CompilerProperties.ParametersTyped | MACSLang.SemanticAnalyzer/SemanticAnalyzer.cs:54-58 | parameters are defined as variables of their declared types |
| CompilerProperties.CheckedFunctionGenerable | MACSLang.SemanticAnalyzer/SemanticAnalyzer.cs:46-66 | an accepted function body is generable |
| CompilerProperties.CheckedFunctionsGenerable | MACSLang.SemanticAnalyzer/SemanticAnalyzer.cs:46-66 | every body the second phase accepts is generable |
| CompilerProperties.AnalyzedProgramsGenerable | MACSLang.SemanticAnalyzer/SemanticAnalyzer.cs:26-67 | every program the analyzer accepts is generable |
| CompilerProperties.AnalyzedProgramsGenerate | MACSLang.CodeGenerator/CodeGenerator.cs:27-65 | code generation never throws on a program the analyzer accepted and annotated (with the corrected `for` initializer) |
| CompilerProperties.UninitializedLoopVariableParses | MACSLang.Parser/Parser.cs:281-340 | the tokens of `for (var i: int; ; ) { }` parse as a for statement whose init slot is a declaration of `i: int` without initializer |

## Left out

- I/O: `MACSLang.Compiler/Program.cs` (console menu, files, the `.csproj`, running `dotnet`) is not part of this model.
- The visitor double dispatch (`IAstVisitor.cs`, the `Accept` methods) becomes `match` over the datatypes.
- Node mutation: the analyzer writes `ExpressionType` and `ResolvedTargetType` into the nodes in place. The model returns a new annotated tree instead, so sharing of nodes between trees is not modelled.
- `GetExpressionType` re-runs `Accept` on an expression that was already visited. Each re-visit records the same type again, so typing is one pure function and the repeated visits are not modelled.
- State after a throw: when a visit throws, the model states only the error. The half-updated scope chain, indentation level or buffer is left unstated, since the source abandons the compilation after an exception.
- Analyzer.SemanticAnalyzer.VisitProgram: requires the current scope to be the global one, as it is on every call the source makes (`Analyze` on a new analyzer).
- Floating point: a float literal keeps its lexeme, and its `double` value is opaque.
- Character classes: `char.IsDigit`, `char.IsLetter`, `char.IsLetterOrDigit` and `ToLower` are modelled over ASCII only.
- Unit of text: the source text is a Dafny `string`, a sequence of Unicode scalar values, where a C# `string` is a sequence of UTF-16 code units. The two agree on text made only of characters of the Basic Multilingual Plane. A character outside it is one element in the model and two code units (a surrogate pair) in the source, so the lexers below differ on such text.
- Scanner.ScanChar: for `'\U{1F600}'` (a character outside the Basic Multilingual Plane between quotes) gives CHAR_LITERAL with that character as lexeme, whereas MACSLang.Lexer/Lexer.cs:263-268 stores only the high surrogate, meets the low surrogate where it expects the closing quote, and returns UNKNOWN with a one-code-unit lexeme. A lone surrogate is not a Dafny `char`, so that behaviour cannot be written over `string`.
- Lexer.Lexer.LexChar: the same difference as Scanner.ScanChar, since it is proved equal to it.
- Scanner.CharLiterals: states CHAR_LITERAL for any single character between quotes, including one outside the Basic Multilingual Plane, which the source lexes as UNKNOWN (see Scanner.ScanChar above).
- Lexer.Lexer.Advance: adds one to the column per Dafny `char`, where MACSLang.Lexer/Lexer.cs:51-55 adds one per UTF-16 code unit. After a character outside the Basic Multilingual Plane (in a string literal, a char literal or a comment) every later column on that line, including the columns in parse and semantic error messages, is one less per such character than in the source. `Scanner.Advanced` and every token column in `Scanner` count the same way.
- `StringBuilder.AppendLine` is modelled as appending "\n", not the platform's newline.
- The empty `if` in `Generate` that tests for a `main` function has no effect, so it is not modelled.
- The parser reads a token sequence that ends in EOF, produced beforehand, rather than pulling from the lexer on demand. This is equivalent because `NextToken` keeps returning EOF at the end of the input; `Scanner.EofIsStable` proves that.
- The exact Portuguese wording of parse errors is a message enum. Semantic errors carry a reason whose text is spelled out in `SemanticErrors.ReasonText`.
- CodeGen.CodeGenerator.VisitForInit: models the `for` initializer with the evidently intended default for a declaration without an initializer, not the null dereference of the source (see Findings).
- CodeGen.CodeGenerator.VisitStatement: where the source throws on a declaration without initializer in a `for` init slot (MACSLang.CodeGenerator/CodeGenerator.cs:269-270), it appends the type's default instead; the throwing behaviour is CodeGenSpec.ForInitAsWritten (see Findings).
- CodeGen.CodeGenerator.VisitForHeader: the same corrected init slot, not the source's null dereference.
- CodeGen.CodeGenerator.VisitFor: the same corrected init slot, not the source's null dereference.
- CodeGen.CodeGenerator.Generate: the same corrected init slot, not the source's null dereference.
- CodeGen.GenerateCode: the same corrected init slot, not the source's null dereference.
- CodeGenSpec.ForHeaderText: built on the corrected CodeGenSpec.ForInitText, so it writes the default where the source throws.
- CodeGenSpec.ForText: the same corrected init slot, through CodeGenSpec.ForHeaderText.
- CodeGenSpec.StmtText: the same corrected init slot, through CodeGenSpec.ForText.
- CodeGenSpec.BlockText: the same corrected init slot, through CodeGenSpec.StmtText.
- CodeGenSpec.FunctionText: the same corrected init slot, through CodeGenSpec.BlockText.
- CodeGenSpec.GenerateText: the same corrected init slot, through CodeGenSpec.FunctionText.
- CodeGenSpec.Generate: the same corrected init slot, through CodeGenSpec.GenerateText.
- Ast.ParseInt32: models `int.TryParse` on the optionally signed digit strings only; the leading and trailing whitespace it also accepts never occurs in an INT_LITERAL lexeme, which the lexer builds from digits alone.
- Parenthesisation: the generator writes operands without parentheses (MACSLang.CodeGenerator/CodeGenerator.cs:315-326), so the C# text is regrouped by C#'s precedence and `-(-a)` becomes the decrement `--a`; the model keeps this behaviour (`CodeGenProperties.GroupingNotWritten`) and proves nothing about how C# reads the text.
- CodeGenBraces.GenerateBalanced: assumes that no lexeme of the program contains a brace. Only string and char literals can contain one.
- CodeGenProperties.ForHeaderSemicolons: assumes that no lexeme in the slots contains a `;`.
- SemanticErrors.FormatErrorMessage: its contract states the common head and, with a token, the " em Linha: " continuation. The position, lexeme and kind that follow are given by its definition only.
- CodeGenSpec.ConvertOperator: its own contract states only the error. Which kinds convert, and to which spellings, is stated by `CodeGenProperties.OperatorsConverted`, `OperatorsReadBack`, `SpellingsReadBack` and `OperatorsSpelledAsScanned`.
- ParserSpec.ParseExpression: its own contract states only progress or the node kind; what it parses is stated by ParserProperties.OperandIsExpression, LogicalOrLeftAssociative, AndBindsTighterThanOr, Disjunction and ParenthesizedIsInner.
- ParserSpec.ParseLogicalOr: its own contract states only progress or the node kind; what it parses is stated by the lemmas about ParserSpec.ParseExpression, which is this level.
- ParserSpec.ParseLogicalOrRest: its own contract states only progress or the node kind; what it parses is stated by ParserProperties.LogicalOrStep.
- ParserSpec.ParseLogicalAnd: its own contract states only progress or the node kind; what it parses is stated by ParserProperties.Conjunction and LogicalOrStep.
- ParserSpec.ParseLogicalAndRest: its own contract states only progress or the node kind; what it parses is stated by ParserProperties.LogicalAndStep.
- ParserSpec.ParseEquality: its own contract states only progress or the node kind; what it parses is stated by ParserProperties.EqualityLeftAssociative, ComparisonBindsTighterThanEquality and LogicalAndStep.
- ParserSpec.ParseEqualityRest: its own contract states only progress or the node kind; what it parses is stated by ParserProperties.EqualityStep.
- ParserSpec.ParseComparison: its own contract states only progress or the node kind; what it parses is stated by ParserProperties.Comparison, ComparisonLeftAssociative, AdditiveBindsTighterThanComparison and EqualityStep.
- ParserSpec.ParseComparisonRest: its own contract states only progress or the node kind; what it parses is stated by ParserProperties.ComparisonStep.
- ParserSpec.ParseAdditive: its own contract states only progress or the node kind; what it parses is stated by ParserProperties.Sum, AdditiveLeftAssociative, MultiplicationBindsTighter and ComparisonStep.
- ParserSpec.ParseAdditiveRest: its own contract states only progress or the node kind; what it parses is stated by ParserProperties.AdditiveStep.
- ParserSpec.ParseMultiplicative: its own contract states only progress or the node kind; what it parses is stated by ParserProperties.Product, UnaryBindsTighter and AdditiveStep.
- ParserSpec.ParseMultiplicativeRest: its own contract states only progress or the node kind; what it parses is stated by ParserProperties.MultiplicativeStep.
- ParserSpec.ParseUnary: its own contract states only progress or the node kind; what it parses is stated by ParserProperties.UnaryIsPrefix, UnaryBindsTighter, OperandIsExpression and MultiplicativeStep.
- ParserSpec.ParsePrimary: its own contract states only progress or the node kind; what it parses is stated by ParserProperties.ParenthesizedIsInner, BadExpressionStart and UnaryBindsTighter.
- ParserSpec.ParseLiteral: its own contract states only progress or the node kind; what it parses is given by its definition only.
- ParserSpec.ParseNameExpression: its own contract states only progress or the node kind; what it parses is given by its definition only.
- ParserSpec.ParseParenthesized: its own contract states only progress or the node kind; what it parses is given by its definition only.
- ParserSpec.ParseCall: its own contract states only progress or the node kind; what it parses is stated by ParserProperties.CallStatementSemicolon.
- ParserSpec.ParseArgumentList: its own contract states only progress or the node kind; what it parses is given by its definition only.
- ParserSpec.ParseNonEmptyArguments: its own contract states only progress or the node kind; what it parses is given by its definition only.
- ParserSpec.ParseArguments: its own contract states only progress or the node kind; what it parses is given by its definition only.
- ParserSpec.ParseBlock: its own contract states only progress or the node kind; what it parses is stated by ParserProperties.EmptyBlock and ForEmptySlots.
- ParserSpec.ParseStatements: its own contract states only progress or the node kind; what it parses is given by its definition only.
- ParserSpec.ParseStatement: its own contract states only progress or the node kind; what it parses is stated by ParserProperties.NameStatementDispatch and CompilerProperties.UninitializedLoopVariableParses.
- ParserSpec.ParseNameStatement: its own contract states only progress or the node kind; what it parses is given by its definition only.
- ParserSpec.ParseCallStatement: its own contract states only progress or the node kind; what it parses is stated by ParserProperties.NameStatementDispatch and CallStatementSemicolon.
- ParserSpec.ParseVarDecl: its own contract states only progress or the node kind; what it parses is stated by ParserProperties.DeclarationWithoutInitializer, DeclarationEndsWithSemicolon and ForInitDeclaration.
- ParserSpec.ParseInitializer: its own contract states only progress or the node kind; what it parses is given by its definition only.
- ParserSpec.ParseAssignment: its own contract states only progress or the node kind; what it parses is stated by ParserProperties.AssignmentForms, NameStatementDispatch and ForInitAssignment.
- ParserSpec.ParseAssignmentNoSemicolon: its own contract states only progress or the node kind; what it parses is stated by ParserProperties.AssignmentForms and ForIncrementAssignment.
- ParserSpec.ParseReturn: its own contract states only progress or the node kind; what it parses is given by its definition only.
- ParserSpec.ParsePrint: its own contract states only progress or the node kind; what it parses is given by its definition only.
- ParserSpec.ParseInput: its own contract states only progress or the node kind; what it parses is given by its definition only.
- ParserSpec.ParseIf: its own contract states only progress or the node kind; what it parses is given by its definition only.
- ParserSpec.ParseElse: its own contract states only progress or the node kind; what it parses is given by its definition only.
- ParserSpec.ParseWhile: its own contract states only progress or the node kind; what it parses is given by its definition only.
- ParserSpec.ParseFor: its own contract states only progress or the node kind; what it parses is stated by ParserProperties.ForEmptySlots and CompilerProperties.UninitializedLoopVariableParses.
- ParserSpec.ParseForCondition: its own contract states only progress or the node kind; what it parses is given by its definition only.
- ParserSpec.ParseForInit: its own contract states only progress or the node kind; what it parses is stated by ParserProperties.ForInitDeclaration, ForInitAssignment and ForInitExpression.
- ParserSpec.ParseNameInit: its own contract states only progress or the node kind; what it parses is given by its definition only.
- ParserSpec.ParseInitDeclaration: its own contract states only progress or the node kind; what it parses is given by its definition only.
- ParserSpec.ParseInitAssignment: its own contract states only progress or the node kind; what it parses is given by its definition only.
- ParserSpec.ParseInitExpression: its own contract states only progress or the node kind; what it parses is given by its definition only.
- ParserSpec.ParseForIncrement: its own contract states only progress or the node kind; what it parses is stated by ParserProperties.ForIncrementAssignment.
- ParserSpec.ParseNameIncrement: its own contract states only progress or the node kind; what it parses is given by its definition only.
- ParserSpec.ParseIncrementExpression: its own contract states only progress or the node kind; what it parses is given by its definition only.
- ParserSpec.ParseParameter: its own contract states only progress or the node kind; what it parses is given by its definition only.
- ParserSpec.ParseParameterList: its own contract states only progress or the node kind; what it parses is given by its definition only.
- ParserSpec.ParseParameters: its own contract states only progress or the node kind; what it parses is given by its definition only.
- ParserSpec.ParseFunction: its own contract states only progress or the node kind; what it parses is stated by ParserProperties.ProgramIsFunctions.

## Findings

| source | as written | input that shows it | evidently intended | confidence | as-written member | corrected member |
|---|---|---|---|---|---|---|
| MACSLang.CodeGenerator/CodeGenerator.cs:269-270 | a declaration in a `for` initializer is written as `type name = ` followed by `InitialValue!`, which is dereferenced even when there is no initializer | `for (var i: int; ; ) { }`: the parser accepts a declaration without initializer in the init slot (MACSLang.Parser/Parser.cs:289-292, 191-207) and the analyzer accepts it, but generation throws a NullReferenceException | the declaration written as a declaration statement writes it, with the type's default (`for (int i = 0; ; )`) | not executed | CodeGenSpec.ForInitAsWritten, CodeGenProperties.UninitializedLoopVariable, CompilerProperties.UninitializedLoopVariableParses | CodeGenSpec.ForInitText, CodeGenProperties.ForInitMatchesDeclaration, CompilerProperties.AnalyzedProgramsGenerate |
