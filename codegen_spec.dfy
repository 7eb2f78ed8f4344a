/** The C# text MACSLang.CodeGenerator/CodeGenerator.cs emits, as functions of the tree, the
    indentation level and the buffer a visit starts from: each gives the buffer after the
    visit, or the exception the visit throws. `AppendLine` ends a line with "\n". */
module CodeGenSpec {
  import opened Wrappers
  import opened Tokens
  import opened Ast
  import Symbols

  /** Why generation throws. */
  datatype GenError =
    | UnknownType(kind: TokenType)
    | UnknownOperator(kind: TokenType)
    | NullInitializer(name: string)

  /** The exception messages: the two ArgumentExceptions of the conversion helpers, and the
      .NET message of the NullReferenceException the as-written for-initializer raises. */
  function GenErrorText(e: GenError): string {
    match e
    case UnknownType(k) => "Tipo MACSLang desconhecido: " + KindName(k)
    case UnknownOperator(k) => "Operador MACSLang desconhecido: " + KindName(k)
    case NullInitializer(_) => "Object reference not set to an instance of an object."
  }

  // ---------------------------------------------------------------------------------------
  // Conversion tables

  /** `ConvertMacsLangTypeToCSharp`: the five types and FUNC have a C# name; anything else
      throws. */
  function ConvertType(k: TokenType): (r: Result<string, GenError>)
    ensures r.Success? <==> IsTypeKeyword(k) || k == Func
    ensures r.Failure? ==> r.error == UnknownType(k)
  {
    match k
    case IntKeyword => Success("int")
    case FloatKeyword => Success("float")
    case CharKeyword => Success("char")
    case BoolKeyword => Success("bool")
    case StringKeyword => Success("string")
    case Func => Success("void")
    case _ => Failure(UnknownType(k))
  }

  /** The kind whose C# type name is `name`, if any: the reading direction of the table. */
  function TypeKind(name: string): Option<TokenType> {
    if name == "int" then Some(IntKeyword)
    else if name == "float" then Some(FloatKeyword)
    else if name == "char" then Some(CharKeyword)
    else if name == "bool" then Some(BoolKeyword)
    else if name == "string" then Some(StringKeyword)
    else if name == "void" then Some(Func)
    else None
  }

  /** The C# name of a type annotation; a `TypeNode` holds one of the five types, so the
      conversion cannot throw. */
  function TypeName(t: TypeNode): string {
    ConvertType(t.typeToken).value
  }

  /** `ConvertTokenTypeToCSharpOperator`: the fourteen operators, spelled as in C#; anything
      else throws. */
  function ConvertOperator(k: TokenType): (r: Result<string, GenError>)
    ensures r.Failure? ==> r.error == UnknownOperator(k)
  {
    match k
    case Plus => Success("+")
    case Minus => Success("-")
    case Multiply => Success("*")
    case Divide => Success("/")
    case Modulo => Success("%")
    case Equals => Success("==")
    case NotEquals => Success("!=")
    case LessThan => Success("<")
    case GreaterThan => Success(">")
    case LessEqual => Success("<=")
    case GreaterEqual => Success(">=")
    case And => Success("&&")
    case Or => Success("||")
    case Not => Success("!")
    case _ => Failure(UnknownOperator(k))
  }

  /** The operator kind a C# spelling stands for, if any. */
  function OperatorKind(spelling: string): Option<TokenType> {
    if spelling == "+" then Some(Plus)
    else if spelling == "-" then Some(Minus)
    else if spelling == "*" then Some(Multiply)
    else if spelling == "/" then Some(Divide)
    else if spelling == "%" then Some(Modulo)
    else if spelling == "==" then Some(Equals)
    else if spelling == "!=" then Some(NotEquals)
    else if spelling == "<" then Some(LessThan)
    else if spelling == ">" then Some(GreaterThan)
    else if spelling == "<=" then Some(LessEqual)
    else if spelling == ">=" then Some(GreaterEqual)
    else if spelling == "&&" then Some(And)
    else if spelling == "||" then Some(Or)
    else if spelling == "!" then Some(Not)
    else None
  }

  /** The initializer a declaration without one receives, by declared type. */
  function DefaultValue(k: TokenType): string {
    match k
    case IntKeyword => " = 0"
    case FloatKeyword => " = 0.0f"
    case CharKeyword => " = '\\0'"
    case BoolKeyword => " = false"
    case StringKeyword => " = string.Empty"
    case _ => " = null"
  }

  // ---------------------------------------------------------------------------------------
  // Lines and indentation

  /** `EmitIndent`: four spaces per level; a level below one indents nothing. */
  function Spaces(n: int): string
    decreases n
  {
    if n <= 0 then "" else Spaces(n - 1) + "    "
  }

  /** `EmitLine(code)` at level n, as text. */
  function Line(n: int, code: string): string {
    Spaces(n) + code + "\n"
  }

  /** The buffer after `EmitLine(code)` at level n. */
  function Lined(acc: string, n: int, code: string): string {
    acc + Spaces(n) + code + "\n"
  }

  // ---------------------------------------------------------------------------------------
  // Expressions

  /** ASCII lower case of one character. */
  function LowerChar(c: char): char {
    if 'A' <= c <= 'Z' then (c as int + 32) as char else c
  }

  /** `string.ToLower()` over ASCII letters. */
  function ToLower(s: string): (r: string)
    ensures |r| == |s|
    ensures forall k | 0 <= k < |s| :: r[k] == LowerChar(s[k])
  {
    seq(|s|, k requires 0 <= k < |s| => LowerChar(s[k]))
  }

  /** `Visit(LiteralExpressionNode)`: quotes around strings and chars, lower-cased booleans,
      an `f` after floats, any other lexeme as it is. */
  function LiteralText(t: Token): string {
    match t.kind
    case StringLiteral => "\"" + t.lexeme + "\""
    case CharLiteral => "'" + t.lexeme + "'"
    case True | False => ToLower(t.lexeme)
    case FloatLiteral => t.lexeme + "f"
    case _ => t.lexeme
  }

  // Every generation function below takes the buffer `acc` a visit starts from and gives
  // the buffer after it, or the error the visit throws.

  /** `Visit` of an expression node. */
  function ExprText(e: Expr, acc: string): Result<string, GenError>
    decreases e, 1
  {
    match e
    case Binary(l, op, r, _) =>
      var a :- ExprText(l, acc);
      var o :- ConvertOperator(op.kind);
      ExprText(r, a + (" " + o + " "))
    case Unary(op, x, _) =>
      var o :- ConvertOperator(op.kind);
      ExprText(x, acc + o)
    case Literal(t, _, _) => Success(acc + LiteralText(t))
    case Ident(t, _) => Success(acc + t.lexeme)
    case Call(t, args, _) =>
      var a :- ArgumentsText(args, 0, acc + (t.lexeme + "("));
      Success(a + ")")
  }

  /** The argument loop of `Visit(FunctionCallExpressionNode)` from argument i on: each
      argument, then ", " unless it is the last. */
  function ArgumentsText(args: seq<Expr>, i: nat, acc: string): Result<string, GenError>
    decreases args, |args| - i
  {
    if i >= |args| then Success(acc)
    else
      var a :- ExprText(args[i], acc);
      ArgumentsText(args, i + 1, if i < |args| - 1 then a + ", " else a)
  }

  // ---------------------------------------------------------------------------------------
  // Statements. Only `EmitLine` indents, so a statement starts where the previous text
  // stopped and the level's spaces land before its closing ";" and before block braces.

  function StmtText(n: int, s: Stmt, acc: string): Result<string, GenError>
    decreases s, 1
  {
    match s
    case VarDecl(_, _, _, _) => DeclarationText(n, s, acc)
    case AssignStmt(id, v, _) =>
      var a :- ExprText(v, acc + (id.lexeme + " = "));
      Success(Lined(a, n, ";"))
    case PrintStmt(x, _) =>
      var a :- ExprText(x, acc + "Console.WriteLine(");
      Success(Lined(a, n, ");"))
    case InputStmt(_, _, _) => InputText(n, s, acc)
    case ReturnStmt(v, _) =>
      var a :- ExprText(v, acc + "return ");
      Success(Lined(a, n, ";"))
    case IfStmt(_, _, _, _) => IfText(n, s, acc)
    case WhileStmt(_, _, _) => WhileText(n, s, acc)
    case ForStmt(_, _, _, _, _) => ForText(n, s, acc)
    case ExprStmt(x, _) =>
      var a :- ExprText(x, acc);
      Success(Lined(a, n, ";"))
  }

  /** The initializer part of a declaration: " = " and the value, or the type's default. */
  function InitializerText(k: TokenType, v: Option<Expr>, acc: string): Result<string, GenError> {
    match v
    case Some(x) => ExprText(x, acc + " = ")
    case None => Success(acc + DefaultValue(k))
  }

  /** `Visit(VariableDeclarationNode)`. */
  function DeclarationText(n: int, s: Stmt, acc: string): Result<string, GenError>
    requires s.VarDecl?
  {
    var a :- InitializerText(s.varType.typeToken, s.initialValue, acc + (TypeName(s.varType) + " " + s.identifier.lexeme));
    Success(Lined(a, n, ";"))
  }

  /** The read `Visit(InputStatementNode)` emits for a target type: the target is assigned
      the line read, converted to the target's type. */
  function ReadText(k: TokenType, name: string): string {
    name + " = " + ReadConversion(k)
  }

  function ReadConversion(k: TokenType): string {
    match k
    case IntKeyword => "int.Parse(" + ReadLine + "!, " + InvariantCulture + ");"
    case FloatKeyword => "float.Parse(" + ReadLine + "!, " + InvariantCulture + ");"
    case BoolKeyword => "bool.Parse(" + ReadLine + "!);"
    case CharKeyword => ReadLine + "![0];"
    case StringKeyword => ReadLine + ";"
    case _ => ReadLine + "; // Erro: " + "Tipo desconhecido para input"
  }

  const ReadLine: string := "Console.ReadLine()"
  const InvariantCulture: string := "CultureInfo.InvariantCulture"

  const FlushLine: string := "Console.Out.Flush();"

  /** `Visit(InputStatementNode)`: a flush line, then the read for the resolved type; a type
      the conversion refuses (the unresolved default) throws once the flush line is out. */
  function InputText(n: int, s: Stmt, acc: string): Result<string, GenError>
    requires s.InputStmt?
  {
    var k := s.resolvedType;
    var a := Lined(acc, n, FlushLine);
    if ConvertType(k).Failure? then Failure(UnknownType(k))
    else Success(Lined(a + ReadText(k, s.target.lexeme), n, ""))
  }

  /** `Visit(IfStatementNode)`. */
  function IfText(n: int, s: Stmt, acc: string): Result<string, GenError>
    requires s.IfStmt?
    decreases s, 0
  {
    var a :- ExprText(s.condition, acc + "if (");
    var b :- BlockText(n, s.trueBlock, a + ") ");
    if s.elseBlock.None? then Success(b)
    else BlockText(n, s.elseBlock.value, b + "else ")
  }

  /** `Visit(WhileStatementNode)`. */
  function WhileText(n: int, s: Stmt, acc: string): Result<string, GenError>
    requires s.WhileStmt?
    decreases s, 0
  {
    var a :- ExprText(s.condition, acc + "while (");
    BlockText(n, s.body, a + ") ")
  }

  /** The initialization slot of a `for`, as the generator is evidently meant to emit it: a
      declaration without an initializer receives its type's default, as a declaration
      statement does. */
  function ForInitText(init: Option<Stmt>, acc: string): Result<string, GenError> {
    match init
    case None => Success(acc)
    case Some(VarDecl(id, ty, v, _)) => InitializerText(ty.typeToken, v, acc + (TypeName(ty) + " " + id.lexeme))
    case Some(AssignStmt(id, v, _)) => ExprText(v, acc + (id.lexeme + " = "))
    case Some(ExprStmt(x, _)) => ExprText(x, acc)
    case Some(_) => Success(acc)
  }

  /** The initialization slot as CodeGenerator.cs:265-281 writes it: a declaration always gets
      " = " and its initializer is dereferenced with `!`, so one without an initializer throws. */
  function ForInitAsWritten(init: Option<Stmt>, acc: string): Result<string, GenError> {
    match init
    case None => Success(acc)
    case Some(VarDecl(id, ty, v, _)) =>
      if v.None? then Failure(NullInitializer(id.lexeme))
      else ExprText(v.value, acc + (TypeName(ty) + " " + id.lexeme + " = "))
    case Some(AssignStmt(id, v, _)) => ExprText(v, acc + (id.lexeme + " = "))
    case Some(ExprStmt(x, _)) => ExprText(x, acc)
    case Some(_) => Success(acc)
  }

  /** The condition slot of a `for`. */
  function ForConditionText(c: Option<Expr>, acc: string): Result<string, GenError> {
    match c
    case None => Success(acc)
    case Some(x) => ExprText(x, acc)
  }

  /** The increment slot of a `for`: an assignment or an expression; anything else emits
      nothing. */
  function IncrementText(u: Option<Stmt>, acc: string): Result<string, GenError> {
    match u
    case Some(AssignStmt(id, v, _)) => ExprText(v, acc + (id.lexeme + " = "))
    case Some(ExprStmt(x, _)) => ExprText(x, acc)
    case _ => Success(acc)
  }

  /** The header of a `for` on one line, the indentation landing before its ")". */
  function ForHeaderText(n: int, s: Stmt, acc: string): Result<string, GenError>
    requires s.ForStmt?
  {
    var a :- ForInitText(s.init, acc + "for (");
    var c :- ForConditionText(s.forCondition, a + "; ");
    var u :- IncrementText(s.increment, c + "; ");
    Success(Lined(u, n, ")"))
  }

  /** `Visit(ForStatementNode)`: the header, then the body. */
  function ForText(n: int, s: Stmt, acc: string): Result<string, GenError>
    requires s.ForStmt?
    decreases s, 0
  {
    var h :- ForHeaderText(n, s, acc);
    BlockText(n, s.body, h)
  }

  /** `Visit(BlockStatementNode)` at level n: its statements one level deeper between brace
      lines. */
  function BlockText(n: int, b: Block, acc: string): Result<string, GenError>
    decreases b, 2
  {
    var a :- StatementsText(n + 1, b.statements, 0, Lined(acc, n, "{"));
    Success(Lined(a, n, "}"))
  }

  /** The statement loop of a block from statement i on. */
  function StatementsText(n: int, ss: seq<Stmt>, i: nat, acc: string): Result<string, GenError>
    decreases ss, |ss| - i
  {
    if i >= |ss| then Success(acc)
    else
      var a :- StmtText(n, ss[i], acc);
      StatementsText(n, ss, i + 1, a)
  }

  // ---------------------------------------------------------------------------------------
  // Functions and the program

  /** One parameter of `FormatParameters`: type and name. */
  function ParameterText(p: Param): string {
    TypeName(p.paramType) + " " + p.identifier.lexeme
  }

  function ParameterTexts(ps: seq<Param>): (r: seq<string>)
    ensures |r| == |ps| && forall k | 0 <= k < |ps| :: r[k] == ParameterText(ps[k])
  {
    seq(|ps|, k requires 0 <= k < |ps| => ParameterText(ps[k]))
  }

  /** `FormatParameters`: the parameters joined by ", ". */
  function FormatParameters(ps: seq<Param>): string {
    Symbols.Join(ParameterTexts(ps))
  }

  /** The console set-up line of `Main`, around the braces of its object initializer. */
  const SetOutLine: string := SetOutOpening + "{" + SetOutInitializer + "}" + ");"
  const SetOutOpening: string := "Console.SetOut(" + "new StreamWriter(" + "Console.OpenStandardOutput()" + ") "
  const SetOutInitializer: string := " AutoFlush = true "

  /** The signature line of a function that is not `main`. */
  function Header(rt: string, f: Function): string {
    "public static " + rt + " " + f.identifier.lexeme + "(" + FormatParameters(f.parameters) + ")"
  }

  /** `Visit(FunctionDeclarationNode)`: `main` becomes the C# entry point `Main`, with the
      console set to flush and its body block one level deeper inside a second pair of
      braces; any other function becomes a static method of the same name. */
  function FunctionText(n: int, f: Function, acc: string): Result<string, GenError> {
    var rt := TypeName(f.returnType);
    if f.identifier.lexeme == "main" then
      var entry := Lined(Lined(Lined(acc, n, "public static " + rt + " Main(string[] args)"), n, "{"), n + 1, SetOutLine);
      var a :- BlockText(n + 1, f.body, entry);
      Success(Lined(a, n, "}"))
    else
      BlockText(n, f.body, Lined(acc, n, Header(rt, f)))
  }

  /** `Visit(ProgramNode)` from function i on: each function and a blank line. */
  function FunctionsText(n: int, fs: seq<Function>, i: nat, acc: string): Result<string, GenError>
    decreases |fs| - i
  {
    if i >= |fs| then Success(acc)
    else
      var a :- FunctionText(n, fs[i], acc);
      FunctionsText(n, fs, i + 1, Lined(a, n, ""))
  }

  /** The opening lines of `Generate` at level n. */
  function Preamble(n: int, acc: string): string {
    var a := Lined(Lined(Lined(Lined(acc, n, "using System;"), n, "using System.Linq;"), n, "using System.IO;"), n, "using System.Globalization;");
    Lined(Lined(Lined(Lined(Lined(a, n, ""), n, "namespace MACSLangRuntime"), n, "{"), n + 1, "public static class Program"), n + 1, "{")
  }

  /** `Generate` started at level n: the preamble, the functions two levels deeper, and the
      closing braces of the class and the namespace. */
  function GenerateText(n: int, p: Program, acc: string): Result<string, GenError> {
    var a :- FunctionsText(n + 2, p.functions, 0, Preamble(n, acc));
    Success(Lined(Lined(a, n + 1, "}"), n, "}"))
  }

  /** What a new `CodeGenerator` returns: generation from level 0 into an empty buffer. */
  function Generate(p: Program): Result<string, GenError> {
    GenerateText(0, p, "")
  }
}
