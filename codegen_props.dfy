/** Properties of the generated C# text (MACSLang.CodeGenerator/CodeGenerator.cs), stated
    on the functions of `CodeGenSpec`. */
module CodeGenProperties {
  import opened Wrappers
  import opened Tokens
  import opened Ast
  import Symbols
  import Scanner
  import Typing
  import AnalyzerSpec
  import opened CodeGenSpec

  /** The buffer `x` followed by what a visit gave from an empty one. */
  function Then(x: string, r: Result<string, GenError>): Result<string, GenError> {
    match r
    case Success(t) => Success(x + t)
    case Failure(e) => Failure(e)
  }

  lemma Assoc(a: string, b: string, c: string)
    ensures (a + b) + c == a + (b + c)
  {
  }

  // ---------------------------------------------------------------------------------------
  // A visit only appends, and what it appends does not depend on the text before it

  lemma LinedAppends(x: string, y: string, n: int, code: string)
    ensures Lined(x + y, n, code) == x + Lined(y, n, code)
  {
  }

  /** The text of an expression is the same whatever precedes it. */
  lemma {:induction false} ExprAppends(e: Expr, x: string, y: string)
    ensures ExprText(e, x + y) == Then(x, ExprText(e, y))
    decreases e, 1
  {
    match e
    case Binary(l, op, r, _) =>
      ExprAppends(l, x, y);
      var left := ExprText(l, y);
      var o := ConvertOperator(op.kind);
      if left.Success? && o.Success? {
        Assoc(x, left.value, " " + o.value + " ");
        ExprAppends(r, x, left.value + (" " + o.value + " "));
      }
    case Unary(op, operand, _) =>
      var o := ConvertOperator(op.kind);
      if o.Success? {
        Assoc(x, y, o.value);
        ExprAppends(operand, x, y + o.value);
      }
    case Literal(t, _, _) => Assoc(x, y, LiteralText(t));
    case Ident(t, _) => Assoc(x, y, t.lexeme);
    case Call(t, args, _) =>
      Assoc(x, y, t.lexeme + "(");
      ArgumentsAppend(args, 0, x, y + (t.lexeme + "("));
      var a := ArgumentsText(args, 0, y + (t.lexeme + "("));
      if a.Success? {
        Assoc(x, a.value, ")");
      }
  }

  lemma {:induction false} ArgumentsAppend(args: seq<Expr>, i: nat, x: string, y: string)
    ensures ArgumentsText(args, i, x + y) == Then(x, ArgumentsText(args, i, y))
    decreases args, |args| - i
  {
    if i < |args| {
      ExprAppends(args[i], x, y);
      var a := ExprText(args[i], y);
      if a.Success? {
        if i < |args| - 1 {
          Assoc(x, a.value, ", ");
          ArgumentsAppend(args, i + 1, x, a.value + ", ");
        } else {
          ArgumentsAppend(args, i + 1, x, a.value);
        }
      }
    }
  }

  /** The text of a statement is the same whatever precedes it. */
  lemma {:induction false} StmtAppends(n: int, s: Stmt, x: string, y: string)
    ensures StmtText(n, s, x + y) == Then(x, StmtText(n, s, y))
    decreases s, 1
  {
    match s
    case VarDecl(id, ty, v, _) =>
      Assoc(x, y, TypeName(ty) + " " + id.lexeme);
      InitializerAppends(ty.typeToken, v, x, y + (TypeName(ty) + " " + id.lexeme));
      var a := InitializerText(ty.typeToken, v, y + (TypeName(ty) + " " + id.lexeme));
      if a.Success? {
        LinedAppends(x, a.value, n, ";");
      }
    case AssignStmt(id, v, _) => ClosedAppends(n, v, id.lexeme + " = ", ";", x, y);
    case PrintStmt(v, _) => ClosedAppends(n, v, "Console.WriteLine(", ");", x, y);
    case InputStmt(t, k, _) =>
      LinedAppends(x, y, n, FlushLine);
      Assoc(x, Lined(y, n, FlushLine), ReadText(k, t.lexeme));
      LinedAppends(x, Lined(y, n, FlushLine) + ReadText(k, t.lexeme), n, "");
    case ReturnStmt(v, _) => ClosedAppends(n, v, "return ", ";", x, y);
    case IfStmt(_, _, _, _) => IfAppends(n, s, x, y);
    case WhileStmt(c, b, _) =>
      Assoc(x, y, "while (");
      ExprAppends(c, x, y + "while (");
      var a := ExprText(c, y + "while (");
      if a.Success? {
        Assoc(x, a.value, ") ");
        BlockAppends(n, b, x, a.value + ") ");
      }
    case ForStmt(_, _, _, _, _) =>
      ForHeaderAppends(n, s, x, y);
      var h := ForHeaderText(n, s, y);
      if h.Success? {
        BlockAppends(n, s.body, x, h.value);
      }
    case ExprStmt(v, _) =>
      ExprAppends(v, x, y);
      var a := ExprText(v, y);
      if a.Success? {
        LinedAppends(x, a.value, n, ";");
      }
  }

  /** The shape shared by assignments, prints, returns and expression statements: an opening
      text, the expression, and a closing line. */
  lemma ClosedAppends(n: int, v: Expr, opening: string, closing: string, x: string, y: string)
    ensures (var a :- ExprText(v, x + y + opening); Success(Lined(a, n, closing)))
      == Then(x, var a :- ExprText(v, y + opening); Success(Lined(a, n, closing)))
  {
    Assoc(x, y, opening);
    ExprAppends(v, x, y + opening);
    var a := ExprText(v, y + opening);
    if a.Success? {
      LinedAppends(x, a.value, n, closing);
    }
    assert x + y + opening == x + (y + opening);
  }

  lemma InitializerAppends(k: TokenType, v: Option<Expr>, x: string, y: string)
    ensures InitializerText(k, v, x + y) == Then(x, InitializerText(k, v, y))
  {
    match v
    case Some(e) =>
      Assoc(x, y, " = ");
      ExprAppends(e, x, y + " = ");
    case None => Assoc(x, y, DefaultValue(k));
  }

  lemma {:induction false} IfAppends(n: int, s: Stmt, x: string, y: string)
    requires s.IfStmt?
    ensures IfText(n, s, x + y) == Then(x, IfText(n, s, y))
    decreases s, 0
  {
    Assoc(x, y, "if (");
    ExprAppends(s.condition, x, y + "if (");
    var a := ExprText(s.condition, y + "if (");
    if a.Success? {
      Assoc(x, a.value, ") ");
      BlockAppends(n, s.trueBlock, x, a.value + ") ");
      var b := BlockText(n, s.trueBlock, a.value + ") ");
      if b.Success? && s.elseBlock.Some? {
        Assoc(x, b.value, "else ");
        BlockAppends(n, s.elseBlock.value, x, b.value + "else ");
      }
    }
  }

  lemma ForHeaderAppends(n: int, s: Stmt, x: string, y: string)
    requires s.ForStmt?
    ensures ForHeaderText(n, s, x + y) == Then(x, ForHeaderText(n, s, y))
  {
    Assoc(x, y, "for (");
    ForInitAppends(s.init, x, y + "for (");
    var a := ForInitText(s.init, y + "for (");
    if a.Success? {
      Assoc(x, a.value, "; ");
      ForConditionAppends(s.forCondition, x, a.value + "; ");
      var c := ForConditionText(s.forCondition, a.value + "; ");
      if c.Success? {
        Assoc(x, c.value, "; ");
        IncrementAppends(s.increment, x, c.value + "; ");
        var u := IncrementText(s.increment, c.value + "; ");
        if u.Success? {
          LinedAppends(x, u.value, n, ")");
        }
      }
    }
  }

  lemma ForInitAppends(init: Option<Stmt>, x: string, y: string)
    ensures ForInitText(init, x + y) == Then(x, ForInitText(init, y))
  {
    match init
    case None =>
    case Some(VarDecl(id, ty, v, _)) =>
      Assoc(x, y, TypeName(ty) + " " + id.lexeme);
      InitializerAppends(ty.typeToken, v, x, y + (TypeName(ty) + " " + id.lexeme));
    case Some(AssignStmt(id, v, _)) =>
      Assoc(x, y, id.lexeme + " = ");
      ExprAppends(v, x, y + (id.lexeme + " = "));
    case Some(ExprStmt(e, _)) => ExprAppends(e, x, y);
    case Some(_) =>
  }

  lemma ForConditionAppends(c: Option<Expr>, x: string, y: string)
    ensures ForConditionText(c, x + y) == Then(x, ForConditionText(c, y))
  {
    if c.Some? {
      ExprAppends(c.value, x, y);
    }
  }

  lemma IncrementAppends(u: Option<Stmt>, x: string, y: string)
    ensures IncrementText(u, x + y) == Then(x, IncrementText(u, y))
  {
    match u
    case Some(AssignStmt(id, v, _)) =>
      Assoc(x, y, id.lexeme + " = ");
      ExprAppends(v, x, y + (id.lexeme + " = "));
    case Some(ExprStmt(e, _)) => ExprAppends(e, x, y);
    case _ =>
  }

  /** The text of a block is the same whatever precedes it. */
  lemma {:induction false} BlockAppends(n: int, b: Block, x: string, y: string)
    ensures BlockText(n, b, x + y) == Then(x, BlockText(n, b, y))
    decreases b, 2
  {
    LinedAppends(x, y, n, "{");
    StatementsAppend(n + 1, b.statements, 0, x, Lined(y, n, "{"));
    var a := StatementsText(n + 1, b.statements, 0, Lined(y, n, "{"));
    if a.Success? {
      LinedAppends(x, a.value, n, "}");
    }
  }

  lemma {:induction false} StatementsAppend(n: int, ss: seq<Stmt>, i: nat, x: string, y: string)
    ensures StatementsText(n, ss, i, x + y) == Then(x, StatementsText(n, ss, i, y))
    decreases ss, |ss| - i
  {
    if i < |ss| {
      StmtAppends(n, ss[i], x, y);
      var a := StmtText(n, ss[i], y);
      if a.Success? {
        StatementsAppend(n, ss, i + 1, x, a.value);
      }
    }
  }

  /** The text of a function is the same whatever precedes it. */
  lemma FunctionAppends(n: int, f: Function, x: string, y: string)
    ensures FunctionText(n, f, x + y) == Then(x, FunctionText(n, f, y))
  {
    var rt := TypeName(f.returnType);
    if f.identifier.lexeme == "main" {
      LinedAppends(x, y, n, "public static " + rt + " Main(string[] args)");
      var l1 := Lined(y, n, "public static " + rt + " Main(string[] args)");
      LinedAppends(x, l1, n, "{");
      var l2 := Lined(l1, n, "{");
      LinedAppends(x, l2, n + 1, SetOutLine);
      var entry := Lined(l2, n + 1, SetOutLine);
      BlockAppends(n + 1, f.body, x, entry);
      var a := BlockText(n + 1, f.body, entry);
      if a.Success? {
        LinedAppends(x, a.value, n, "}");
      }
    } else {
      LinedAppends(x, y, n, Header(rt, f));
      BlockAppends(n, f.body, x, Lined(y, n, Header(rt, f)));
    }
  }

  lemma {:induction false} FunctionsAppend(n: int, fs: seq<Function>, i: nat, x: string, y: string)
    ensures FunctionsText(n, fs, i, x + y) == Then(x, FunctionsText(n, fs, i, y))
    decreases |fs| - i
  {
    if i < |fs| {
      FunctionAppends(n, fs[i], x, y);
      var a := FunctionText(n, fs[i], y);
      if a.Success? {
        LinedAppends(x, a.value, n, "");
        FunctionsAppend(n, fs, i + 1, x, Lined(a.value, n, ""));
      }
    }
  }

  lemma PreambleAppends(n: int, x: string, y: string)
    ensures Preamble(n, x + y) == x + Preamble(n, y)
  {
    LinedAppends(x, y, n, "using System;");
    var a1 := Lined(y, n, "using System;");
    LinedAppends(x, a1, n, "using System.Linq;");
    var a2 := Lined(a1, n, "using System.Linq;");
    LinedAppends(x, a2, n, "using System.IO;");
    var a3 := Lined(a2, n, "using System.IO;");
    LinedAppends(x, a3, n, "using System.Globalization;");
    var a4 := Lined(a3, n, "using System.Globalization;");
    LinedAppends(x, a4, n, "");
    var a5 := Lined(a4, n, "");
    LinedAppends(x, a5, n, "namespace MACSLangRuntime");
    var a6 := Lined(a5, n, "namespace MACSLangRuntime");
    LinedAppends(x, a6, n, "{");
    var a7 := Lined(a6, n, "{");
    LinedAppends(x, a7, n + 1, "public static class Program");
    var a8 := Lined(a7, n + 1, "public static class Program");
    LinedAppends(x, a8, n + 1, "{");
  }

  /** `Generate` appends to whatever the buffer held: the text it returns is the old buffer
      followed by the generated program, and the generated program does not depend on it. */
  lemma GenerateAppends(n: int, p: Program, x: string)
    ensures GenerateText(n, p, x) == Then(x, GenerateText(n, p, ""))
  {
    assert x + "" == x;
    PreambleAppends(n, x, "");
    FunctionsAppend(n + 2, p.functions, 0, x, Preamble(n, ""));
    var a := FunctionsText(n + 2, p.functions, 0, Preamble(n, ""));
    if a.Success? {
      LinedAppends(x, a.value, n + 1, "}");
      LinedAppends(x, Lined(a.value, n + 1, "}"), n, "}");
    }
  }

  // ---------------------------------------------------------------------------------------
  // Indentation

  /** `EmitIndent` writes four spaces per level and nothing else. */
  lemma {:induction false} SpacesShape(n: int)
    ensures |Spaces(n)| == (if n <= 0 then 0 else 4 * n)
    ensures forall k | 0 <= k < |Spaces(n)| :: Spaces(n)[k] == ' '
    decreases n
  {
    if n > 0 {
      SpacesShape(n - 1);
    }
  }

  // ---------------------------------------------------------------------------------------
  // Conversion tables

  /** The type table is one-to-one: reading a C# type name back gives the kind it came from,
      and every name the reading accepts is produced by exactly that kind. */
  lemma TypeNamesRoundTrip(k: TokenType, name: string)
    ensures ConvertType(k).Success? ==> TypeKind(ConvertType(k).value) == Some(k)
    ensures TypeKind(name).Some? ==> ConvertType(TypeKind(name).value) == Success(name)
  {
  }

  /** Distinct kinds get distinct C# type names. */
  lemma TypeNamesDistinct(k1: TokenType, k2: TokenType)
    requires ConvertType(k1).Success? && ConvertType(k2).Success?
    ensures ConvertType(k1) == ConvertType(k2) ==> k1 == k2
  {
    TypeNamesRoundTrip(k1, "");
    TypeNamesRoundTrip(k2, "");
  }

  /** The operator table converts exactly the fourteen operators. */
  lemma OperatorsConverted(k: TokenType)
    ensures ConvertOperator(k).Success? <==> IsOperator(k)
  {
  }

  /** Reading an operator's C# spelling back gives the operator it came from, so distinct
      operators are spelled differently. */
  lemma OperatorsReadBack(k: TokenType)
    requires IsOperator(k)
    ensures OperatorKind(ConvertOperator(k).value) == Some(k)
  {
  }

  /** Every spelling the reading accepts is the spelling of exactly that operator. */
  lemma SpellingsReadBack(spelling: string)
    requires OperatorKind(spelling).Some?
    ensures ConvertOperator(OperatorKind(spelling).value) == Success(spelling)
  {
  }

  /** Each operator is written in C# exactly as the lexer reads it in MACSLang: scanning its
      C# spelling yields one token of that very kind covering the whole spelling. */
  lemma OperatorsSpelledAsScanned(k: TokenType, line: int, column: int)
    requires IsOperator(k)
    ensures var s := ConvertOperator(k).value;
      && |s| > 0 && (Scanner.IsLookaheadChar(s[0]) || Scanner.SingleCharKind(s[0]) != Unknown)
      && var r := Scanner.ScanOperator(s, Scanner.Cursor(0, line, column));
         r.token == Token(k, s, line, column) && r.next.pos == |s|
  {
  }

  // ---------------------------------------------------------------------------------------
  // Literals

  /** Lower-casing keeps the length and is idempotent. */
  lemma ToLowerIdempotent(s: string)
    ensures |ToLower(s)| == |s|
    ensures ToLower(ToLower(s)) == ToLower(s)
  {
  }

  /** The lexer makes a TRUE or FALSE token only of the lower-case words `true` and `false`,
      so lower-casing a boolean lexeme it produced changes nothing. */
  lemma LexedBooleansPrintVerbatim(t: Token)
    requires t.kind == True || t.kind == False
    requires Scanner.WordKind(t.lexeme) == t.kind
    ensures t.lexeme == (if t.kind == True then "true" else "false")
    ensures LiteralText(t) == t.lexeme
  {
  }

  // ---------------------------------------------------------------------------------------
  // Calls and parameter lists

  /** The C# names of the five types and of FUNC. */
  lemma TypeNameTable()
    ensures ConvertType(IntKeyword) == Success("int") && ConvertType(FloatKeyword) == Success("float")
    ensures ConvertType(CharKeyword) == Success("char") && ConvertType(BoolKeyword) == Success("bool")
    ensures ConvertType(StringKeyword) == Success("string") && ConvertType(Func) == Success("void")
  {
  }

  /** A declaration without an initializer is written with the default of its declared type:
      `0`, `0.0f`, `'\0'`, `false` or `string.Empty`. */
  lemma UninitializedDeclaration(n: int, s: Stmt, acc: string)
    requires s.VarDecl? && s.initialValue.None?
    ensures DeclarationText(n, s, acc) ==
      Success(Lined(acc + (TypeName(s.varType) + " " + s.identifier.lexeme) + DefaultValue(s.varType.typeToken), n, ";"))
    ensures var k := s.varType.typeToken;
      && (k == IntKeyword ==> DefaultValue(k) == " = 0")
      && (k == FloatKeyword ==> DefaultValue(k) == " = 0.0f")
      && (k == CharKeyword ==> DefaultValue(k) == " = '\\0'")
      && (k == BoolKeyword ==> DefaultValue(k) == " = false")
      && (k == StringKeyword ==> DefaultValue(k) == " = string.Empty")
  {
  }

  /** Literal re-quoting: a string or char lexeme is written between its quotes and a float
      lexeme followed by `f`, so the lexeme can be read back from the text; a boolean is
      lower-cased and an int is written as it is. */
  lemma LiteralLowering(t: Token)
    ensures var s := LiteralText(t);
      && (t.kind == StringLiteral ==> |s| == |t.lexeme| + 2 && s[0] == '"' && s[|s| - 1] == '"' && s[1..|s| - 1] == t.lexeme)
      && (t.kind == CharLiteral ==> |s| == |t.lexeme| + 2 && s[0] == '\'' && s[|s| - 1] == '\'' && s[1..|s| - 1] == t.lexeme)
      && (t.kind == FloatLiteral ==> |s| == |t.lexeme| + 1 && s[|s| - 1] == 'f' && s[..|s| - 1] == t.lexeme)
      && (t.kind == True || t.kind == False ==> s == ToLower(t.lexeme))
      && (t.kind == IntLiteral ==> s == t.lexeme)
  {
  }

  /** An expression that generates on its own. */
  predicate Generates(e: Expr) {
    ExprText(e, "").Success?
  }

  lemma ExprAnyBuffer(e: Expr, acc: string)
    ensures ExprText(e, acc) == Then(acc, ExprText(e, ""))
  {
    assert acc + "" == acc;
    ExprAppends(e, acc, "");
  }

  /** No parentheses are written around an operand: the two groupings of `a o1 b o2 c` give
      the same text, so C# regroups it by its own precedence, and a negated negation is written
      as `--` before the operand. */
  lemma GroupingNotWritten(a: Expr, b: Expr, c: Expr, o1: Token, o2: Token, t: TokenType, u: TokenType, neg: Token, acc: string)
    requires neg.kind == Minus
    ensures ExprText(Binary(Binary(a, o1, b, t), o2, c, u), acc) == ExprText(Binary(a, o1, Binary(b, o2, c, u), t), acc)
    ensures ExprText(Unary(neg, Unary(neg, a, t), t), acc) == ExprText(a, acc + "--")
  {
    assert acc + "-" + "-" == acc + "--";
  }

  /** The arguments of a call are written one after the other, separated by ", ". */
  lemma {:induction false} ArgumentsJoin(args: seq<Expr>, texts: seq<string>, i: nat, acc: string)
    requires |texts| == |args| && i <= |args|
    requires forall k | i <= k < |args| :: ExprText(args[k], "") == Success(texts[k])
    ensures ArgumentsText(args, i, acc) == Success(acc + Symbols.Join(texts[i..]))
    decreases |args| - i
  {
    if i < |args| {
      ExprAnyBuffer(args[i], acc);
      var rest := texts[i..];
      assert rest[0] == texts[i] && rest[1..] == texts[i + 1..];
      if i < |args| - 1 {
        ArgumentsJoin(args, texts, i + 1, acc + texts[i] + ", ");
        assert Symbols.Join(rest) == texts[i] + ", " + Symbols.Join(texts[i + 1..]);
        assert acc + texts[i] + ", " + Symbols.Join(texts[i + 1..])
          == acc + (texts[i] + ", " + Symbols.Join(texts[i + 1..]));
      } else {
        ArgumentsJoin(args, texts, i + 1, acc + texts[i]);
        assert texts[i + 1..] == [] && rest == [texts[i]];
        assert acc + texts[i] + "" == acc + texts[i];
      }
    } else {
      assert texts[i..] == [];
      assert acc + "" == acc;
    }
  }

  /** A call is written as its name followed by its arguments in parentheses, in order,
      separated by ", ". */
  lemma CallText(t: Token, args: seq<Expr>, ty: TokenType, texts: seq<string>, acc: string)
    requires |texts| == |args|
    requires forall k | 0 <= k < |args| :: ExprText(args[k], "") == Success(texts[k])
    ensures ExprText(Call(t, args, ty), acc) == Success(acc + t.lexeme + "(" + Symbols.Join(texts) + ")")
  {
    ArgumentsJoin(args, texts, 0, acc + (t.lexeme + "("));
    assert texts[0..] == texts;
    assert acc + (t.lexeme + "(") + Symbols.Join(texts) + ")" == acc + t.lexeme + "(" + Symbols.Join(texts) + ")";
  }

  /** The arguments generate exactly when each of them does. */
  lemma {:induction false} ArgumentsSucceed(args: seq<Expr>, i: nat, acc: string)
    requires i <= |args|
    ensures ArgumentsText(args, i, acc).Success? <==> forall k | i <= k < |args| :: Generates(args[k])
    decreases |args| - i
  {
    if i < |args| {
      ExprAnyBuffer(args[i], acc);
      var a := ExprText(args[i], acc);
      if a.Success? {
        if i < |args| - 1 {
          ArgumentsSucceed(args, i + 1, a.value + ", ");
        } else {
          ArgumentsSucceed(args, i + 1, a.value);
        }
      }
    }
  }

  /** A call generates exactly when each of its arguments does. */
  lemma CallSucceeds(t: Token, args: seq<Expr>, ty: TokenType, acc: string)
    ensures ExprText(Call(t, args, ty), acc).Success? <==> forall k | 0 <= k < |args| :: Generates(args[k])
  {
    ArgumentsSucceed(args, 0, acc + (t.lexeme + "("));
  }

  /** The characters that the generator itself never writes inside an expression, and that
      delimit statements and blocks in the C# output. */
  predicate Markup(c: char) {
    c == ';' || c == '{' || c == '}'
  }

  /** No C# type name holds a comma or markup. */
  lemma TypeNamePlain(t: TypeNode, c: char)
    requires c == ',' || Markup(c)
    ensures c !in TypeName(t)
  {
  }

  /** Joined texts hold the character only if one of the texts does. */
  lemma {:induction false} JoinAvoids(ss: seq<string>, c: char)
    requires c != ',' && c != ' '
    requires forall k | 0 <= k < |ss| :: c !in ss[k]
    ensures c !in Symbols.Join(ss)
    decreases |ss|
  {
    if |ss| > 1 {
      JoinAvoids(ss[1..], c);
      assert ss[1..][0] == ss[1];
    }
  }

  /** A parameter list of n parameters holds n - 1 commas when no parameter name holds one:
      "," appears only between parameters. */
  lemma ParameterCommas(ps: seq<Param>)
    requires forall k | 0 <= k < |ps| :: ',' !in ps[k].identifier.lexeme
    ensures multiset(FormatParameters(ps))[','] == if ps == [] then 0 else |ps| - 1
  {
    var texts := ParameterTexts(ps);
    forall k | 0 <= k < |ps|
      ensures ',' !in texts[k]
    {
      TypeNamePlain(ps[k].paramType, ',');
    }
    if ps != [] {
      Symbols.JoinSeparators(texts);
    }
  }

  /** A parameter list holds markup only where a parameter name does. */
  lemma ParametersAvoid(ps: seq<Param>, c: char)
    requires Markup(c)
    requires forall k | 0 <= k < |ps| :: c !in ps[k].identifier.lexeme
    ensures c !in FormatParameters(ps)
  {
    var texts := ParameterTexts(ps);
    forall k | 0 <= k < |ps|
      ensures c !in texts[k]
    {
      TypeNamePlain(ps[k].paramType, c);
    }
    JoinAvoids(texts, c);
  }

  /** `main` becomes `Main(string[] args)` whatever parameters it declares. */
  lemma MainIgnoresParameters(n: int, f: Function, ps: seq<Param>, acc: string)
    requires f.identifier.lexeme == "main"
    ensures FunctionText(n, f.(parameters := ps), acc) == FunctionText(n, f, acc)
  {
  }

  // ---------------------------------------------------------------------------------------
  // Input

  /** Before analysis an input's target type is VAR, for which no read exists: generating an
      unanalyzed input throws, so generation depends on the analyzer's annotation. */
  lemma InputNeedsAnalysis(n: int, target: Token, tok: Token, acc: string)
    ensures InputText(n, InputStmt(target, Var, tok), acc) == Failure(UnknownType(Var))
  {
  }

  /** An input of a resolved type flushes the output, reads into the target and ends the
      line; the read depends only on the target's name and type. */
  lemma InputShape(n: int, s: Stmt, acc: string)
    requires s.InputStmt? && ConvertType(s.resolvedType).Success?
    ensures InputText(n, s, acc) == Success(Lined(Lined(acc, n, FlushLine) + ReadText(s.resolvedType, s.target.lexeme), n, ""))
    ensures InputText(n, s, acc) == InputText(n, InputStmt(s.target.(line := 0, column := 0), s.resolvedType, s.tok), acc)
  {
  }

  // ---------------------------------------------------------------------------------------
  // Markup characters in expressions and for headers

  /** Every lexeme written into an expression's text avoids `c`. */
  predicate ExprAvoids(e: Expr, c: char)
    decreases e
  {
    match e
    case Binary(l, _, r, _) => ExprAvoids(l, c) && ExprAvoids(r, c)
    case Unary(_, x, _) => ExprAvoids(x, c)
    case Literal(t, _, _) => c !in t.lexeme
    case Ident(t, _) => c !in t.lexeme
    case Call(t, args, _) => c !in t.lexeme && forall k | 0 <= k < |args| :: ExprAvoids(args[k], c)
  }

  lemma OperatorPlain(k: TokenType, c: char)
    requires Markup(c) && ConvertOperator(k).Success?
    ensures c !in ConvertOperator(k).value
  {
  }

  lemma LiteralPlain(t: Token, c: char)
    requires Markup(c) && c !in t.lexeme
    ensures c !in LiteralText(t)
  {
    if t.kind == True || t.kind == False {
      forall k | 0 <= k < |t.lexeme|
        ensures ToLower(t.lexeme)[k] != c
      {
        assert t.lexeme[k] in t.lexeme;
      }
    }
  }

  /** An expression adds markup to the buffer only through its lexemes. */
  lemma {:induction false} ExprKeeps(e: Expr, c: char, acc: string)
    requires Markup(c) && ExprAvoids(e, c) && ExprText(e, acc).Success?
    ensures multiset(ExprText(e, acc).value)[c] == multiset(acc)[c]
    decreases e, 1
  {
    match e
    case Binary(l, op, r, _) =>
      ExprKeeps(l, c, acc);
      var a := ExprText(l, acc).value;
      OperatorPlain(op.kind, c);
      var o := ConvertOperator(op.kind).value;
      ExprKeeps(r, c, a + (" " + o + " "));
    case Unary(op, x, _) =>
      OperatorPlain(op.kind, c);
      ExprKeeps(x, c, acc + ConvertOperator(op.kind).value);
    case Literal(t, _, _) => LiteralPlain(t, c);
    case Ident(t, _) =>
    case Call(t, args, _) =>
      ArgumentsKeep(args, 0, c, acc + (t.lexeme + "("));
  }

  lemma {:induction false} ArgumentsKeep(args: seq<Expr>, i: nat, c: char, acc: string)
    requires Markup(c) && ArgumentsText(args, i, acc).Success?
    requires forall k | 0 <= k < |args| :: ExprAvoids(args[k], c)
    ensures multiset(ArgumentsText(args, i, acc).value)[c] == multiset(acc)[c]
    decreases args, |args| - i
  {
    if i < |args| {
      ExprKeeps(args[i], c, acc);
      var a := ExprText(args[i], acc).value;
      if i < |args| - 1 {
        ArgumentsKeep(args, i + 1, c, a + ", ");
      } else {
        ArgumentsKeep(args, i + 1, c, a);
      }
    }
  }

  /** A for slot written in the header: a declaration, an assignment or an expression. */
  predicate SlotAvoids(slot: Option<Stmt>, c: char) {
    match slot
    case Some(VarDecl(id, _, v, _)) => c !in id.lexeme && (v.Some? ==> ExprAvoids(v.value, c))
    case Some(AssignStmt(id, v, _)) => c !in id.lexeme && ExprAvoids(v, c)
    case Some(ExprStmt(x, _)) => ExprAvoids(x, c)
    case _ => true
  }

  /** Appending text without `c` keeps the count of `c`. */
  lemma AppendPlain(acc: string, t: string, c: char)
    requires c !in t
    ensures multiset(acc + t)[c] == multiset(acc)[c]
  {
    assert multiset(t)[c] == 0;
  }

  lemma DefaultPlain(k: TokenType, c: char)
    requires Markup(c)
    ensures c !in DefaultValue(k)
  {
  }

  lemma ForInitKeeps(init: Option<Stmt>, c: char, acc: string)
    requires Markup(c) && SlotAvoids(init, c) && ForInitText(init, acc).Success?
    ensures multiset(ForInitText(init, acc).value)[c] == multiset(acc)[c]
  {
    match init
    case Some(VarDecl(id, ty, v, _)) =>
      TypeNamePlain(ty, c);
      var named := TypeName(ty) + " " + id.lexeme;
      AppendPlain(acc, named, c);
      if v.Some? {
        AppendPlain(acc + named, " = ", c);
        ExprKeeps(v.value, c, acc + named + " = ");
      } else {
        DefaultPlain(ty.typeToken, c);
        AppendPlain(acc + named, DefaultValue(ty.typeToken), c);
      }
    case Some(AssignStmt(id, v, _)) =>
      AppendPlain(acc, id.lexeme + " = ", c);
      ExprKeeps(v, c, acc + (id.lexeme + " = "));
    case Some(ExprStmt(x, _)) => ExprKeeps(x, c, acc);
    case _ =>
  }

  lemma IncrementKeeps(u: Option<Stmt>, c: char, acc: string)
    requires Markup(c) && SlotAvoids(u, c) && IncrementText(u, acc).Success?
    ensures multiset(IncrementText(u, acc).value)[c] == multiset(acc)[c]
  {
    match u
    case Some(AssignStmt(id, v, _)) =>
      AppendPlain(acc, id.lexeme + " = ", c);
      ExprKeeps(v, c, acc + (id.lexeme + " = "));
    case Some(ExprStmt(x, _)) => ExprKeeps(x, c, acc);
    case _ =>
  }

  /** Indentation is markup-free. */
  lemma SpacesPlain(n: int, c: char)
    requires Markup(c)
    ensures c !in Spaces(n)
  {
    SpacesShape(n);
  }

  /** A line holds the markup of the buffer before it and of its code. */
  lemma LinedCount(acc: string, n: int, code: string, c: char)
    requires Markup(c)
    ensures multiset(Lined(acc, n, code))[c] == multiset(acc)[c] + multiset(code)[c]
  {
    SpacesPlain(n, c);
    AppendPlain(acc, Spaces(n), c);
    AppendPlain(acc + Spaces(n) + code, "\n", c);
  }

  /** A for header holds exactly the two ";" that separate its three slots when no lexeme in
      the slots holds one, whichever slots are empty: the emptied slots of `for (;;)` keep
      their separators. */
  lemma ForHeaderSemicolons(n: int, s: Stmt, acc: string)
    requires s.ForStmt? && ForHeaderText(n, s, acc).Success?
    requires SlotAvoids(s.init, ';') && SlotAvoids(s.increment, ';')
    requires s.forCondition.Some? ==> ExprAvoids(s.forCondition.value, ';')
    ensures multiset(ForHeaderText(n, s, acc).value)[';'] == multiset(acc)[';'] + 2
  {
    var a, c, u := ForHeaderParts(n, s, acc);
    ForInitKeeps(s.init, ';', acc + "for (");
    if s.forCondition.Some? {
      ExprKeeps(s.forCondition.value, ';', a + "; ");
    }
    IncrementKeeps(s.increment, ';', c + "; ");
    HeaderCount(acc, a, c, u, n);
  }

  /** The buffers after each slot of a for header. */
  lemma ForHeaderParts(n: int, s: Stmt, acc: string) returns (a: string, c: string, u: string)
    requires s.ForStmt? && ForHeaderText(n, s, acc).Success?
    ensures ForInitText(s.init, acc + "for (") == Success(a)
    ensures ForConditionText(s.forCondition, a + "; ") == Success(c)
    ensures IncrementText(s.increment, c + "; ") == Success(u)
    ensures ForHeaderText(n, s, acc) == Success(Lined(u, n, ")"))
  {
    a := ForInitText(s.init, acc + "for (").value;
    c := ForConditionText(s.forCondition, a + "; ").value;
    u := IncrementText(s.increment, c + "; ").value;
  }

  /** The counting step of `ForHeaderSemicolons`, over the buffers after each slot. */
  lemma HeaderCount(acc: string, a: string, c: string, u: string, n: int)
    requires multiset(a)[';'] == multiset(acc + "for (")[';']
    requires multiset(c)[';'] == multiset(a + "; ")[';']
    requires multiset(u)[';'] == multiset(c + "; ")[';']
    ensures multiset(Lined(u, n, ")"))[';'] == multiset(acc)[';'] + 2
  {
    AppendPlain(acc, "for (", ';');
    assert multiset("; ")[';'] == 1 by {
      assert "; " == [';'] + [' '];
    }
    LinedCount(u, n, ")", ';');
  }

  // ---------------------------------------------------------------------------------------
  // The for initializer (see the Findings of the README)

  /** The corrected initialization slot writes a declaration exactly as a declaration
      statement, without its ";" line end: a missing initializer gets the type's default. */
  lemma ForInitMatchesDeclaration(n: int, s: Stmt, acc: string)
    requires s.VarDecl?
    ensures DeclarationText(n, s, acc) == (var a :- ForInitText(Some(s), acc); Success(Lined(a, n, ";")))
  {
  }

  /** The slot as written and the corrected slot differ exactly on a declaration without an
      initializer, which the parser accepts in a for initializer. */
  lemma AsWrittenDiffersOnlyWithoutInitializer(init: Option<Stmt>, acc: string)
    ensures ForInitAsWritten(init, acc) != ForInitText(init, acc)
      <==> init.Some? && init.value.VarDecl? && init.value.initialValue.None?
  {
    match init
    case Some(VarDecl(id, ty, v, _)) =>
      assert acc + (TypeName(ty) + " " + id.lexeme) + " = " == acc + (TypeName(ty) + " " + id.lexeme + " = ");
    case _ =>
  }

  /** The loop `for (var i: int; ; ) { }`, whose declaration has no initializer: the analyzer
      accepts it, the slot as written throws when dereferencing the missing initializer, and
      the corrected generator writes `for (int i = 0; ; )`. The tree is the one the parser
      builds from that text (`CompilerProperties.UninitializedLoopVariableParses`). */
  lemma UninitializedLoopVariable()
    ensures var i := Token(Identifier, "i", 1, 10);
      var intType := TypeNodeData(Token(IntKeyword, "int", 1, 13), IntKeyword);
      var decl := VarDecl(i, intType, None, Token(Var, "var", 1, 6));
      var loop := ForStmt(Some(decl), None, None, Block([], Token(OpenBrace, "{", 1, 22)), Token(For, "for", 1, 1));
      && AnalyzerSpec.CheckStmt([map[]], map[], None, loop).Success?
      && ForInitAsWritten(Some(decl), "for (") == Failure(NullInitializer("i"))
      && StmtText(0, loop, "") == Success("for (int i = 0; ; )\n{\n}\n")
  {
    var i := Token(Identifier, "i", 1, 10);
    var intType := TypeNodeData(Token(IntKeyword, "int", 1, 13), IntKeyword);
    var decl := VarDecl(i, intType, None, Token(Var, "var", 1, 6));
    assert TypeName(intType) == "int";
    assert "" + "for (" + ("int" + " " + "i") == "for (int i";
    assert "for (int i" + DefaultValue(IntKeyword) == "for (int i = 0";
    assert ForInitText(Some(decl), "" + "for (") == Success("for (int i = 0");
    assert Lined("for (int i = 0" + "; " + "; ", 0, ")") == "for (int i = 0; ; )\n";
    var loop := ForStmt(Some(decl), None, None, Block([], Token(OpenBrace, "{", 1, 22)), Token(For, "for", 1, 1));
    assert ForHeaderText(0, loop, "") == Success("for (int i = 0; ; )\n");
    var h := "for (int i = 0; ; )\n";
    assert Spaces(0) == "";
    assert Lined(h, 0, "{") == "for (int i = 0; ; )\n{\n";
    assert Lined("for (int i = 0; ; )\n{\n", 0, "}") == "for (int i = 0; ; )\n{\n}\n";
    assert BlockText(0, loop.body, "for (int i = 0; ; )\n") == Success("for (int i = 0; ; )\n{\n}\n");
  }
}
