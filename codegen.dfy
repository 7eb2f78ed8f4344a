/** The code generator of MACSLang.CodeGenerator/CodeGenerator.cs: a visitor that appends C#
    text to a buffer while tracking an indentation level. Each `Visit` method is proved to
    append exactly the text the functions of `CodeGenSpec` give for its node, at the level it
    started from, and to leave that level as it found it. A thrown exception is a `Fail`
    outcome, after which the buffer and the level are left unconstrained, as an exception
    leaves them. */
module CodeGen {
  import opened Wrappers
  import opened Tokens
  import opened Ast
  import Symbols
  import S = CodeGenSpec

  /** A visit that passed left the buffer the spec gives; one that failed threw the error
      the spec gives. */
  predicate Emitted(r: Outcome<S.GenError>, spec: Result<string, S.GenError>, after: string) {
    match r
    case Pass => spec == Success(after)
    case Fail(e) => spec == Failure(e)
  }

  class CodeGenerator {
    /** `_sb`: the text generated so far. */
    var sb: string
    /** `_indentationLevel`. */
    var indentationLevel: int
    /** `_currentFunctionReturnType`: the C# return type of the function being generated. */
    var currentFunctionReturnType: string

    constructor ()
      ensures sb == "" && indentationLevel == 0 && currentFunctionReturnType == "void"
    {
      sb := "";
      indentationLevel := 0;
      currentFunctionReturnType := "void";
    }

    // -------------------------------------------------------------------------------------
    // Emission helpers

    method Emit(code: string)
      modifies this
      ensures sb == old(sb) + code
      ensures indentationLevel == old(indentationLevel) && currentFunctionReturnType == old(currentFunctionReturnType)
    {
      sb := sb + code;
    }

    method EmitIndent()
      modifies this
      ensures sb == old(sb) + S.Spaces(indentationLevel)
      ensures indentationLevel == old(indentationLevel) && currentFunctionReturnType == old(currentFunctionReturnType)
    {
      var i := 0;
      while i < indentationLevel
        invariant 0 <= i && (i <= indentationLevel || i == 0)
        invariant sb == old(sb) + S.Spaces(i)
        invariant indentationLevel == old(indentationLevel) && currentFunctionReturnType == old(currentFunctionReturnType)
      {
        sb := sb + "    ";
        i := i + 1;
      }
    }

    method EmitLine(code: string)
      modifies this
      ensures sb == S.Lined(old(sb), indentationLevel, code)
      ensures indentationLevel == old(indentationLevel) && currentFunctionReturnType == old(currentFunctionReturnType)
    {
      EmitIndent();
      sb := sb + code + "\n";
    }

    method Indent()
      modifies this
      ensures indentationLevel == old(indentationLevel) + 1
      ensures sb == old(sb) && currentFunctionReturnType == old(currentFunctionReturnType)
    {
      indentationLevel := indentationLevel + 1;
    }

    method Dedent()
      modifies this
      ensures indentationLevel == old(indentationLevel) - 1
      ensures sb == old(sb) && currentFunctionReturnType == old(currentFunctionReturnType)
    {
      indentationLevel := indentationLevel - 1;
    }

    // -------------------------------------------------------------------------------------
    // Expressions

    method VisitExpression(e: Expr) returns (r: Outcome<S.GenError>)
      modifies this
      ensures Emitted(r, S.ExprText(e, old(sb)), sb)
      ensures indentationLevel == old(indentationLevel) && currentFunctionReturnType == old(currentFunctionReturnType)
      decreases e, 1
    {
      match e
      case Binary(left, op, right, _) =>
        r := VisitExpression(left);
        if r.Fail? { return; }
        var o := S.ConvertOperator(op.kind);
        if o.Failure? { return Fail(o.error); }
        Emit(" " + o.value + " ");
        r := VisitExpression(right);
      case Unary(op, operand, _) =>
        var o := S.ConvertOperator(op.kind);
        if o.Failure? { return Fail(o.error); }
        Emit(o.value);
        r := VisitExpression(operand);
      case Literal(t, _, _) =>
        Emit(S.LiteralText(t));
        r := Pass;
      case Ident(t, _) =>
        Emit(t.lexeme);
        r := Pass;
      case Call(_, _, _) =>
        r := VisitCall(e);
    }

    /** `Visit(FunctionCallExpressionNode)`: the name, then the arguments separated by ", ". */
    method VisitCall(e: Expr) returns (r: Outcome<S.GenError>)
      requires e.Call?
      modifies this
      ensures Emitted(r, S.ExprText(e, old(sb)), sb)
      ensures indentationLevel == old(indentationLevel) && currentFunctionReturnType == old(currentFunctionReturnType)
      decreases e, 0
    {
      var args := e.arguments;
      Emit(e.identifier.lexeme + "(");
      ghost var start := sb;
      var i := 0;
      while i < |args|
        invariant 0 <= i <= |args|
        invariant S.ArgumentsText(args, 0, start) == S.ArgumentsText(args, i, sb)
        invariant indentationLevel == old(indentationLevel) && currentFunctionReturnType == old(currentFunctionReturnType)
      {
        r := VisitExpression(args[i]);
        if r.Fail? { return; }
        if i < |args| - 1 {
          Emit(", ");
        }
        i := i + 1;
      }
      Emit(")");
      r := Pass;
    }

    // -------------------------------------------------------------------------------------
    // Statements

    method VisitStatement(s: Stmt) returns (r: Outcome<S.GenError>)
      modifies this
      ensures Emitted(r, S.StmtText(old(indentationLevel), s, old(sb)), sb)
      ensures r.Pass? ==> indentationLevel == old(indentationLevel)
      ensures currentFunctionReturnType == old(currentFunctionReturnType)
      decreases s, 1
    {
      match s
      case VarDecl(_, _, _, _) => r := VisitVariableDeclaration(s);
      case AssignStmt(id, v, _) =>
        Emit(id.lexeme + " = ");
        r := VisitExpression(v);
        if r.Fail? { return; }
        EmitLine(";");
      case PrintStmt(x, _) =>
        Emit("Console.WriteLine(");
        r := VisitExpression(x);
        if r.Fail? { return; }
        EmitLine(");");
      case InputStmt(_, _, _) => r := VisitInput(s);
      case ReturnStmt(v, _) =>
        Emit("return ");
        r := VisitExpression(v);
        if r.Fail? { return; }
        EmitLine(";");
      case IfStmt(_, _, _, _) => r := VisitIf(s);
      case WhileStmt(_, _, _) => r := VisitWhile(s);
      case ForStmt(_, _, _, _, _) => r := VisitFor(s);
      case ExprStmt(x, _) =>
        r := VisitExpression(x);
        if r.Fail? { return; }
        EmitLine(";");
    }

    /** The initializer of a declaration, or its type's default. */
    method VisitInitializer(k: TokenType, v: Option<Expr>) returns (r: Outcome<S.GenError>)
      modifies this
      ensures Emitted(r, S.InitializerText(k, v, old(sb)), sb)
      ensures indentationLevel == old(indentationLevel) && currentFunctionReturnType == old(currentFunctionReturnType)
    {
      if v.Some? {
        Emit(" = ");
        r := VisitExpression(v.value);
      } else {
        Emit(S.DefaultValue(k));
        r := Pass;
      }
    }

    method VisitVariableDeclaration(s: Stmt) returns (r: Outcome<S.GenError>)
      requires s.VarDecl?
      modifies this
      ensures Emitted(r, S.DeclarationText(old(indentationLevel), s, old(sb)), sb)
      ensures indentationLevel == old(indentationLevel) && currentFunctionReturnType == old(currentFunctionReturnType)
      decreases s, 0
    {
      Emit(S.TypeName(s.varType) + " " + s.identifier.lexeme);
      r := VisitInitializer(s.varType.typeToken, s.initialValue);
      if r.Fail? { return; }
      EmitLine(";");
    }

    method VisitInput(s: Stmt) returns (r: Outcome<S.GenError>)
      requires s.InputStmt?
      modifies this
      ensures Emitted(r, S.InputText(old(indentationLevel), s, old(sb)), sb)
      ensures indentationLevel == old(indentationLevel) && currentFunctionReturnType == old(currentFunctionReturnType)
      decreases s, 0
    {
      EmitLine(S.FlushLine);
      var k := s.resolvedType;
      var csharpType := S.ConvertType(k);
      if csharpType.Failure? { return Fail(csharpType.error); }
      Emit(S.ReadText(k, s.target.lexeme));
      EmitLine("");
      r := Pass;
    }

    method VisitIf(s: Stmt) returns (r: Outcome<S.GenError>)
      requires s.IfStmt?
      modifies this
      ensures Emitted(r, S.IfText(old(indentationLevel), s, old(sb)), sb)
      ensures r.Pass? ==> indentationLevel == old(indentationLevel)
      ensures currentFunctionReturnType == old(currentFunctionReturnType)
      decreases s, 0
    {
      Emit("if (");
      r := VisitExpression(s.condition);
      if r.Fail? { return; }
      Emit(") ");
      r := VisitBlock(s.trueBlock);
      if r.Fail? { return; }
      if s.elseBlock.Some? {
        Emit("else ");
        r := VisitBlock(s.elseBlock.value);
      }
    }

    method VisitWhile(s: Stmt) returns (r: Outcome<S.GenError>)
      requires s.WhileStmt?
      modifies this
      ensures Emitted(r, S.WhileText(old(indentationLevel), s, old(sb)), sb)
      ensures r.Pass? ==> indentationLevel == old(indentationLevel)
      ensures currentFunctionReturnType == old(currentFunctionReturnType)
      decreases s, 0
    {
      Emit("while (");
      r := VisitExpression(s.condition);
      if r.Fail? { return; }
      Emit(") ");
      r := VisitBlock(s.body);
    }

    /** The initialization slot of a `for`. */
    method VisitForInit(init: Option<Stmt>) returns (r: Outcome<S.GenError>)
      modifies this
      ensures Emitted(r, S.ForInitText(init, old(sb)), sb)
      ensures indentationLevel == old(indentationLevel) && currentFunctionReturnType == old(currentFunctionReturnType)
    {
      r := Pass;
      if init.Some? {
        match init.value
        case VarDecl(id, ty, v, _) =>
          Emit(S.TypeName(ty) + " " + id.lexeme);
          r := VisitInitializer(ty.typeToken, v);
        case AssignStmt(id, v, _) =>
          Emit(id.lexeme + " = ");
          r := VisitExpression(v);
        case ExprStmt(x, _) =>
          r := VisitExpression(x);
        case _ =>
      }
    }

    /** The condition slot of a `for`. */
    method VisitForCondition(c: Option<Expr>) returns (r: Outcome<S.GenError>)
      modifies this
      ensures Emitted(r, S.ForConditionText(c, old(sb)), sb)
      ensures indentationLevel == old(indentationLevel) && currentFunctionReturnType == old(currentFunctionReturnType)
    {
      r := Pass;
      if c.Some? {
        r := VisitExpression(c.value);
      }
    }

    /** The increment slot of a `for`. */
    method VisitIncrement(u: Option<Stmt>) returns (r: Outcome<S.GenError>)
      modifies this
      ensures Emitted(r, S.IncrementText(u, old(sb)), sb)
      ensures indentationLevel == old(indentationLevel) && currentFunctionReturnType == old(currentFunctionReturnType)
    {
      r := Pass;
      if u.Some? {
        match u.value
        case AssignStmt(id, v, _) =>
          Emit(id.lexeme + " = ");
          r := VisitExpression(v);
        case ExprStmt(x, _) =>
          r := VisitExpression(x);
        case _ =>
      }
    }

    /** The header of `Visit(ForStatementNode)`. */
    method VisitForHeader(s: Stmt) returns (r: Outcome<S.GenError>)
      requires s.ForStmt?
      modifies this
      ensures Emitted(r, S.ForHeaderText(old(indentationLevel), s, old(sb)), sb)
      ensures indentationLevel == old(indentationLevel) && currentFunctionReturnType == old(currentFunctionReturnType)
    {
      Emit("for (");
      r := VisitForInit(s.init);
      if r.Fail? { return; }
      Emit("; ");
      r := VisitForCondition(s.forCondition);
      if r.Fail? { return; }
      Emit("; ");
      r := VisitIncrement(s.increment);
      if r.Fail? { return; }
      EmitLine(")");
    }

    method VisitFor(s: Stmt) returns (r: Outcome<S.GenError>)
      requires s.ForStmt?
      modifies this
      ensures Emitted(r, S.ForText(old(indentationLevel), s, old(sb)), sb)
      ensures r.Pass? ==> indentationLevel == old(indentationLevel)
      ensures currentFunctionReturnType == old(currentFunctionReturnType)
      decreases s, 0
    {
      r := VisitForHeader(s);
      if r.Fail? { return; }
      r := VisitBlock(s.body);
    }

    method VisitBlock(b: Block) returns (r: Outcome<S.GenError>)
      modifies this
      ensures Emitted(r, S.BlockText(old(indentationLevel), b, old(sb)), sb)
      ensures r.Pass? ==> indentationLevel == old(indentationLevel)
      ensures currentFunctionReturnType == old(currentFunctionReturnType)
      decreases b, 2
    {
      var ss := b.statements;
      ghost var n := indentationLevel;
      EmitLine("{");
      Indent();
      ghost var start := sb;
      var i := 0;
      while i < |ss|
        invariant 0 <= i <= |ss|
        invariant indentationLevel == n + 1
        invariant S.StatementsText(n + 1, ss, 0, start) == S.StatementsText(n + 1, ss, i, sb)
        invariant currentFunctionReturnType == old(currentFunctionReturnType)
      {
        r := VisitStatement(ss[i]);
        if r.Fail? { return; }
        i := i + 1;
      }
      Dedent();
      EmitLine("}");
      r := Pass;
    }

    // -------------------------------------------------------------------------------------
    // Functions and the program

    /** `FormatParameters`: one "type name" per parameter, then `string.Join`. */
    static method FormatParameters(ps: seq<Param>) returns (text: string)
      ensures text == S.FormatParameters(ps)
    {
      var formatted: seq<string> := [];
      for i := 0 to |ps|
        invariant formatted == S.ParameterTexts(ps[..i])
      {
        formatted := formatted + [S.TypeName(ps[i].paramType) + " " + ps[i].identifier.lexeme];
      }
      assert ps[..|ps|] == ps;
      text := Symbols.Join(formatted);
    }

    /** The `main` branch of `Visit(FunctionDeclarationNode)`. */
    method VisitMain(f: Function) returns (r: Outcome<S.GenError>)
      requires f.identifier.lexeme == "main" && currentFunctionReturnType == S.TypeName(f.returnType)
      modifies this
      ensures Emitted(r, S.FunctionText(old(indentationLevel), f, old(sb)), sb)
      ensures r.Pass? ==> indentationLevel == old(indentationLevel)
      ensures currentFunctionReturnType == old(currentFunctionReturnType)
    {
      EmitLine("public static " + currentFunctionReturnType + " Main(string[] args)");
      EmitLine("{");
      Indent();
      EmitLine(S.SetOutLine);
      r := VisitBlock(f.body);
      if r.Fail? { return; }
      Dedent();
      EmitLine("}");
    }

    method VisitFunction(f: Function) returns (r: Outcome<S.GenError>)
      modifies this
      ensures Emitted(r, S.FunctionText(old(indentationLevel), f, old(sb)), sb)
      ensures r.Pass? ==> indentationLevel == old(indentationLevel) && currentFunctionReturnType == "void"
    {
      currentFunctionReturnType := S.TypeName(f.returnType);
      var name := f.identifier.lexeme;
      if name == "main" {
        r := VisitMain(f);
        if r.Fail? { return; }
      } else {
        var parameters := FormatParameters(f.parameters);
        EmitLine("public static " + currentFunctionReturnType + " " + name + "(" + parameters + ")");
        r := VisitBlock(f.body);
        if r.Fail? { return; }
      }
      currentFunctionReturnType := "void";
    }

    method VisitProgram(p: Program) returns (r: Outcome<S.GenError>)
      modifies this
      ensures Emitted(r, S.FunctionsText(old(indentationLevel), p.functions, 0, old(sb)), sb)
      ensures r.Pass? ==> indentationLevel == old(indentationLevel)
      ensures r.Pass? && |p.functions| > 0 ==> currentFunctionReturnType == "void"
      ensures r.Pass? && |p.functions| == 0 ==> currentFunctionReturnType == old(currentFunctionReturnType)
    {
      var fs := p.functions;
      ghost var n := indentationLevel;
      var i := 0;
      while i < |fs|
        invariant 0 <= i <= |fs|
        invariant indentationLevel == n
        invariant S.FunctionsText(n, fs, 0, old(sb)) == S.FunctionsText(n, fs, i, sb)
        invariant i > 0 ==> currentFunctionReturnType == "void"
        invariant i == 0 ==> currentFunctionReturnType == old(currentFunctionReturnType)
      {
        r := VisitFunction(fs[i]);
        if r.Fail? { return; }
        EmitLine("");
        i := i + 1;
      }
      r := Pass;
    }

    /** The opening lines of `Generate`, leaving the level two deeper. */
    method EmitPreamble()
      modifies this
      ensures sb == S.Preamble(old(indentationLevel), old(sb))
      ensures indentationLevel == old(indentationLevel) + 2
      ensures currentFunctionReturnType == old(currentFunctionReturnType)
    {
      EmitLine("using System;");
      EmitLine("using System.Linq;");
      EmitLine("using System.IO;");
      EmitLine("using System.Globalization;");
      EmitLine("");
      EmitLine("namespace MACSLangRuntime");
      EmitLine("{");
      Indent();
      EmitLine("public static class Program");
      EmitLine("{");
      Indent();
    }

    /** `Generate(program)`: the returned text is the whole buffer. */
    method Generate(p: Program) returns (r: Result<string, S.GenError>)
      modifies this
      ensures r == S.GenerateText(old(indentationLevel), p, old(sb))
      ensures r.Success? ==> sb == r.value && indentationLevel == old(indentationLevel)
    {
      EmitPreamble();
      var outcome := VisitProgram(p);
      if outcome.Fail? { return Failure(outcome.error); }
      Dedent();
      EmitLine("}");
      Dedent();
      EmitLine("}");
      r := Success(sb);
    }
  }

  /** A new generator, then `Generate`. */
  method GenerateCode(p: Program) returns (r: Result<string, S.GenError>)
    ensures r == S.Generate(p)
  {
    var generator := new CodeGenerator();
    r := generator.Generate(p);
  }
}
