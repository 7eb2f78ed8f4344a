/** Brace balance of the generated C# program: every `{` the generator writes is matched by
    a `}` it writes, so the output of `Generate` holds as many of each as long as no lexeme
    of the program holds a brace (only string and char literals can). */
module CodeGenBraces {
  import opened Wrappers
  import opened Tokens
  import opened Ast
  import opened CodeGenSpec
  import opened CodeGenProperties

  function Delta(c: char): int {
    if c == '{' then 1 else if c == '}' then -1 else 0
  }

  /** Opening braces minus closing braces. */
  function Balance(s: string): int
    decreases |s|
  {
    if s == [] then 0 else Balance(s[..|s| - 1]) + Delta(s[|s| - 1])
  }

  lemma {:induction false} BalanceAppend(a: string, b: string)
    ensures Balance(a + b) == Balance(a) + Balance(b)
    decreases |b|
  {
    if b == [] {
      assert a + b == a;
    } else {
      assert (a + b)[..|a + b| - 1] == a + b[..|b| - 1];
      BalanceAppend(a, b[..|b| - 1]);
    }
  }

  /** The balance counts the braces. */
  lemma {:induction false} BalanceCounts(s: string)
    ensures Balance(s) == multiset(s)['{'] as int - multiset(s)['}'] as int
    decreases |s|
  {
    if s != [] {
      BalanceCounts(s[..|s| - 1]);
      assert s == s[..|s| - 1] + [s[|s| - 1]];
    }
  }

  predicate Braceless(t: string) {
    '{' !in t && '}' !in t
  }

  predicate ExprBraceless(e: Expr) {
    ExprAvoids(e, '{') && ExprAvoids(e, '}')
  }

  predicate SlotBraceless(slot: Option<Stmt>) {
    SlotAvoids(slot, '{') && SlotAvoids(slot, '}')
  }

  /** Every lexeme the generator copies out of a statement is brace-free. */
  predicate StmtBraceless(s: Stmt)
    decreases s
  {
    match s
    case VarDecl(id, _, v, _) => Braceless(id.lexeme) && (v.Some? ==> ExprBraceless(v.value))
    case AssignStmt(id, v, _) => Braceless(id.lexeme) && ExprBraceless(v)
    case PrintStmt(v, _) => ExprBraceless(v)
    case InputStmt(t, _, _) => Braceless(t.lexeme)
    case ReturnStmt(v, _) => ExprBraceless(v)
    case IfStmt(x, t, e, _) => ExprBraceless(x) && BlockBraceless(t) && (e.Some? ==> BlockBraceless(e.value))
    case WhileStmt(x, b, _) => ExprBraceless(x) && BlockBraceless(b)
    case ForStmt(i, x, u, b, _) =>
      SlotBraceless(i) && (x.Some? ==> ExprBraceless(x.value)) && SlotBraceless(u) && BlockBraceless(b)
    case ExprStmt(v, _) => ExprBraceless(v)
  }

  predicate BlockBraceless(b: Block)
    decreases b
  {
    forall k | 0 <= k < |b.statements| :: StmtBraceless(b.statements[k])
  }

  predicate FunctionBraceless(f: Function) {
    && Braceless(f.identifier.lexeme)
    && (forall k | 0 <= k < |f.parameters| :: Braceless(f.parameters[k].identifier.lexeme))
    && BlockBraceless(f.body)
  }

  predicate ProgramBraceless(p: Program) {
    forall k | 0 <= k < |p.functions| :: FunctionBraceless(p.functions[k])
  }

  // ---------------------------------------------------------------------------------------
  // Text pieces

  lemma BracelessBalance(t: string)
    requires Braceless(t)
    ensures Balance(t) == 0
  {
    BalanceCounts(t);
    assert multiset(t)['{'] == 0 && multiset(t)['}'] == 0;
  }

  lemma PlainBalance(acc: string, t: string)
    requires Braceless(t)
    ensures Balance(acc + t) == Balance(acc)
  {
    BalanceAppend(acc, t);
    BracelessBalance(t);
  }

  lemma LinedBalance(acc: string, n: int, code: string)
    ensures Balance(Lined(acc, n, code)) == Balance(acc) + Balance(code)
  {
    SpacesPlain(n, '{');
    SpacesPlain(n, '}');
    BalanceAppend(acc, Spaces(n));
    BracelessBalance(Spaces(n));
    BalanceAppend(acc + Spaces(n), code);
    BalanceAppend(acc + Spaces(n) + code, "\n");
    BracelessBalance("\n");
  }

  /** A brace-free line keeps the balance. */
  lemma LinedPlain(acc: string, n: int, code: string)
    requires Braceless(code)
    ensures Balance(Lined(acc, n, code)) == Balance(acc)
  {
    LinedBalance(acc, n, code);
    BracelessBalance(code);
  }

  lemma LinedOpen(acc: string, n: int)
    ensures Balance(Lined(acc, n, "{")) == Balance(acc) + 1
  {
    LinedBalance(acc, n, "{");
    assert Balance("{") == Balance("") + Delta('{');
  }

  lemma LinedClose(acc: string, n: int)
    ensures Balance(Lined(acc, n, "}")) == Balance(acc) - 1
  {
    LinedBalance(acc, n, "}");
    assert Balance("}") == Balance("") + Delta('}');
  }

  lemma ExprBalanced(e: Expr, acc: string)
    requires ExprBraceless(e) && ExprText(e, acc).Success?
    ensures Balance(ExprText(e, acc).value) == Balance(acc)
  {
    BalanceCounts(acc);
    BalanceCounts(ExprText(e, acc).value);
    ExprKeeps(e, '{', acc);
    ExprKeeps(e, '}', acc);
  }

  lemma TypeNameBraceless(t: TypeNode)
    ensures Braceless(TypeName(t))
  {
    TypeNamePlain(t, '{');
    TypeNamePlain(t, '}');
  }

  /** The console set-up line opens and closes one object initializer. */
  lemma SetOutBalanced()
    ensures Balance(SetOutLine) == 0
  {
    SetOutPiecesBraceless();
    SetOutInsideBraceless();
    Enclosed(SetOutOpening, SetOutInitializer, ");");
  }

  lemma Enclosed(before: string, inside: string, after: string)
    requires Braceless(before) && Braceless(inside) && Braceless(after)
    ensures Balance(before + "{" + inside + "}" + after) == 0
  {
    BracelessBalance(before);
    BalanceAppend(before, "{");
    assert Balance("{") == Balance("") + Delta('{');
    PlainBalance(before + "{", inside);
    BalanceAppend(before + "{" + inside, "}");
    assert Balance("}") == Balance("") + Delta('}');
    PlainBalance(before + "{" + inside + "}", after);
  }

  lemma ReadBraceless(k: TokenType, name: string)
    requires Braceless(name)
    ensures Braceless(ReadText(k, name))
  {
    if k == IntKeyword || k == FloatKeyword {
      ParsedReadBraceless(k);
    } else {
      OtherReadBraceless(k);
    }
  }

  lemma ParsedReadBraceless(k: TokenType)
    requires k == IntKeyword || k == FloatKeyword
    ensures Braceless(ReadConversion(k))
  {
    InputLinesBraceless();
    CultureBraceless();
    assert Braceless("int.Parse(") && Braceless("float.Parse(") && Braceless("!, ") && Braceless(");");
  }

  lemma OtherReadBraceless(k: TokenType)
    requires k != IntKeyword && k != FloatKeyword
    ensures Braceless(ReadConversion(k))
  {
    InputLinesBraceless();
    match k
    case BoolKeyword => assert Braceless("bool.Parse(") && Braceless("!);");
    case CharKeyword => assert Braceless("![0];");
    case StringKeyword =>
    case _ => WrongTypeBraceless();
  }

  lemma WrongTypeBraceless()
    ensures Braceless("; // Erro: ") && Braceless("Tipo desconhecido para input")
  {
  }

  // The fixed lines the generator writes hold no brace, apart from the set-up line.

  lemma InputLinesBraceless()
    ensures Braceless(FlushLine) && Braceless(ReadLine)
  {
  }

  lemma CultureBraceless()
    ensures Braceless(InvariantCulture)
  {
  }

  lemma UsingLinesBraceless()
    ensures Braceless("using System;") && Braceless("using System.Linq;")
  {
  }

  lemma MoreUsingLinesBraceless()
    ensures Braceless("using System.IO;") && Braceless("using System.Globalization;")
  {
  }

  lemma NamespaceLinesBraceless()
    ensures Braceless("") && Braceless("namespace MACSLangRuntime")
  {
  }

  lemma ClassLineBraceless()
    ensures Braceless("public static class Program")
  {
  }

  lemma MainLinesBraceless()
    ensures Braceless(" Main(string[] args)") && Braceless("public static ")
  {
  }

  lemma SetOutPiecesBraceless()
    ensures Braceless(SetOutOpening)
  {
  }

  lemma SetOutInsideBraceless()
    ensures Braceless(SetOutInitializer) && Braceless(");")
  {
  }

  lemma ForInitBalanced(init: Option<Stmt>, acc: string)
    requires SlotBraceless(init) && ForInitText(init, acc).Success?
    ensures Balance(ForInitText(init, acc).value) == Balance(acc)
  {
    ForInitKeeps(init, '{', acc);
    ForInitKeeps(init, '}', acc);
    BalanceCounts(acc);
    BalanceCounts(ForInitText(init, acc).value);
  }

  lemma IncrementBalanced(u: Option<Stmt>, acc: string)
    requires SlotBraceless(u) && IncrementText(u, acc).Success?
    ensures Balance(IncrementText(u, acc).value) == Balance(acc)
  {
    IncrementKeeps(u, '{', acc);
    IncrementKeeps(u, '}', acc);
    BalanceCounts(acc);
    BalanceCounts(IncrementText(u, acc).value);
  }

  // ---------------------------------------------------------------------------------------
  // Statements and blocks

  /** A statement's text is balanced: it adds as many `{` as `}`. */
  lemma {:induction false} StmtBalanced(n: int, s: Stmt, acc: string)
    requires StmtBraceless(s) && StmtText(n, s, acc).Success?
    ensures Balance(StmtText(n, s, acc).value) == Balance(acc)
    decreases s, 1
  {
    match s
    case VarDecl(_, _, _, _) => DeclarationBalanced(n, s, acc);
    case AssignStmt(id, v, _) => ClosedBalanced(n, v, acc, id.lexeme + " = ", ";");
    case PrintStmt(v, _) => ClosedBalanced(n, v, acc, "Console.WriteLine(", ");");
    case InputStmt(_, _, _) => InputBalanced(n, s, acc);
    case ReturnStmt(v, _) => ClosedBalanced(n, v, acc, "return ", ";");
    case IfStmt(_, _, _, _) => IfBalanced(n, s, acc);
    case WhileStmt(_, _, _) => WhileBalanced(n, s, acc);
    case ForStmt(_, _, _, _, _) => ForBalanced(n, s, acc);
    case ExprStmt(v, _) =>
      ExprBalanced(v, acc);
      LinedPlain(ExprText(v, acc).value, n, ";");
  }

  /** An opening text, an expression and a closing line, all brace-free. */
  lemma ClosedBalanced(n: int, v: Expr, acc: string, opening: string, closing: string)
    requires Braceless(opening) && Braceless(closing) && ExprBraceless(v)
    requires ExprText(v, acc + opening).Success?
    ensures Balance(Lined(ExprText(v, acc + opening).value, n, closing)) == Balance(acc)
  {
    PlainBalance(acc, opening);
    ExprBalanced(v, acc + opening);
    LinedPlain(ExprText(v, acc + opening).value, n, closing);
  }

  lemma InitializerBalanced(k: TokenType, v: Option<Expr>, acc: string)
    requires (v.Some? ==> ExprBraceless(v.value)) && InitializerText(k, v, acc).Success?
    ensures Balance(InitializerText(k, v, acc).value) == Balance(acc)
  {
    match v
    case Some(x) =>
      PlainBalance(acc, " = ");
      ExprBalanced(x, acc + " = ");
    case None =>
      DefaultPlain(k, '{');
      DefaultPlain(k, '}');
      PlainBalance(acc, DefaultValue(k));
  }

  lemma DeclarationBalanced(n: int, s: Stmt, acc: string)
    requires s.VarDecl? && StmtBraceless(s) && DeclarationText(n, s, acc).Success?
    ensures Balance(DeclarationText(n, s, acc).value) == Balance(acc)
  {
    var named := TypeName(s.varType) + " " + s.identifier.lexeme;
    TypeNameBraceless(s.varType);
    PlainBalance(acc, named);
    InitializerBalanced(s.varType.typeToken, s.initialValue, acc + named);
    LinedPlain(InitializerText(s.varType.typeToken, s.initialValue, acc + named).value, n, ";");
  }

  lemma InputBalanced(n: int, s: Stmt, acc: string)
    requires s.InputStmt? && StmtBraceless(s) && InputText(n, s, acc).Success?
    ensures Balance(InputText(n, s, acc).value) == Balance(acc)
  {
    InputLinesBraceless();
    LinedPlain(acc, n, FlushLine);
    var a := Lined(acc, n, FlushLine);
    ReadBraceless(s.resolvedType, s.target.lexeme);
    PlainBalance(a, ReadText(s.resolvedType, s.target.lexeme));
    LinedPlain(a + ReadText(s.resolvedType, s.target.lexeme), n, "");
  }

  lemma {:induction false} IfBalanced(n: int, s: Stmt, acc: string)
    requires s.IfStmt? && StmtBraceless(s) && IfText(n, s, acc).Success?
    ensures Balance(IfText(n, s, acc).value) == Balance(acc)
    decreases s, 0
  {
    PlainBalance(acc, "if (");
    ExprBalanced(s.condition, acc + "if (");
    var a := ExprText(s.condition, acc + "if (").value;
    PlainBalance(a, ") ");
    BlockBalanced(n, s.trueBlock, a + ") ");
    var b := BlockText(n, s.trueBlock, a + ") ").value;
    if s.elseBlock.Some? {
      PlainBalance(b, "else ");
      BlockBalanced(n, s.elseBlock.value, b + "else ");
    }
  }

  lemma {:induction false} WhileBalanced(n: int, s: Stmt, acc: string)
    requires s.WhileStmt? && StmtBraceless(s) && WhileText(n, s, acc).Success?
    ensures Balance(WhileText(n, s, acc).value) == Balance(acc)
    decreases s, 0
  {
    PlainBalance(acc, "while (");
    ExprBalanced(s.condition, acc + "while (");
    var a := ExprText(s.condition, acc + "while (").value;
    PlainBalance(a, ") ");
    BlockBalanced(n, s.body, a + ") ");
  }

  lemma ForHeaderBalanced(n: int, s: Stmt, acc: string)
    requires s.ForStmt? && ForHeaderText(n, s, acc).Success?
    requires SlotBraceless(s.init) && SlotBraceless(s.increment)
    requires s.forCondition.Some? ==> ExprBraceless(s.forCondition.value)
    ensures Balance(ForHeaderText(n, s, acc).value) == Balance(acc)
  {
    var a, c, u := ForHeaderParts(n, s, acc);
    PlainBalance(acc, "for (");
    ForInitBalanced(s.init, acc + "for (");
    PlainBalance(a, "; ");
    if s.forCondition.Some? {
      ExprBalanced(s.forCondition.value, a + "; ");
    }
    PlainBalance(c, "; ");
    IncrementBalanced(s.increment, c + "; ");
    LinedPlain(u, n, ")");
  }

  lemma {:induction false} ForBalanced(n: int, s: Stmt, acc: string)
    requires s.ForStmt? && StmtBraceless(s) && ForText(n, s, acc).Success?
    ensures Balance(ForText(n, s, acc).value) == Balance(acc)
    decreases s, 0
  {
    ForHeaderBalanced(n, s, acc);
    BlockBalanced(n, s.body, ForHeaderText(n, s, acc).value);
  }

  /** A block's text is balanced: its brace lines match, and so do its statements. */
  lemma {:induction false} BlockBalanced(n: int, b: Block, acc: string)
    requires BlockBraceless(b) && BlockText(n, b, acc).Success?
    ensures Balance(BlockText(n, b, acc).value) == Balance(acc)
    decreases b, 2
  {
    LinedOpen(acc, n);
    StatementsBalanced(n + 1, b.statements, 0, Lined(acc, n, "{"));
    var a := StatementsText(n + 1, b.statements, 0, Lined(acc, n, "{")).value;
    LinedClose(a, n);
  }

  lemma {:induction false} StatementsBalanced(n: int, ss: seq<Stmt>, i: nat, acc: string)
    requires (forall k | 0 <= k < |ss| :: StmtBraceless(ss[k])) && StatementsText(n, ss, i, acc).Success?
    ensures Balance(StatementsText(n, ss, i, acc).value) == Balance(acc)
    decreases ss, |ss| - i
  {
    if i < |ss| {
      StmtBalanced(n, ss[i], acc);
      StatementsBalanced(n, ss, i + 1, StmtText(n, ss[i], acc).value);
    }
  }

  // ---------------------------------------------------------------------------------------
  // Functions and the program

  /** The lines `main` starts with open one brace. */
  lemma MainEntryBalance(n: int, rt: string, acc: string)
    requires Braceless(rt)
    ensures Balance(Lined(Lined(Lined(acc, n, "public static " + rt + " Main(string[] args)"), n, "{"), n + 1, SetOutLine))
      == Balance(acc) + 1
  {
    MainLinesBraceless();
    var l1 := Lined(acc, n, "public static " + rt + " Main(string[] args)");
    LinedPlain(acc, n, "public static " + rt + " Main(string[] args)");
    var l2 := Lined(l1, n, "{");
    LinedOpen(l1, n);
    LinedBalance(l2, n + 1, SetOutLine);
    SetOutBalanced();
  }

  lemma MainBalanced(n: int, f: Function, acc: string)
    requires f.identifier.lexeme == "main" && FunctionBraceless(f) && FunctionText(n, f, acc).Success?
    ensures Balance(FunctionText(n, f, acc).value) == Balance(acc)
  {
    var rt := TypeName(f.returnType);
    TypeNameBraceless(f.returnType);
    MainEntryBalance(n, rt, acc);
    var entry := Lined(Lined(Lined(acc, n, "public static " + rt + " Main(string[] args)"), n, "{"), n + 1, SetOutLine);
    BlockBalanced(n + 1, f.body, entry);
    LinedClose(BlockText(n + 1, f.body, entry).value, n);
  }

  lemma HeaderBraceless(f: Function)
    requires FunctionBraceless(f)
    ensures Braceless(Header(TypeName(f.returnType), f))
  {
    TypeNameBraceless(f.returnType);
    ParametersAvoid(f.parameters, '{');
    ParametersAvoid(f.parameters, '}');
  }

  /** A function's text is balanced. */
  lemma FunctionBalanced(n: int, f: Function, acc: string)
    requires FunctionBraceless(f) && FunctionText(n, f, acc).Success?
    ensures Balance(FunctionText(n, f, acc).value) == Balance(acc)
  {
    if f.identifier.lexeme == "main" {
      MainBalanced(n, f, acc);
    } else {
      var h := Header(TypeName(f.returnType), f);
      HeaderBraceless(f);
      LinedPlain(acc, n, h);
      BlockBalanced(n, f.body, Lined(acc, n, h));
    }
  }

  lemma {:induction false} FunctionsBalanced(n: int, fs: seq<Function>, i: nat, acc: string)
    requires (forall k | 0 <= k < |fs| :: FunctionBraceless(fs[k])) && FunctionsText(n, fs, i, acc).Success?
    ensures Balance(FunctionsText(n, fs, i, acc).value) == Balance(acc)
    decreases |fs| - i
  {
    if i < |fs| {
      FunctionBalanced(n, fs[i], acc);
      var a := FunctionText(n, fs[i], acc).value;
      LinedPlain(a, n, "");
      FunctionsBalanced(n, fs, i + 1, Lined(a, n, ""));
    }
  }

  /** The preamble opens the namespace and the class and closes neither. */
  lemma PreambleBalance(n: int, acc: string)
    ensures Balance(Preamble(n, acc)) == Balance(acc) + 2
  {
    UsingLinesBraceless();
    MoreUsingLinesBraceless();
    NamespaceLinesBraceless();
    ClassLineBraceless();
    var a1 := Lined(acc, n, "using System;");
    LinedPlain(acc, n, "using System;");
    var a2 := Lined(a1, n, "using System.Linq;");
    LinedPlain(a1, n, "using System.Linq;");
    var a3 := Lined(a2, n, "using System.IO;");
    LinedPlain(a2, n, "using System.IO;");
    var a4 := Lined(a3, n, "using System.Globalization;");
    LinedPlain(a3, n, "using System.Globalization;");
    var a5 := Lined(a4, n, "");
    LinedPlain(a4, n, "");
    var a6 := Lined(a5, n, "namespace MACSLangRuntime");
    LinedPlain(a5, n, "namespace MACSLangRuntime");
    var a7 := Lined(a6, n, "{");
    LinedOpen(a6, n);
    var a8 := Lined(a7, n + 1, "public static class Program");
    LinedPlain(a7, n + 1, "public static class Program");
    LinedOpen(a8, n + 1);
  }

  /** The generated program holds as many `{` as `}` when no lexeme of the source program
      holds a brace. */
  lemma GenerateBalanced(p: Program)
    requires ProgramBraceless(p) && Generate(p).Success?
    ensures multiset(Generate(p).value)['{'] == multiset(Generate(p).value)['}']
  {
    PreambleBalance(0, "");
    FunctionsBalanced(2, p.functions, 0, Preamble(0, ""));
    var a := FunctionsText(2, p.functions, 0, Preamble(0, "")).value;
    LinedClose(a, 1);
    LinedClose(Lined(a, 1, "}"), 0);
    BalanceCounts(Generate(p).value);
  }
}
