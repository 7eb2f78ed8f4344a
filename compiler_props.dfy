/** The semantic analyzer and the code generator together: code generation fails exactly on
    trees with an operator the generator cannot convert or an input whose target type was
    never resolved, and every tree the analyzer accepts has neither, so every program that
    passes MACSLang.SemanticAnalyzer/SemanticAnalyzer.cs is turned into C# by
    MACSLang.CodeGenerator/CodeGenerator.cs (with the corrected for initializer). */
module CompilerProperties {
  import opened Wrappers
  import opened Tokens
  import opened Ast
  import opened Symbols
  import opened SymbolTables
  import opened Typing
  import opened AnalyzerSpec
  import opened AnalyzerProperties
  import opened CodeGenSpec
  import opened CodeGenProperties
  import ParserSpec
  import ParserProperties

  // ---------------------------------------------------------------------------------------
  // The trees the generator can write

  predicate ExprGenerable(e: Expr)
    decreases e
  {
    match e
    case Binary(l, op, r, _) => IsOperator(op.kind) && ExprGenerable(l) && ExprGenerable(r)
    case Unary(op, x, _) => IsOperator(op.kind) && ExprGenerable(x)
    case Literal(_, _, _) => true
    case Ident(_, _) => true
    case Call(_, args, _) => forall k | 0 <= k < |args| :: ExprGenerable(args[k])
  }

  /** A for initializer as the generator reads it: only declarations, assignments and
      expression statements are written. */
  predicate InitGenerable(slot: Option<Stmt>) {
    match slot
    case Some(VarDecl(_, _, v, _)) => v.Some? ==> ExprGenerable(v.value)
    case Some(AssignStmt(_, v, _)) => ExprGenerable(v)
    case Some(ExprStmt(x, _)) => ExprGenerable(x)
    case _ => true
  }

  /** A for increment as the generator reads it: only assignments and expression statements
      are written. */
  predicate IncrementGenerable(slot: Option<Stmt>) {
    match slot
    case Some(AssignStmt(_, v, _)) => ExprGenerable(v)
    case Some(ExprStmt(x, _)) => ExprGenerable(x)
    case _ => true
  }

  predicate StmtGenerable(s: Stmt)
    decreases s
  {
    match s
    case VarDecl(_, _, v, _) => v.Some? ==> ExprGenerable(v.value)
    case AssignStmt(_, v, _) => ExprGenerable(v)
    case PrintStmt(v, _) => ExprGenerable(v)
    case InputStmt(_, k, _) => ConvertType(k).Success?
    case ReturnStmt(v, _) => ExprGenerable(v)
    case IfStmt(c, t, e, _) => ExprGenerable(c) && BlockGenerable(t) && (e.Some? ==> BlockGenerable(e.value))
    case WhileStmt(c, b, _) => ExprGenerable(c) && BlockGenerable(b)
    case ForStmt(i, c, u, b, _) =>
      InitGenerable(i) && (c.Some? ==> ExprGenerable(c.value)) && IncrementGenerable(u) && BlockGenerable(b)
    case ExprStmt(x, _) => ExprGenerable(x)
  }

  predicate BlockGenerable(b: Block)
    decreases b
  {
    forall k | 0 <= k < |b.statements| :: StmtGenerable(b.statements[k])
  }

  predicate ProgramGenerable(p: Program) {
    forall k | 0 <= k < |p.functions| :: BlockGenerable(p.functions[k].body)
  }

  // ---------------------------------------------------------------------------------------
  // Generation succeeds exactly on those trees

  lemma {:induction false} ExprGenerates(e: Expr, acc: string)
    ensures ExprText(e, acc).Success? <==> ExprGenerable(e)
    decreases e, 1
  {
    match e
    case Binary(l, op, r, _) =>
      ExprGenerates(l, acc);
      OperatorsConverted(op.kind);
      var a := ExprText(l, acc);
      var o := ConvertOperator(op.kind);
      if a.Success? && o.Success? {
        ExprGenerates(r, a.value + (" " + o.value + " "));
      }
    case Unary(op, x, _) =>
      OperatorsConverted(op.kind);
      var o := ConvertOperator(op.kind);
      if o.Success? {
        ExprGenerates(x, acc + o.value);
      }
    case Literal(_, _, _) =>
    case Ident(_, _) =>
    case Call(t, args, _) => ArgumentsGenerate(args, 0, acc + (t.lexeme + "("));
  }

  lemma {:induction false} ArgumentsGenerate(args: seq<Expr>, i: nat, acc: string)
    ensures ArgumentsText(args, i, acc).Success? <==> forall k | i <= k < |args| :: ExprGenerable(args[k])
    decreases args, |args| - i
  {
    if i < |args| {
      ExprGenerates(args[i], acc);
      var a := ExprText(args[i], acc);
      if a.Success? {
        ArgumentsGenerate(args, i + 1, if i < |args| - 1 then a.value + ", " else a.value);
      }
    }
  }

  lemma InitializerGenerates(k: TokenType, v: Option<Expr>, acc: string)
    ensures InitializerText(k, v, acc).Success? <==> (v.Some? ==> ExprGenerable(v.value))
  {
    if v.Some? {
      ExprGenerates(v.value, acc + " = ");
    }
  }

  /** A statement generates exactly when it is generable, from any level and buffer. */
  lemma {:induction false} StmtGenerates(n: int, s: Stmt, acc: string)
    ensures StmtText(n, s, acc).Success? <==> StmtGenerable(s)
    decreases s, 1
  {
    match s
    case VarDecl(id, ty, v, _) =>
      InitializerGenerates(ty.typeToken, v, acc + (TypeName(ty) + " " + id.lexeme));
    case AssignStmt(id, v, _) => ExprGenerates(v, acc + (id.lexeme + " = "));
    case PrintStmt(v, _) => ExprGenerates(v, acc + "Console.WriteLine(");
    case InputStmt(_, _, _) =>
    case ReturnStmt(v, _) => ExprGenerates(v, acc + "return ");
    case IfStmt(_, _, _, _) => IfGenerates(n, s, acc);
    case WhileStmt(c, b, _) =>
      ExprGenerates(c, acc + "while (");
      var a := ExprText(c, acc + "while (");
      if a.Success? {
        BlockGenerates(n, b, a.value + ") ");
      }
    case ForStmt(_, _, _, _, _) => ForGenerates(n, s, acc);
    case ExprStmt(x, _) => ExprGenerates(x, acc);
  }

  lemma {:induction false} IfGenerates(n: int, s: Stmt, acc: string)
    requires s.IfStmt?
    ensures IfText(n, s, acc).Success? <==> StmtGenerable(s)
    decreases s, 0
  {
    ExprGenerates(s.condition, acc + "if (");
    var a := ExprText(s.condition, acc + "if (");
    if a.Success? {
      BlockGenerates(n, s.trueBlock, a.value + ") ");
      var b := BlockText(n, s.trueBlock, a.value + ") ");
      if b.Success? && s.elseBlock.Some? {
        BlockGenerates(n, s.elseBlock.value, b.value + "else ");
      }
    }
  }

  lemma ForInitGenerates(init: Option<Stmt>, acc: string)
    ensures ForInitText(init, acc).Success? <==> InitGenerable(init)
  {
    match init
    case Some(VarDecl(id, ty, v, _)) =>
      InitializerGenerates(ty.typeToken, v, acc + (TypeName(ty) + " " + id.lexeme));
    case Some(AssignStmt(id, v, _)) => ExprGenerates(v, acc + (id.lexeme + " = "));
    case Some(ExprStmt(x, _)) => ExprGenerates(x, acc);
    case _ =>
  }

  lemma IncrementGenerates(u: Option<Stmt>, acc: string)
    ensures IncrementText(u, acc).Success? <==> IncrementGenerable(u)
  {
    match u
    case Some(AssignStmt(id, v, _)) => ExprGenerates(v, acc + (id.lexeme + " = "));
    case Some(ExprStmt(x, _)) => ExprGenerates(x, acc);
    case _ =>
  }

  lemma ForHeaderGenerates(n: int, s: Stmt, acc: string)
    requires s.ForStmt?
    ensures ForHeaderText(n, s, acc).Success? <==>
      InitGenerable(s.init) && (s.forCondition.Some? ==> ExprGenerable(s.forCondition.value))
      && IncrementGenerable(s.increment)
  {
    ForInitGenerates(s.init, acc + "for (");
    var a := ForInitText(s.init, acc + "for (");
    if a.Success? {
      if s.forCondition.Some? {
        ExprGenerates(s.forCondition.value, a.value + "; ");
      }
      var c := ForConditionText(s.forCondition, a.value + "; ");
      if c.Success? {
        IncrementGenerates(s.increment, c.value + "; ");
      }
    }
  }

  lemma {:induction false} ForGenerates(n: int, s: Stmt, acc: string)
    requires s.ForStmt?
    ensures ForText(n, s, acc).Success? <==> StmtGenerable(s)
    decreases s, 0
  {
    ForHeaderGenerates(n, s, acc);
    var h := ForHeaderText(n, s, acc);
    if h.Success? {
      BlockGenerates(n, s.body, h.value);
    }
  }

  lemma {:induction false} BlockGenerates(n: int, b: Block, acc: string)
    ensures BlockText(n, b, acc).Success? <==> BlockGenerable(b)
    decreases b, 2
  {
    StatementsGenerate(n + 1, b.statements, 0, Lined(acc, n, "{"));
  }

  lemma {:induction false} StatementsGenerate(n: int, ss: seq<Stmt>, i: nat, acc: string)
    ensures StatementsText(n, ss, i, acc).Success? <==> forall k | i <= k < |ss| :: StmtGenerable(ss[k])
    decreases ss, |ss| - i
  {
    if i < |ss| {
      StmtGenerates(n, ss[i], acc);
      var a := StmtText(n, ss[i], acc);
      if a.Success? {
        StatementsGenerate(n, ss, i + 1, a.value);
      }
    }
  }

  lemma FunctionGenerates(n: int, f: Function, acc: string)
    ensures FunctionText(n, f, acc).Success? <==> BlockGenerable(f.body)
  {
    var rt := TypeName(f.returnType);
    if f.identifier.lexeme == "main" {
      BlockGenerates(n + 1, f.body, Lined(Lined(Lined(acc, n, "public static " + rt + " Main(string[] args)"), n, "{"), n + 1, SetOutLine));
    } else {
      BlockGenerates(n, f.body, Lined(acc, n, Header(rt, f)));
    }
  }

  lemma {:induction false} FunctionsGenerate(n: int, fs: seq<Function>, i: nat, acc: string)
    ensures FunctionsText(n, fs, i, acc).Success? <==> forall k | i <= k < |fs| :: BlockGenerable(fs[k].body)
    decreases |fs| - i
  {
    if i < |fs| {
      FunctionGenerates(n, fs[i], acc);
      var a := FunctionText(n, fs[i], acc);
      if a.Success? {
        FunctionsGenerate(n, fs, i + 1, Lined(a.value, n, ""));
      }
    }
  }

  /** `Generate` succeeds exactly on generable programs. */
  lemma ProgramGenerates(p: Program)
    ensures Generate(p).Success? <==> ProgramGenerable(p)
  {
    FunctionsGenerate(2, p.functions, 0, Preamble(0, ""));
  }

  // ---------------------------------------------------------------------------------------
  // The analyzer produces generable trees

  ghost predicate ScopeTyped(sc: Scope) {
    forall n | n in sc :: TypedSymbol(sc[n])
  }

  lemma EnvSnoc(outer: seq<Scope>, top: Scope)
    requires TypedEnv(outer) && ScopeTyped(top)
    ensures TypedEnv(outer + [top])
  {
  }

  /** An expression the analyzer types only uses operators: the groups of the binary typing
      rule and the two unary operators. */
  lemma {:induction false} TypedExprGenerable(env: seq<Scope>, e: Expr)
    requires TypeOf(env, e).Success?
    ensures ExprGenerable(TypeOf(env, e).value)
    decreases e, 1
  {
    match e
    case Binary(l, op, r, _) =>
      TypedExprGenerable(env, l);
      TypedExprGenerable(env, r);
      GroupsOfOperators(op.kind);
    case Unary(op, x, _) =>
      TypedExprGenerable(env, x);
      UnaryTyping(op, TypeOf(env, x).value.ty);
    case Literal(_, _, _) =>
    case Ident(_, _) =>
    case Call(t, args, _) =>
      var s := Lookup(env, t.lexeme).value;
      TypedArgumentsGenerable(env, s, args, 0, []);
  }

  lemma {:induction false} TypedArgumentsGenerable(env: seq<Scope>, callee: Symbol, args: seq<Expr>, i: nat, done: seq<Expr>)
    requires callee.FunctionSymbol? && |args| == |callee.parameterTypes| && i <= |args|
    requires forall k | 0 <= k < |done| :: ExprGenerable(done[k])
    requires TypeArguments(env, callee, args, i, done).Success?
    ensures forall k | 0 <= k < |TypeArguments(env, callee, args, i, done).value| ::
      ExprGenerable(TypeArguments(env, callee, args, i, done).value[k])
    decreases args, |args| - i
  {
    if i < |args| {
      TypedExprGenerable(env, args[i]);
      var a := TypeOf(env, args[i]).value;
      TypedArgumentsGenerable(env, callee, args, i + 1, done + [a]);
    }
  }

  /** A statement the analyzer accepts is generable, and leaves a current scope of typed
      symbols. */
  lemma {:induction false} CheckedStmtGenerable(outer: seq<Scope>, top: Scope, fn: Option<Symbol>, s: Stmt)
    requires TypedEnv(outer) && ScopeTyped(top) && CheckStmt(outer, top, fn, s).Success?
    ensures StmtGenerable(CheckStmt(outer, top, fn, s).value.node)
    ensures ScopeTyped(CheckStmt(outer, top, fn, s).value.scope)
    decreases s, 1
  {
    EnvSnoc(outer, top);
    var env := outer + [top];
    match s
    case VarDecl(_, _, _, _) => CheckedDeclarationGenerable(outer, top, s);
    case AssignStmt(_, v, _) => TypedExprGenerable(env, v);
    case PrintStmt(v, _) => TypedExprGenerable(env, v);
    case InputStmt(t, _, _) => LookupTyped(env, t.lexeme);
    case ReturnStmt(v, _) => TypedExprGenerable(env, v);
    case IfStmt(c, tb, eb, _) =>
      TypedExprGenerable(env, c);
      CheckedScopedBlockGenerable(env, fn, tb);
      if eb.Some? {
        CheckedScopedBlockGenerable(env, fn, eb.value);
      }
    case WhileStmt(c, b, _) =>
      TypedExprGenerable(env, c);
      CheckedScopedBlockGenerable(env, fn, b);
    case ForStmt(_, _, _, _, _) => CheckedForGenerable(env, top, fn, s);
    case ExprStmt(v, _) => TypedExprGenerable(env, v);
  }

  lemma CheckedDeclarationGenerable(outer: seq<Scope>, top: Scope, s: Stmt)
    requires s.VarDecl? && TypedEnv(outer) && ScopeTyped(top) && CheckVarDecl(outer, top, s).Success?
    ensures StmtGenerable(CheckVarDecl(outer, top, s).value.node)
    ensures ScopeTyped(CheckVarDecl(outer, top, s).value.scope)
  {
    var top' := top[s.identifier.lexeme := VariableSymbol(s.identifier.lexeme, s.varType.typeToken)];
    if s.initialValue.Some? {
      TypedExprGenerable(outer + [top'], s.initialValue.value);
    }
  }

  lemma {:induction false} CheckedScopedBlockGenerable(env: seq<Scope>, fn: Option<Symbol>, b: Block)
    requires TypedEnv(env) && CheckScopedBlock(env, fn, b).Success?
    ensures BlockGenerable(CheckScopedBlock(env, fn, b).value)
    decreases b, 3
  {
    CheckedBlockGenerable(env, map[], fn, b);
  }

  lemma {:induction false} CheckedForGenerable(env: seq<Scope>, top: Scope, fn: Option<Symbol>, s: Stmt)
    requires s.ForStmt? && TypedEnv(env) && CheckFor(env, top, fn, s).Success?
    ensures StmtGenerable(CheckFor(env, top, fn, s).value.node)
    decreases s, 0
  {
    CheckedSlotGenerable(env, map[], fn, s.init);
    var i := CheckSlot(env, map[], fn, s.init).value;
    EnvSnoc(env, i.scope);
    if s.forCondition.Some? {
      TypedExprGenerable(env + [i.scope], s.forCondition.value);
    }
    CheckedBlockGenerable(env, i.scope, fn, s.body);
    var b := CheckBlock(env, i.scope, fn, s.body).value;
    CheckedSlotGenerable(env, b.scope, fn, s.increment);
  }

  lemma {:induction false} CheckedSlotGenerable(outer: seq<Scope>, top: Scope, fn: Option<Symbol>, slot: Option<Stmt>)
    requires TypedEnv(outer) && ScopeTyped(top) && CheckSlot(outer, top, fn, slot).Success?
    ensures InitGenerable(CheckSlot(outer, top, fn, slot).value.node)
    ensures IncrementGenerable(CheckSlot(outer, top, fn, slot).value.node)
    ensures ScopeTyped(CheckSlot(outer, top, fn, slot).value.scope)
    decreases slot, 2
  {
    if slot.Some? {
      CheckedStmtGenerable(outer, top, fn, slot.value);
    }
  }

  lemma {:induction false} CheckedBlockGenerable(outer: seq<Scope>, top: Scope, fn: Option<Symbol>, b: Block)
    requires TypedEnv(outer) && ScopeTyped(top) && CheckBlock(outer, top, fn, b).Success?
    ensures BlockGenerable(CheckBlock(outer, top, fn, b).value.node)
    ensures ScopeTyped(CheckBlock(outer, top, fn, b).value.scope)
    decreases b, 2
  {
    CheckedStatementsGenerable(outer, top, fn, b.statements, 0, []);
  }

  lemma {:induction false} CheckedStatementsGenerable(outer: seq<Scope>, top: Scope, fn: Option<Symbol>, ss: seq<Stmt>, i: nat, done: seq<Stmt>)
    requires i <= |ss| && TypedEnv(outer) && ScopeTyped(top)
    requires forall k | 0 <= k < |done| :: StmtGenerable(done[k])
    requires CheckStatements(outer, top, fn, ss, i, done).Success?
    ensures forall k | 0 <= k < |CheckStatements(outer, top, fn, ss, i, done).value.node| ::
      StmtGenerable(CheckStatements(outer, top, fn, ss, i, done).value.node[k])
    ensures ScopeTyped(CheckStatements(outer, top, fn, ss, i, done).value.scope)
    decreases ss, |ss| - i
  {
    if i < |ss| {
      CheckedStmtGenerable(outer, top, fn, ss[i]);
      var c := CheckStmt(outer, top, fn, ss[i]).value;
      CheckedStatementsGenerable(outer, c.scope, fn, ss, i + 1, done + [c.node]);
    }
  }

  /** Parameters are defined as variables of their declared types. */
  lemma {:induction false} ParametersTyped(ps: seq<Param>, i: nat, scope: Scope)
    requires i <= |ps| && ScopeTyped(scope) && DefineParameters(ps, i, scope).Success?
    ensures ScopeTyped(DefineParameters(ps, i, scope).value)
    decreases |ps| - i
  {
    if i < |ps| {
      var d := DefineIn(scope, VariableSymbol(ps[i].identifier.lexeme, ps[i].paramType.typeToken));
      ParametersTyped(ps, i + 1, d.value);
    }
  }

  lemma CheckedFunctionGenerable(globals: Scope, f: Function)
    requires ScopeTyped(globals) && CheckFunction(globals, f).Success?
    ensures BlockGenerable(CheckFunction(globals, f).value.body)
  {
    ParametersTyped(f.parameters, 0, map[]);
    var scope := DefineParameters(f.parameters, 0, map[]).value;
    assert TypedEnv([globals]);
    CheckedBlockGenerable([globals], scope, AsFunction(Lookup([globals, map[]], f.identifier.lexeme)), f.body);
  }

  lemma {:induction false} CheckedFunctionsGenerable(globals: Scope, fs: seq<Function>, i: nat, done: seq<Function>)
    requires i <= |fs| && ScopeTyped(globals)
    requires forall k | 0 <= k < |done| :: BlockGenerable(done[k].body)
    requires CheckFunctions(globals, fs, i, done).Success?
    ensures forall k | 0 <= k < |CheckFunctions(globals, fs, i, done).value| ::
      BlockGenerable(CheckFunctions(globals, fs, i, done).value[k].body)
    decreases |fs| - i
  {
    if i < |fs| {
      CheckedFunctionGenerable(globals, fs[i]);
      var f := CheckFunction(globals, fs[i]).value;
      CheckedFunctionsGenerable(globals, fs, i + 1, done + [f]);
    }
  }

  /** Every program the analyzer accepts is generable. */
  lemma AnalyzedProgramsGenerable(p: Program)
    requires Analyze(p).Success?
    ensures ProgramGenerable(Analyze(p).value)
  {
    RegistrationTyped(p.functions, 0, map[]);
    var g := RegisterFunctions(p.functions, 0, map[]).value;
    assert [g][0] == g;
    CheckedFunctionsGenerable(g, p.functions, 0, []);
  }

  /** The front end and the back end fit together: code generation never throws on a
      program the semantic analyzer has accepted and annotated. */
  lemma AnalyzedProgramsGenerate(p: Program)
    requires Analyze(p).Success?
    ensures Generate(Analyze(p).value).Success?
  {
    AnalyzedProgramsGenerable(p);
    ProgramGenerates(Analyze(p).value);
  }

  // ---------------------------------------------------------------------------------------
  // The loop of the finding, from its tokens

  /** The tokens of `for (var i: int; ; ) { }` parse as the loop of
      `CodeGenProperties.UninitializedLoopVariable`: a declaration without initializer in the
      init slot (MACSLang.Parser/Parser.cs:287-292, 191-207), an empty condition and
      increment, and an empty body. */
  lemma UninitializedLoopVariableParses(ts: seq<Token>)
    requires |ts| == 12 && ts[11].kind == EOF
    requires ts[0].kind == For && ts[1].kind == OpenParen && ts[2].kind == Var && ts[3].kind == Identifier
    requires ts[4].kind == Colon && ts[5].kind == IntKeyword && ts[6].kind == Semicolon && ts[7].kind == Semicolon
    requires ts[8].kind == CloseParen && ts[9].kind == OpenBrace && ts[10].kind == CloseBrace
    ensures ParserSpec.Terminated(ts)
    ensures var decl := VarDecl(ts[3], TypeNodeData(ts[5], IntKeyword), None, ts[2]);
      ParserSpec.ParseStatement(ts, 0) == Success(ParserSpec.Parsed(ForStmt(Some(decl), None, None, Block([], ts[9]), ts[0]), 11))
  {
    ParserProperties.DeclarationWithoutInitializer(ts, 2);
    var decl := VarDecl(ts[3], TypeNodeData(ts[5], IntKeyword), None, ts[2]);
    ParserProperties.ForInitDeclaration(ts, 2, decl, 7);
    assert ParserSpec.ParseForCondition(ts, 7) == Success(ParserSpec.Parsed(None, 7));
    assert ParserSpec.ParseForIncrement(ts, 8) == Success(ParserSpec.Parsed(None, 8));
    ParserProperties.EmptyBlock(ts, 9);
  }
}
