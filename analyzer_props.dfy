/** Properties of the semantic analysis of MACSLang.SemanticAnalyzer/SemanticAnalyzer.cs, stated
    on the functions of `AnalyzerSpec`, which the `Analyzer` class is proved to compute. */
module AnalyzerProperties {
  import opened Wrappers
  import opened Tokens
  import opened Ast
  import opened Symbols
  import opened SemanticErrors
  import opened SymbolTables
  import opened Typing
  import opened AnalyzerSpec

  // ---------------------------------------------------------------------------------------
  // Every recorded type is one of the five types

  /** A symbol whose recorded types are all type keywords, as every symbol the analyzer
      defines is: its types come from type annotations. */
  ghost predicate TypedSymbol(s: Symbol) {
    match s
    case VariableSymbol(_, t) => IsTypeKeyword(t)
    case FunctionSymbol(_, ps, r) => IsTypeKeyword(r) && forall k | 0 <= k < |ps| :: IsTypeKeyword(ps[k])
  }

  ghost predicate TypedEnv(env: seq<Scope>) {
    forall k, n | 0 <= k < |env| && n in env[k] :: TypedSymbol(env[k][n])
  }

  /** Every `ExpressionType` of an annotated tree is a type keyword. */
  ghost predicate Annotated(e: Expr) {
    IsTypeKeyword(e.ty) &&
    match e
    case Binary(l, _, r, _) => Annotated(l) && Annotated(r)
    case Unary(_, x, _) => Annotated(x)
    case Literal(_, _, _) => true
    case Ident(_, _) => true
    case Call(_, args, _) => forall k | 0 <= k < |args| :: Annotated(args[k])
  }

  lemma LookupTyped(env: seq<Scope>, name: string)
    requires TypedEnv(env)
    ensures Lookup(env, name).Some? ==> TypedSymbol(Lookup(env, name).value)
  {
    if Lookup(env, name).Some? {
      LookupFound(env, name);
    }
  }

  /** In an environment of typed symbols, typing an expression records a type keyword at every
      node of the tree. */
  lemma {:induction false} TypeOfAnnotates(env: seq<Scope>, e: Expr)
    requires TypedEnv(env)
    ensures TypeOf(env, e).Success? ==> Annotated(TypeOf(env, e).value)
    decreases e, 1
  {
    match e
    case Binary(l, _, r, _) =>
      TypeOfAnnotates(env, l);
      TypeOfAnnotates(env, r);
    case Unary(_, x, _) =>
      TypeOfAnnotates(env, x);
    case Literal(_, _, _) =>
    case Ident(id, _) =>
      LookupTyped(env, id.lexeme);
    case Call(id, args, _) =>
      LookupTyped(env, id.lexeme);
      var found := Lookup(env, id.lexeme);
      if found.Some? && found.value.FunctionSymbol? && |args| == |found.value.parameterTypes| {
        TypeArgumentsAnnotate(env, found.value, args, 0, []);
        var r := TypeArguments(env, found.value, args, 0, []);
        if r.Success? {
          assert TypedSymbol(found.value);
          assert IsTypeKeyword(found.value.returnType);
          assert forall k | 0 <= k < |r.value| :: Annotated(r.value[k]);
          assert Annotated(Call(id, r.value, found.value.returnType));
          assert TypeOf(env, e) == Success(Call(id, r.value, found.value.returnType));
        }
      }
  }

  lemma {:induction false} TypeArgumentsAnnotate(env: seq<Scope>, callee: Symbol, args: seq<Expr>, i: nat, done: seq<Expr>)
    requires TypedEnv(env)
    requires callee.FunctionSymbol? && |args| == |callee.parameterTypes| && i <= |args|
    requires forall k | 0 <= k < |done| :: Annotated(done[k])
    ensures var r := TypeArguments(env, callee, args, i, done);
      r.Success? ==> forall k | 0 <= k < |r.value| :: Annotated(r.value[k])
    decreases args, |args| - i
  {
    if i < |args| {
      TypeOfAnnotates(env, args[i]);
      var a := TypeOf(env, args[i]);
      if a.Success? && IsAssignable(callee.parameterTypes[i], a.value.ty) {
        var done' := done + [a.value];
        assert forall k | 0 <= k < |done'| :: Annotated(done'[k]) by {
          assert forall k | 0 <= k < |done| :: done'[k] == done[k];
        }
        TypeArgumentsAnnotate(env, callee, args, i + 1, done');
        var r := TypeArguments(env, callee, args, i + 1, done');
        assert TypeArguments(env, callee, args, i, done) == r;
        assert r.Success? ==> forall k | 0 <= k < |r.value| :: Annotated(r.value[k]);
      }
    } else {
      assert TypeArguments(env, callee, args, i, done) == Success(done);
    }
  }

  // ---------------------------------------------------------------------------------------
  // Function calls

  /** Argument `j` types and is assignable to parameter `j`. */
  ghost predicate ArgumentFits(env: seq<Scope>, callee: Symbol, args: seq<Expr>, j: nat)
    requires callee.FunctionSymbol? && |args| == |callee.parameterTypes| && j < |args|
  {
    TypeOf(env, args[j]).Success? && IsAssignable(callee.parameterTypes[j], TypeOf(env, args[j]).value.ty)
  }

  /** The arguments from position `i` on are typed left to right: the loop succeeds exactly
      when every one of them types and is assignable to its parameter. */
  lemma {:induction false} TypeArgumentsSucceed(env: seq<Scope>, callee: Symbol, args: seq<Expr>, i: nat, done: seq<Expr>)
    requires callee.FunctionSymbol? && |args| == |callee.parameterTypes| && i <= |args|
    ensures TypeArguments(env, callee, args, i, done).Success? <==> forall k | i <= k < |args| :: ArgumentFits(env, callee, args, k)
    decreases |args| - i
  {
    if i < |args| {
      var a := TypeOf(env, args[i]);
      if a.Success? && IsAssignable(callee.parameterTypes[i], a.value.ty) {
        assert ArgumentFits(env, callee, args, i);
        FittingArgumentStep(env, callee, args, i, done);
        TypeArgumentsSucceed(env, callee, args, i + 1, done + [a.value]);
      } else {
        assert !ArgumentFits(env, callee, args, i);
        MisfitArgumentFails(env, callee, args, i, done);
      }
    }
  }

  /** An argument that fits its parameter is appended and the loop goes on with the next. */
  lemma FittingArgumentStep(env: seq<Scope>, callee: Symbol, args: seq<Expr>, i: nat, done: seq<Expr>)
    requires callee.FunctionSymbol? && |args| == |callee.parameterTypes| && i < |args|
    requires ArgumentFits(env, callee, args, i)
    ensures TypeArguments(env, callee, args, i, done) ==
      TypeArguments(env, callee, args, i + 1, done + [TypeOf(env, args[i]).value])
  {
  }

  /** An argument that does not fit its parameter makes the loop fail. */
  lemma MisfitArgumentFails(env: seq<Scope>, callee: Symbol, args: seq<Expr>, i: nat, done: seq<Expr>)
    requires callee.FunctionSymbol? && |args| == |callee.parameterTypes| && i < |args|
    requires !ArgumentFits(env, callee, args, i)
    ensures TypeArguments(env, callee, args, i, done).Failure?
  {
  }

  /** One turn of the loop that succeeds: the argument types and the loop goes on with its
      tree appended. */
  lemma TypeArgumentsStep(env: seq<Scope>, callee: Symbol, args: seq<Expr>, i: nat, done: seq<Expr>)
    requires callee.FunctionSymbol? && |args| == |callee.parameterTypes| && i < |args|
    requires TypeArguments(env, callee, args, i, done).Success?
    ensures TypeOf(env, args[i]).Success?
    ensures TypeArguments(env, callee, args, i, done) ==
      TypeArguments(env, callee, args, i + 1, done + [TypeOf(env, args[i]).value])
  {
  }

  /** On success the loop returns one tree per argument and keeps those already done. */
  lemma {:induction false} TypeArgumentsKeepDone(env: seq<Scope>, callee: Symbol, args: seq<Expr>, i: nat, done: seq<Expr>)
    requires callee.FunctionSymbol? && |args| == |callee.parameterTypes| && i <= |args| && |done| == i
    requires TypeArguments(env, callee, args, i, done).Success?
    ensures var ts := TypeArguments(env, callee, args, i, done).value;
      |ts| == |args| && forall k | 0 <= k < i :: ts[k] == done[k]
    decreases |args| - i
  {
    if i < |args| {
      TypeArgumentsStep(env, callee, args, i, done);
      var done' := done + [TypeOf(env, args[i]).value];
      TypeArgumentsKeepDone(env, callee, args, i + 1, done');
      assert forall k | 0 <= k < i :: done'[k] == done[k];
    }
  }

  /** On success the loop has appended the annotated argument trees in order: the tree at
      position `k` is argument `k` typed. */
  lemma {:induction false} TypeArgumentsInOrder(env: seq<Scope>, callee: Symbol, args: seq<Expr>, i: nat, done: seq<Expr>)
    requires callee.FunctionSymbol? && |args| == |callee.parameterTypes| && i <= |args| && |done| == i
    requires TypeArguments(env, callee, args, i, done).Success?
    ensures var ts := TypeArguments(env, callee, args, i, done).value;
      |ts| == |args| && forall k | i <= k < |args| :: TypeOf(env, args[k]) == Success(ts[k])
    decreases |args| - i
  {
    TypeArgumentsKeepDone(env, callee, args, i, done);
    if i < |args| {
      TypeArgumentsStep(env, callee, args, i, done);
      var a := TypeOf(env, args[i]).value;
      var done' := done + [a];
      TypeArgumentsKeepDone(env, callee, args, i + 1, done');
      TypeArgumentsInOrder(env, callee, args, i + 1, done');
      var ts := TypeArguments(env, callee, args, i + 1, done').value;
      assert ts[i] == done'[i] == a;
      forall k | i <= k < |args|
        ensures TypeOf(env, args[k]) == Success(ts[k])
      {
        if k == i {
          assert TypeOf(env, args[i]) == Success(a);
        }
      }
    }
  }

  lemma MismatchRaisesHere(env: seq<Scope>, callee: Symbol, args: seq<Expr>, k: nat, done: seq<Expr>)
    requires callee.FunctionSymbol? && |args| == |callee.parameterTypes| && k < |args|
    requires TypeOf(env, args[k]).Success? && !IsAssignable(callee.parameterTypes[k], TypeOf(env, args[k]).value.ty)
    ensures TypeArguments(env, callee, args, k, done) ==
      Throw(ArgumentMismatch(k + 1, callee.name, callee.parameterTypes[k], TypeOf(env, args[k]).value.ty), args[k].Tok())
  {
  }

  /** The first argument, from the left, that is not assignable to its parameter raises the
      error, with its position counted from 1, at that argument's token. */
  lemma {:induction false} FirstMismatchRaises(env: seq<Scope>, callee: Symbol, args: seq<Expr>, i: nat, done: seq<Expr>, k: nat)
    requires callee.FunctionSymbol? && |args| == |callee.parameterTypes| && i <= k < |args|
    requires forall j | i <= j < k :: ArgumentFits(env, callee, args, j)
    requires TypeOf(env, args[k]).Success? && !IsAssignable(callee.parameterTypes[k], TypeOf(env, args[k]).value.ty)
    ensures TypeArguments(env, callee, args, i, done) ==
      Throw(ArgumentMismatch(k + 1, callee.name, callee.parameterTypes[k], TypeOf(env, args[k]).value.ty), args[k].Tok())
    decreases k - i
  {
    if i == k {
      MismatchRaisesHere(env, callee, args, k, done);
    } else {
      assert ArgumentFits(env, callee, args, i);
      var done' := done + [TypeOf(env, args[i]).value];
      FittingArgumentStep(env, callee, args, i, done);
      FirstMismatchRaises(env, callee, args, i + 1, done', k);
    }
  }

  /** A call raises when the name does not resolve, when it names a variable, and when the
      argument count differs from the parameter count. */
  lemma CallErrors(env: seq<Scope>, e: Expr)
    requires e.Call?
    ensures var r := TypeOf(env, e);
      var name := e.identifier.lexeme;
      var found := Lookup(env, name);
      && (found.None? ==> r == Throw(UndeclaredFunction(name), e.identifier))
      && (found.Some? && found.value.VariableSymbol? ==> r == Throw(NotAFunction(name), e.identifier))
      && (found.Some? && found.value.FunctionSymbol? && |e.arguments| != |found.value.parameterTypes| ==>
            r == Throw(ArgumentCount(found.value.name, |found.value.parameterTypes|, |e.arguments|), e.identifier))
  {
  }

  /** An accepted call names a function, has one argument per parameter, each assignable to
      its parameter and annotated in its own position, and has the function's return type. */
  lemma CallAccepted(env: seq<Scope>, e: Expr)
    requires e.Call? && TypeOf(env, e).Success?
    ensures var r := TypeOf(env, e).value;
      var found := Lookup(env, e.identifier.lexeme);
      && found.Some? && found.value.FunctionSymbol?
      && r.ty == found.value.returnType
      && |r.arguments| == |e.arguments| == |found.value.parameterTypes|
      && forall k | 0 <= k < |e.arguments| ::
           TypeOf(env, e.arguments[k]) == Success(r.arguments[k])
           && IsAssignable(found.value.parameterTypes[k], r.arguments[k].ty)
  {
    var callee := Lookup(env, e.identifier.lexeme).value;
    var args := e.arguments;
    var ts := TypeArguments(env, callee, args, 0, []);
    assert ts.Success? && TypeOf(env, e).value == Call(e.identifier, ts.value, callee.returnType);
    TypeArgumentsSucceed(env, callee, args, 0, []);
    TypeArgumentsInOrder(env, callee, args, 0, []);
    forall k | 0 <= k < |args|
      ensures IsAssignable(callee.parameterTypes[k], ts.value[k].ty)
    {
      assert ArgumentFits(env, callee, args, k);
    }
  }

  // ---------------------------------------------------------------------------------------
  // Declarations and scopes

  /** A declaration of a name the current scope already binds raises; any binding in an
      enclosing scope is irrelevant, so shadowing it is accepted. Without an initializer the
      declaration just binds the variable in the current scope. */
  lemma DeclarationRules(outer: seq<Scope>, top: Scope, fn: Option<Symbol>, s: Stmt)
    requires s.VarDecl?
    ensures var name := s.identifier.lexeme;
      && (name in top ==> CheckStmt(outer, top, fn, s) == Throw(VariableAlreadyDeclared(name), s.identifier))
      && (name !in top && s.initialValue.None? ==>
            CheckStmt(outer, top, fn, s) == Success(Checked(s, top[name := VariableSymbol(name, s.varType.typeToken)])))
  {
  }

  /** The variable is defined before its initializer is typed, so `var x: int = x;` is accepted and
      the initializer names the new variable, whatever an enclosing scope binds to `x`. */
  lemma InitializerSeesItsVariable(outer: seq<Scope>, top: Scope, fn: Option<Symbol>, s: Stmt, t: TokenType)
    requires s.VarDecl? && s.identifier.lexeme !in top
    requires s.initialValue == Some(Ident(s.identifier, t))
    ensures var name := s.identifier.lexeme;
      var v := VariableSymbol(name, s.varType.typeToken);
      CheckStmt(outer, top, fn, s) ==
        Success(Checked(s.(initialValue := Some(Ident(s.identifier, s.varType.typeToken))), top[name := v]))
  {
    var name := s.identifier.lexeme;
    LookupLayers(outer, top[name := VariableSymbol(name, s.varType.typeToken)], name);
  }

  /** An initializer that types is accepted exactly when it is assignable to the declared
      type. */
  lemma InitializerMustBeAssignable(outer: seq<Scope>, top: Scope, fn: Option<Symbol>, s: Stmt)
    requires s.VarDecl? && s.identifier.lexeme !in top && s.initialValue.Some?
    ensures var name := s.identifier.lexeme;
      var top' := top[name := VariableSymbol(name, s.varType.typeToken)];
      var x := TypeOf(outer + [top'], s.initialValue.value);
      x.Success? ==>
        (CheckStmt(outer, top, fn, s).Success? <==> IsAssignable(s.varType.typeToken, x.value.ty))
  {
  }

  /** Only a declaration binds a name in the current scope; every other statement, `if`,
      `while` and `for` included, leaves it as it was, since the scopes they open are popped. */
  lemma OnlyDeclarationsBind(outer: seq<Scope>, top: Scope, fn: Option<Symbol>, s: Stmt)
    requires CheckStmt(outer, top, fn, s).Success?
    ensures !s.VarDecl? ==> CheckStmt(outer, top, fn, s).value.scope == top
    ensures s.VarDecl? ==>
      CheckStmt(outer, top, fn, s).value.scope == top[s.identifier.lexeme := VariableSymbol(s.identifier.lexeme, s.varType.typeToken)]
  {
  }

  /** The conditions of `if` and `while` must be exactly bool; an int condition is refused. */
  lemma ConditionsMustBeBool(outer: seq<Scope>, top: Scope, fn: Option<Symbol>, s: Stmt)
    requires s.IfStmt? || s.WhileStmt?
    ensures var c := TypeOf(outer + [top], s.condition);
      c.Success? && c.value.ty != BoolKeyword ==>
        CheckStmt(outer, top, fn, s) ==
          Throw(if s.IfStmt? then IfCondition(c.value.ty) else WhileCondition(c.value.ty), s.condition.Tok())
  {
  }

  /** A `for` condition, when present, must be exactly bool. */
  lemma ForConditionMustBeBool(env: seq<Scope>, x: Expr)
    ensures var c := TypeOf(env, x);
      && (c.Success? && c.value.ty != BoolKeyword ==> CheckForCondition(env, Some(x)) == Throw(ForCondition(c.value.ty), x.Tok()))
      && (c.Success? && c.value.ty == BoolKeyword ==> CheckForCondition(env, Some(x)) == Success(Some(c.value)))
  {
  }

  /** `return` outside a function raises before its value is looked at. */
  lemma ReturnOutsideFunctionRaises(outer: seq<Scope>, top: Scope, s: Stmt)
    requires s.ReturnStmt?
    ensures CheckStmt(outer, top, None, s) == Throw(ReturnOutsideFunction, s.tok)
  {
  }

  /** An assignment target must be a visible variable: an undeclared name or a function raises
      at the name. The value is then typed and must be assignable to the variable's type, or the
      statement raises at the value; an accepted assignment keeps the scope and records the typed
      value. */
  lemma AssignmentRules(outer: seq<Scope>, top: Scope, fn: Option<Symbol>, s: Stmt)
    requires s.AssignStmt?
    ensures var env := outer + [top];
      var name := s.identifier.lexeme;
      var found := Lookup(env, name);
      var r := CheckStmt(outer, top, fn, s);
      && (found.None? ==> r == Throw(UndeclaredAssignTarget(name), s.identifier))
      && (found.Some? && found.value.FunctionSymbol? ==> r == Throw(AssignTargetNotVariable(name), s.identifier))
      && (found.Some? && found.value.VariableSymbol? ==>
            var t := found.value.varType;
            var x := TypeOf(env, s.value);
            && (x.Failure? ==> r == Failure(x.error))
            && (x.Success? && !IsAssignable(t, x.value.ty) ==> r == Throw(AssignmentMismatch(name, t, x.value.ty), s.value.Tok()))
            && (x.Success? && IsAssignable(t, x.value.ty) ==> r == Success(Checked(s.(value := x.value), top))))
    ensures var env := outer + [top];
      var found := Lookup(env, s.identifier.lexeme);
      CheckStmt(outer, top, fn, s).Success? <==>
        && found.Some? && found.value.VariableSymbol?
        && TypeOf(env, s.value).Success?
        && IsAssignable(found.value.varType, TypeOf(env, s.value).value.ty)
  {
  }

  /** An input target must be a visible variable, an undeclared name or a function raising at
      the target; an accepted input records that variable's declared type as the resolved target
      type and changes nothing else. A variable of the current scope is found there, whatever an
      enclosing scope binds to the same name. */
  lemma InputResolvesTarget(outer: seq<Scope>, top: Scope, fn: Option<Symbol>, s: Stmt)
    requires s.InputStmt?
    ensures var name := s.target.lexeme;
      var found := Lookup(outer + [top], name);
      var r := CheckStmt(outer, top, fn, s);
      && (found.None? ==> r == Throw(UndeclaredInputTarget(name), s.target))
      && (found.Some? && found.value.FunctionSymbol? ==> r == Throw(InputTargetNotVariable(name), s.target))
      && (found.Some? && found.value.VariableSymbol? ==> r == Success(Checked(s.(resolvedType := found.value.varType), top)))
      && (r.Success? <==> found.Some? && found.value.VariableSymbol?)
    ensures var name := s.target.lexeme;
      name in top && top[name].VariableSymbol? ==>
        CheckStmt(outer, top, fn, s) == Success(Checked(s.(resolvedType := top[name].varType), top))
  {
    LookupLayers(outer, top, s.target.lexeme);
  }

  /** Inside a function the returned value is typed and must be assignable to the function's
      return type, or the statement raises at the value naming the function and both types; an
      accepted return keeps the scope and records the typed value. */
  lemma ReturnMustBeAssignable(outer: seq<Scope>, top: Scope, f: Symbol, s: Stmt)
    requires s.ReturnStmt? && f.FunctionSymbol?
    ensures var x := TypeOf(outer + [top], s.value);
      var r := CheckStmt(outer, top, Some(f), s);
      && (x.Failure? ==> r == Failure(x.error))
      && (x.Success? && !IsAssignable(f.returnType, x.value.ty) ==>
            r == Throw(ReturnMismatch(f.name, f.returnType, x.value.ty), s.value.Tok()))
      && (x.Success? && IsAssignable(f.returnType, x.value.ty) ==> r == Success(Checked(s.(value := x.value), top)))
      && (r.Success? <==> x.Success? && IsAssignable(f.returnType, x.value.ty))
  {
  }

  /** The body of a `for` shares the scope of its initializer: a body that redeclares the
      initializer's variable raises. */
  lemma ForBodySharesLoopScope(env: seq<Scope>, top: Scope, fn: Option<Symbol>, s: Stmt)
    requires s.ForStmt? && s.init.Some? && s.init.value.VarDecl? && s.init.value.initialValue.None?
    requires var d := s.init.value;
      CheckForCondition(env + [map[d.identifier.lexeme := VariableSymbol(d.identifier.lexeme, d.varType.typeToken)]], s.forCondition).Success?
    requires |s.body.statements| > 0 && s.body.statements[0].VarDecl?
    requires s.body.statements[0].identifier.lexeme == s.init.value.identifier.lexeme
    ensures CheckFor(env, top, fn, s) ==
      Throw(VariableAlreadyDeclared(s.init.value.identifier.lexeme), s.body.statements[0].identifier)
  {
    var d := s.init.value;
    var scope := map[d.identifier.lexeme := VariableSymbol(d.identifier.lexeme, d.varType.typeToken)];
    assert map[][d.identifier.lexeme := VariableSymbol(d.identifier.lexeme, d.varType.typeToken)] == scope;
    assert CheckStmt(env, map[], fn, d) == Success(Checked(d, scope));
    assert CheckSlot(env, map[], fn, s.init) == Success(Checked(s.init, scope));
    var b0 := s.body.statements[0];
    var e: Checks<Stmt> := Throw(VariableAlreadyDeclared(d.identifier.lexeme), b0.identifier);
    assert b0.identifier.lexeme in scope;
    assert CheckStmt(env, scope, fn, b0) == e;
    assert CheckStatements(env, scope, fn, s.body.statements, 0, []).error == e.error;
    assert CheckBlock(env, scope, fn, s.body).error == e.error;
  }

  /** The body of a `while` opens a scope of its own: declaring there a name the current scope
      already binds shadows it. */
  lemma WhileBodyMayShadow(outer: seq<Scope>, top: Scope, fn: Option<Symbol>, s: Stmt, d: Stmt)
    requires s.WhileStmt? && TypeOf(outer + [top], s.condition).Success?
    requires TypeOf(outer + [top], s.condition).value.ty == BoolKeyword
    requires d.VarDecl? && d.initialValue.None? && s.body.statements == [d]
    ensures CheckStmt(outer, top, fn, s).Success?
  {
    var scope := map[d.identifier.lexeme := VariableSymbol(d.identifier.lexeme, d.varType.typeToken)];
    assert CheckStmt(outer + [top], map[], fn, d) == Success(Checked(d, scope));
    assert [] + [d] == [d];
    assert CheckStatements(outer + [top], scope, fn, [d], 1, [d]) == Success(Checked([d], scope));
    assert CheckStatements(outer + [top], map[], fn, [d], 0, []) == Success(Checked([d], scope));
    assert CheckBlock(outer + [top], map[], fn, s.body).Success?;
    assert CheckScopedBlock(outer + [top], fn, s.body).Success?;
    assert CheckWhile(outer + [top], top, fn, s).Success?;
  }

  // ---------------------------------------------------------------------------------------
  // The two phases of `Visit(ProgramNode)`

  /** No two declarations from position `i` on share a name, and none is bound in `scope`. */
  ghost predicate FreshNames(fs: seq<Function>, i: nat, scope: Scope) {
    && (forall j, k | i <= j < k < |fs| :: fs[j].identifier.lexeme != fs[k].identifier.lexeme)
    && (forall k | i <= k < |fs| :: fs[k].identifier.lexeme !in scope)
  }

  /** Names are fresh from position `i` on exactly when the name at `i` is fresh and the
      later ones are fresh once it is bound. */
  lemma FreshNamesStep(fs: seq<Function>, i: nat, scope: Scope, v: Symbol)
    requires i < |fs|
    ensures FreshNames(fs, i, scope) <==>
      fs[i].identifier.lexeme !in scope && FreshNames(fs, i + 1, scope[fs[i].identifier.lexeme := v])
  {
    var n := fs[i].identifier.lexeme;
    if fs[i].identifier.lexeme !in scope && FreshNames(fs, i + 1, scope[n := v]) {
      forall j, k | i <= j < k < |fs|
        ensures fs[j].identifier.lexeme != fs[k].identifier.lexeme
      {
        if j == i {
          assert fs[k].identifier.lexeme !in scope[n := v];
        }
      }
    }
  }

  /** The first phase succeeds exactly when the names are fresh and distinct; otherwise it
      raises that a symbol is already defined, at no token. */
  lemma {:induction false} RegistrationSucceeds(fs: seq<Function>, i: nat, globals: Scope)
    requires i <= |fs|
    ensures var r := RegisterFunctions(fs, i, globals);
      && (r.Success? <==> FreshNames(fs, i, globals))
      && (r.Failure? ==> r.error.reason.SymbolAlreadyDefined? && r.error.errorToken.None?)
    decreases |fs| - i
  {
    if i < |fs| {
      var d := DefineIn(globals, SignatureOf(fs[i]));
      FreshNamesStep(fs, i, globals, SignatureOf(fs[i]));
      if d.Success? {
        RegistrationSucceeds(fs, i + 1, d.value);
      }
    }
  }

  /** On success the first phase keeps every binding it started from. */
  lemma {:induction false} RegistrationKeeps(fs: seq<Function>, i: nat, globals: Scope)
    requires i <= |fs| && RegisterFunctions(fs, i, globals).Success?
    ensures var g := RegisterFunctions(fs, i, globals).value;
      forall n | n in globals :: n in g && g[n] == globals[n]
    decreases |fs| - i
  {
    if i < |fs| {
      var g := globals[fs[i].identifier.lexeme := SignatureOf(fs[i])];
      assert DefineIn(globals, SignatureOf(fs[i])) == Success(g);
      assert RegisterFunctions(fs, i, globals) == RegisterFunctions(fs, i + 1, g);
      RegistrationKeeps(fs, i + 1, g);
    }
  }

  /** On success the first phase binds each declared name to its declaration's signature. */
  lemma {:induction false} RegistrationBinds(fs: seq<Function>, i: nat, globals: Scope)
    requires i <= |fs| && RegisterFunctions(fs, i, globals).Success?
    ensures var g := RegisterFunctions(fs, i, globals).value;
      forall k | i <= k < |fs| :: fs[k].identifier.lexeme in g && g[fs[k].identifier.lexeme] == SignatureOf(fs[k])
    decreases |fs| - i
  {
    if i < |fs| {
      var g := globals[fs[i].identifier.lexeme := SignatureOf(fs[i])];
      assert DefineIn(globals, SignatureOf(fs[i])) == Success(g);
      assert RegisterFunctions(fs, i, globals) == RegisterFunctions(fs, i + 1, g);
      RegistrationKeeps(fs, i + 1, g);
      RegistrationBinds(fs, i + 1, g);
      var r := RegisterFunctions(fs, i + 1, g).value;
      forall k | i <= k < |fs|
        ensures fs[k].identifier.lexeme in r && r[fs[k].identifier.lexeme] == SignatureOf(fs[k])
      {
        if k == i {
          assert fs[i].identifier.lexeme in g;
        }
      }
    }
  }

  /** On success the first phase adds one binding per declaration and no other. */
  lemma {:induction false} RegistrationSize(fs: seq<Function>, i: nat, globals: Scope)
    requires i <= |fs| && RegisterFunctions(fs, i, globals).Success?
    ensures |RegisterFunctions(fs, i, globals).value| == |globals| + (|fs| - i)
    decreases |fs| - i
  {
    if i < |fs| {
      var g := globals[fs[i].identifier.lexeme := SignatureOf(fs[i])];
      assert DefineIn(globals, SignatureOf(fs[i])) == Success(g);
      assert RegisterFunctions(fs, i, globals) == RegisterFunctions(fs, i + 1, g);
      RegistrationSize(fs, i + 1, g);
    }
  }

  /** A signature's types are type keywords, as they come from type annotations. */
  lemma SignatureTyped(f: Function)
    ensures TypedSymbol(SignatureOf(f))
  {
    var sig := SignatureOf(f);
    assert forall j | 0 <= j < |sig.parameterTypes| :: sig.parameterTypes[j] == f.parameters[j].paramType.typeToken;
  }

  /** From a scope of typed symbols the first phase builds a scope of typed symbols. */
  lemma {:induction false} RegistrationTyped(fs: seq<Function>, i: nat, globals: Scope)
    requires i <= |fs| && forall n | n in globals :: TypedSymbol(globals[n])
    ensures RegisterFunctions(fs, i, globals).Success? ==>
      TypedEnv([RegisterFunctions(fs, i, globals).value])
    decreases |fs| - i
  {
    if i < |fs| {
      var d := DefineIn(globals, SignatureOf(fs[i]));
      if d.Success? {
        SignatureTyped(fs[i]);
        RegistrationTyped(fs, i + 1, d.value);
      }
    } else {
      assert forall k | 0 <= k < 1 :: [globals][k] == globals;
    }
  }

  /** A program with two functions of one name is refused in the first phase, whatever the
      bodies hold; a program whose names are distinct always gets past it. */
  lemma DuplicateFunctionsRaiseFirst(p: Program)
    ensures RegisterFunctions(p.functions, 0, map[]).Failure? <==> !FreshNames(p.functions, 0, map[])
    ensures !FreshNames(p.functions, 0, map[]) ==>
      Analyze(p) == Failure(RegisterFunctions(p.functions, 0, map[]).error)
      && Analyze(p).error.reason.SymbolAlreadyDefined?
  {
    RegistrationSucceeds(p.functions, 0, map[]);
  }

  /** After the first phase every declared function, earlier or later, resolves to its
      signature from the global scope, so a body may call a function declared after it. */
  lemma SignaturesAreGlobal(p: Program, globals: Scope)
    requires RegisterFunctions(p.functions, 0, map[]) == Success(globals)
    ensures forall k | 0 <= k < |p.functions| ::
      Lookup([globals], p.functions[k].identifier.lexeme) == Some(SignatureOf(p.functions[k]))
  {
    RegistrationBinds(p.functions, 0, map[]);
    forall k | 0 <= k < |p.functions|
      ensures Lookup([globals], p.functions[k].identifier.lexeme) == Some(SignatureOf(p.functions[k]))
    {
      LookupLayers([], globals, p.functions[k].identifier.lexeme);
    }
  }

  /** In the second phase `_currentFunction` is the function being checked, so no `return`
      of a program that gets past the first phase is outside a function. */
  lemma CurrentFunctionIsTheDeclaration(p: Program, globals: Scope, k: nat)
    requires RegisterFunctions(p.functions, 0, map[]) == Success(globals) && k < |p.functions|
    ensures AsFunction(Lookup([globals, map[]], p.functions[k].identifier.lexeme)) == Some(SignatureOf(p.functions[k]))
  {
    SignaturesAreGlobal(p, globals);
    LookupThroughEmptyScope([globals], p.functions[k].identifier.lexeme);
  }

  /** The second phase succeeds exactly when every body checks. */
  lemma {:induction false} BodiesSucceed(globals: Scope, fs: seq<Function>, i: nat, done: seq<Function>)
    requires i <= |fs|
    ensures CheckFunctions(globals, fs, i, done).Success? <==> forall k | i <= k < |fs| :: CheckFunction(globals, fs[k]).Success?
    decreases |fs| - i
  {
    if i < |fs| {
      var f := CheckFunction(globals, fs[i]);
      if f.Success? {
        BodiesSucceed(globals, fs, i + 1, done + [f.value]);
      }
    }
  }

  /** On success the second phase has checked the bodies in order, each function's result in
      its own position. */
  lemma {:induction false} BodiesInOrder(globals: Scope, fs: seq<Function>, i: nat, done: seq<Function>)
    requires i <= |fs| && |done| == i && CheckFunctions(globals, fs, i, done).Success?
    ensures var r := CheckFunctions(globals, fs, i, done).value;
      && |r| == |fs|
      && (forall k | 0 <= k < i :: r[k] == done[k])
      && (forall k | i <= k < |fs| :: CheckFunction(globals, fs[k]) == Success(r[k]))
    decreases |fs| - i
  {
    if i < |fs| {
      var f := CheckFunction(globals, fs[i]).value;
      var done' := done + [f];
      BodiesInOrder(globals, fs, i + 1, done');
      assert forall k | 0 <= k < i :: done'[k] == done[k];
      assert done'[i] == f;
    }
  }

  /** An analyzed program has the same functions, in order, with their names, parameters and
      return types unchanged; only the bodies gain annotations. */
  lemma AnalysisKeepsSignatures(p: Program)
    requires Analyze(p).Success?
    ensures var q := Analyze(p).value;
      && |q.functions| == |p.functions|
      && forall k | 0 <= k < |p.functions| ::
           q.functions[k] == p.functions[k].(body := q.functions[k].body)
  {
    var globals := RegisterFunctions(p.functions, 0, map[]).value;
    BodiesInOrder(globals, p.functions, 0, []);
    var fs := CheckFunctions(globals, p.functions, 0, []).value;
    assert Analyze(p).value == Program(fs);
    forall k | 0 <= k < |p.functions|
      ensures fs[k] == p.functions[k].(body := fs[k].body)
    {
      CheckedFunctionKeepsSignature(globals, p.functions[k]);
    }
  }

  /** Checking a function changes its body only. */
  lemma CheckedFunctionKeepsSignature(globals: Scope, f: Function)
    requires CheckFunction(globals, f).Success?
    ensures CheckFunction(globals, f).value == f.(body := CheckFunction(globals, f).value.body)
  {
  }
}
