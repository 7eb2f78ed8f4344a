/** Symbols of the symbol table (MACSLang.SemanticAnalyzer/Symbol.cs, VariableSymbol.cs,
    FunctionSymbol.cs). */
module Symbols {
  import opened Wrappers
  import opened Tokens

  /** A variable carries its declared type; a function its parameter types, in order, and its
      return type. */
  datatype Symbol =
    | VariableSymbol(name: string, varType: TokenType)
    | FunctionSymbol(name: string, parameterTypes: seq<TokenType>, returnType: TokenType)
  {
    /** `Symbol.Type`: the declared type of a variable, FUNC for a function. */
    function Type(): TokenType {
      match this
      case VariableSymbol(_, t) => t
      case FunctionSymbol(_, _, _) => Func
    }

    /** The overridden `ToString` of either kind of symbol. */
    function ToString(): string {
      match this
      case VariableSymbol(n, t) => "VarSymbol(Name='" + n + "', Type=" + KindName(t) + ")"
      case FunctionSymbol(n, ps, r) =>
        "FuncSymbol(Name='" + n + "', Params:[" + JoinKinds(ps) + "], Return=" + KindName(r) + ")"
    }
  }

  /** `new FunctionSymbol(name, parameterTypes, returnType)`; a null list becomes empty. */
  function NewFunctionSymbol(name: string, parameterTypes: Option<seq<TokenType>>, returnType: TokenType): (r: Symbol)
    ensures r.FunctionSymbol? && r.Type() == Func
    ensures r.name == name && r.returnType == returnType
    ensures parameterTypes.None? ==> r.parameterTypes == []
    ensures parameterTypes.Some? ==> r.parameterTypes == parameterTypes.value
  {
    FunctionSymbol(name, parameterTypes.GetOr([]), returnType)
  }

  /** `string.Join(", ", texts)`: the texts separated by a comma and a space. */
  function Join(ss: seq<string>): string {
    if ss == [] then ""
    else if |ss| == 1 then ss[0]
    else ss[0] + ", " + Join(ss[1..])
  }

  /** The enum names of a list of kinds, in order. */
  function KindNames(ks: seq<TokenType>): (r: seq<string>)
    ensures |r| == |ks| && forall k | 0 <= k < |ks| :: r[k] == KindName(ks[k])
  {
    if ks == [] then [] else [KindName(ks[0])] + KindNames(ks[1..])
  }

  /** `string.Join(", ", kinds)` over token kinds, as C# prints enum values. */
  function JoinKinds(ks: seq<TokenType>): string {
    Join(KindNames(ks))
  }

  /** Joining n >= 1 comma-free texts puts exactly n - 1 commas in the result, so no item goes
      missing and none is added. */
  lemma {:induction false} JoinSeparators(ss: seq<string>)
    requires ss != [] && forall k | 0 <= k < |ss| :: ',' !in ss[k]
    ensures multiset(Join(ss))[','] == |ss| - 1
    decreases |ss|
  {
    assert ',' !in multiset(ss[0]);
    if |ss| > 1 {
      JoinSeparators(ss[1..]);
      assert multiset(", ")[','] == 1 by {
        assert ", " == [','] + [' '];
      }
    }
  }

  /** Joining grows at the end as `string.Join` does: the last text follows the others after
      one ", ". */
  lemma {:induction false} JoinSnoc(ss: seq<string>, t: string)
    requires ss != []
    ensures Join(ss + [t]) == Join(ss) + ", " + t
    decreases |ss|
  {
    if |ss| > 1 {
      assert (ss + [t])[1..] == ss[1..] + [t];
      JoinSnoc(ss[1..], t);
    } else {
      assert (ss + [t])[1..] == [t];
    }
  }

  /** No enum name holds a comma. */
  lemma KindNameCommaFree(k: TokenType)
    ensures ',' !in KindName(k)
  {
    if k.Var? || k.Func? || k.IntKeyword? || k.FloatKeyword? || k.CharKeyword? || k.BoolKeyword? || k.StringKeyword? {
      TypeKeywordNamesCommaFree(k);
    } else if k.If? || k.Else? || k.While? || k.For? || k.Return? || k.Print? || k.Input? || k.True? || k.False? {
      StatementKeywordNamesCommaFree(k);
    } else if k.Assign? || k.Plus? || k.Minus? || k.Multiply? || k.Divide? || k.Modulo? {
      ArithmeticNamesCommaFree(k);
    } else if k.Equals? || k.NotEquals? || k.LessThan? || k.GreaterThan? || k.LessEqual? || k.GreaterEqual? {
      ComparisonNamesCommaFree(k);
    } else if k.And? || k.Or? || k.Not? || k.OpenParen? || k.CloseParen? {
      LogicNamesCommaFree(k);
    } else if k.OpenBrace? || k.CloseBrace? || k.Semicolon? || k.Colon? || k.Comma? {
      DelimiterNamesCommaFree(k);
    } else if k.Identifier? || k.IntLiteral? || k.FloatLiteral? {
      NumberNamesCommaFree(k);
    } else {
      TextNamesCommaFree(k);
    }
  }

  lemma TypeKeywordNamesCommaFree(k: TokenType)
    requires k.Var? || k.Func? || k.IntKeyword? || k.FloatKeyword? || k.CharKeyword? || k.BoolKeyword? || k.StringKeyword?
    ensures ',' !in KindName(k)
  {
  }

  lemma StatementKeywordNamesCommaFree(k: TokenType)
    requires k.If? || k.Else? || k.While? || k.For? || k.Return? || k.Print? || k.Input? || k.True? || k.False?
    ensures ',' !in KindName(k)
  {
  }

  lemma ArithmeticNamesCommaFree(k: TokenType)
    requires k.Assign? || k.Plus? || k.Minus? || k.Multiply? || k.Divide? || k.Modulo?
    ensures ',' !in KindName(k)
  {
  }

  lemma ComparisonNamesCommaFree(k: TokenType)
    requires k.Equals? || k.NotEquals? || k.LessThan? || k.GreaterThan? || k.LessEqual? || k.GreaterEqual?
    ensures ',' !in KindName(k)
  {
  }

  lemma LogicNamesCommaFree(k: TokenType)
    requires k.And? || k.Or? || k.Not? || k.OpenParen? || k.CloseParen?
    ensures ',' !in KindName(k)
  {
  }

  lemma DelimiterNamesCommaFree(k: TokenType)
    requires k.OpenBrace? || k.CloseBrace? || k.Semicolon? || k.Colon? || k.Comma?
    ensures ',' !in KindName(k)
  {
  }

  lemma NumberNamesCommaFree(k: TokenType)
    requires k.Identifier? || k.IntLiteral? || k.FloatLiteral?
    ensures ',' !in KindName(k)
  {
  }

  lemma TextNamesCommaFree(k: TokenType)
    requires k.CharLiteral? || k.StringLiteral? || k.EOF? || k.Unknown?
    ensures ',' !in KindName(k)
  {
  }

  /** The parameter list of a function symbol's `ToString` names each parameter type once, in
      order: one ", " between consecutive names, so n types give n - 1 commas. */
  lemma ParameterListCommas(ps: seq<TokenType>)
    ensures multiset(JoinKinds(ps))[','] == if ps == [] then 0 else |ps| - 1
  {
    if ps != [] {
      var names := KindNames(ps);
      forall k | 0 <= k < |names|
        ensures ',' !in names[k]
      {
        KindNameCommaFree(ps[k]);
      }
      JoinSeparators(names);
    }
  }

  /** Adding a parameter type adds its name at the end of the list. */
  lemma ParameterListSnoc(ps: seq<TokenType>, t: TokenType)
    requires ps != []
    ensures JoinKinds(ps + [t]) == JoinKinds(ps) + ", " + KindName(t)
  {
    assert KindNames(ps + [t]) == KindNames(ps) + [KindName(t)];
    JoinSnoc(KindNames(ps), KindName(t));
  }
}
