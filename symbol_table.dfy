/** The scope chain of the semantic analyzer (MACSLang.SemanticAnalyzer/SymbolTable.cs). A
    `SymbolTable` owns a mutable map of symbols and a fixed link to its parent. Its value view
    is the chain of maps from the root down to it; the spec functions of the analyzer work on
    that view. */
module SymbolTables {
  import opened Wrappers
  import opened Symbols
  import opened SemanticErrors

  /** The symbols of one scope. */
  type Scope = map<string, Symbol>

  /** Name lookup in a chain of scopes listed from the root to the innermost: the innermost
      scope that binds the name wins. */
  function Lookup(chain: seq<Scope>, name: string): Option<Symbol>
    decreases |chain|
  {
    if chain == [] then None
    else if name in chain[|chain| - 1] then Some(chain[|chain| - 1][name])
    else Lookup(chain[..|chain| - 1], name)
  }

  /** `Define` on the value view: a name already bound in this scope is an error. */
  function DefineIn(scope: Scope, symbol: Symbol): (r: Result<Scope, SemanticError>)
    ensures symbol.name in scope <==> r.Failure?
    ensures r.Failure? ==> r.error == SemanticError(SymbolAlreadyDefined(symbol.name), None)
    ensures r.Success? ==>
      && symbol.name in r.value && r.value[symbol.name] == symbol
      && r.value.Keys == scope.Keys + {symbol.name}
      && forall n | n in scope :: r.value[n] == scope[n]
  {
    if symbol.name in scope then Failure(SemanticError(SymbolAlreadyDefined(symbol.name), None))
    else Success(scope[symbol.name := symbol])
  }

  class SymbolTable {
    /** `Symbols`: the bindings of this scope. */
    var symbols: Scope
    /** `ParentScope`, null for the global scope. */
    const parent: SymbolTable?
    /** `ScopeLevel`: 0 for the global scope, one more per nesting. */
    const level: int
    /** This table and its ancestors. */
    ghost const Repr: set<SymbolTable>

    /** The parent chain is finite and acyclic and every level is its parent's plus one. */
    ghost predicate Valid()
      decreases Repr
    {
      && this in Repr
      && (parent == null ==> Repr == {this} && level == 0)
      && (parent != null ==>
            && parent in Repr && this !in parent.Repr && Repr == parent.Repr + {this}
            && parent.Valid() && level == parent.level + 1)
    }

    /** `new SymbolTable(parentScope)`: an empty scope below the given one. */
    constructor (parentScope: SymbolTable?)
      requires parentScope != null ==> parentScope.Valid()
      ensures Valid() && symbols == map[] && parent == parentScope
      ensures parentScope == null ==> level == 0 && Repr == {this}
      ensures parentScope != null ==> level == parentScope.level + 1 && Repr == parentScope.Repr + {this}
    {
      symbols := map[];
      parent := parentScope;
      level := (if parentScope == null then -1 else parentScope.level) + 1;
      Repr := if parentScope == null then {this} else parentScope.Repr + {this};
    }

    /** The scopes from the root down to this one. */
    ghost function Chain(): (c: seq<Scope>)
      reads Repr
      requires Valid()
      ensures |c| >= 1 && c[|c| - 1] == symbols
      ensures |c| == level + 1
      decreases Repr
    {
      if parent == null then [symbols] else parent.Chain() + [symbols]
    }

    /** The scopes strictly above this one. */
    ghost function Outer(): (c: seq<Scope>)
      reads Repr - {this}
      requires Valid()
      ensures Chain() == c + [symbols]
    {
      if parent == null then [] else parent.Chain()
    }

    /** `Resolve(name)`: the nearest binding up the parent chain, or null. */
    function Resolve(name: string): (r: Option<Symbol>)
      reads Repr
      requires Valid()
      ensures r == Lookup(Chain(), name)
      decreases Repr
    {
      if name in symbols then Some(symbols[name])
      else if parent != null then parent.Resolve(name)
      else None
    }

    /** `Define(symbol)`: binds the symbol's name in this scope, or fails, changing nothing,
        when the name is already bound here. */
    method Define(symbol: Symbol) returns (r: Outcome<SemanticError>)
      modifies this
      ensures symbol.name in old(symbols) ==>
        r == Fail(SemanticError(SymbolAlreadyDefined(symbol.name), None)) && symbols == old(symbols)
      ensures symbol.name !in old(symbols) ==> r == Pass && symbols == old(symbols)[symbol.name := symbol]
    {
      if symbol.name in symbols {
        return Fail(SemanticError(SymbolAlreadyDefined(symbol.name), None));
      }
      symbols := symbols[symbol.name := symbol];
      return Pass;
    }
  }

  // ---------------------------------------------------------------------------------------
  // Properties of lookup

  /** Lookup finds the binding of the innermost scope that has one: an inner definition
      shadows every outer one. */
  lemma {:induction false} LookupInnermost(chain: seq<Scope>, name: string, k: nat)
    requires k < |chain| && name in chain[k]
    requires forall j | k < j < |chain| :: name !in chain[j]
    ensures Lookup(chain, name) == Some(chain[k][name])
    decreases |chain|
  {
    if k < |chain| - 1 {
      var inner := chain[..|chain| - 1];
      assert forall j | k < j < |inner| :: inner[j] == chain[j];
      LookupInnermost(inner, name, k);
    }
  }

  /** Lookup fails exactly when no scope of the chain binds the name. */
  lemma {:induction false} LookupAbsent(chain: seq<Scope>, name: string)
    ensures Lookup(chain, name).None? <==> forall k | 0 <= k < |chain| :: name !in chain[k]
    decreases |chain|
  {
    if chain != [] {
      var inner := chain[..|chain| - 1];
      LookupAbsent(inner, name);
      assert forall k | 0 <= k < |inner| :: inner[k] == chain[k];
    }
  }

  /** Whatever lookup returns is bound to that name in some scope of the chain. */
  lemma {:induction false} LookupFound(chain: seq<Scope>, name: string)
    requires Lookup(chain, name).Some?
    ensures exists k | 0 <= k < |chain| :: name in chain[k] && Lookup(chain, name) == Some(chain[k][name])
    decreases |chain|
  {
    var last := |chain| - 1;
    if name !in chain[last] {
      var inner := chain[..last];
      LookupFound(inner, name);
      var k :| 0 <= k < |inner| && name in inner[k] && Lookup(inner, name) == Some(inner[k][name]);
      assert inner[k] == chain[k];
    }
  }

  /** Opening an empty scope changes no lookup. */
  lemma LookupThroughEmptyScope(chain: seq<Scope>, name: string)
    ensures Lookup(chain + [map[]], name) == Lookup(chain, name)
  {
    assert (chain + [map[]])[..|chain|] == chain;
  }

  /** A name bound in the innermost scope resolves to that binding; otherwise lookup falls
      back to the enclosing scopes. */
  lemma LookupLayers(chain: seq<Scope>, scope: Scope, name: string)
    ensures name in scope ==> Lookup(chain + [scope], name) == Some(scope[name])
    ensures name !in scope ==> Lookup(chain + [scope], name) == Lookup(chain, name)
  {
    assert (chain + [scope])[..|chain|] == chain;
  }
}
