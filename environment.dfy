/**
 * Scopes: a chain of name-to-value maps, each linked to its enclosing
 * scope, with define, get and assign.
 */
module Environments {
  import opened Wrappers
  import opened Tokens
  import opened Errors
  import opened Exprs

  type Scope = map<string, Value>

  /** The index of the nearest scope (innermost first) that binds name, or |scopes| when none does. */
  function Depth(scopes: seq<Scope>, name: string): (k: nat)
    ensures k <= |scopes|
    ensures forall j :: 0 <= j < k ==> name !in scopes[j]
    ensures k < |scopes| ==> name in scopes[k]
  {
    if scopes == [] || name in scopes[0] then 0 else 1 + Depth(scopes[1..], name)
  }

  predicate Bound(scopes: seq<Scope>, name: string)
  {
    exists i :: 0 <= i < |scopes| && name in scopes[i]
  }

  function UndefinedVariable(name: Token): RuntimeError
  {
    RuntimeError(name, "Undefined variable '" + name.lexeme + "'.")
  }

  function CannotAssign(name: Token): RuntimeError
  {
    RuntimeError(name, "Cannot assign to undefined variable '" + name.lexeme + "'.")
  }

  /** What `get` finds: the binding in the nearest scope that has the name, or an undefined-variable fault. */
  function Lookup(scopes: seq<Scope>, name: Token): (r: Result<Value, RuntimeError>)
    ensures r.Ok? <==> Bound(scopes, name.lexeme)
    ensures var k := Depth(scopes, name.lexeme);
      if k < |scopes| then r == Ok(scopes[k][name.lexeme]) else r == Err(UndefinedVariable(name))
  {
    if scopes == [] then Err(UndefinedVariable(name))
    else if name.lexeme in scopes[0] then Ok(scopes[0][name.lexeme])
    else
      var r := Lookup(scopes[1..], name);
      assert Bound(scopes[1..], name.lexeme) ==> Bound(scopes, name.lexeme);
      assert Bound(scopes, name.lexeme) ==> Bound(scopes[1..], name.lexeme) by {
        if Bound(scopes, name.lexeme) {
          var i :| 0 <= i < |scopes| && name.lexeme in scopes[i];
          assert i > 0 && name.lexeme in scopes[1..][i - 1];
        }
      }
      r
  }

  /** What `assign` does: overwrite the binding in the nearest scope that has the name, or fault. */
  function AssignIn(scopes: seq<Scope>, name: Token, v: Value): (r: Result<seq<Scope>, RuntimeError>)
    ensures r.Ok? <==> Bound(scopes, name.lexeme)
    ensures var k := Depth(scopes, name.lexeme);
      if k < |scopes| then r == Ok(scopes[k := scopes[k][name.lexeme := v]])
      else r == Err(CannotAssign(name))
  {
    if scopes == [] then Err(CannotAssign(name))
    else if name.lexeme in scopes[0] then Ok(scopes[0 := scopes[0][name.lexeme := v]])
    else
      match AssignIn(scopes[1..], name, v)
      case Ok(rest) =>
        var k := Depth(scopes[1..], name.lexeme);
        assert rest == scopes[1..][k := scopes[1..][k][name.lexeme := v]];
        assert [scopes[0]] + rest == scopes[k + 1 := scopes[k + 1][name.lexeme := v]];
        Ok([scopes[0]] + rest)
      case Err(e) => Err(e)
  }

  /** What `define` does: insert or overwrite in the innermost scope only. */
  function DefineIn(scopes: seq<Scope>, name: string, v: Value): seq<Scope>
    requires scopes != []
  {
    [scopes[0][name := v]] + scopes[1..]
  }

  /** Looking a name up right after defining it gives the defined value, whatever the outer scopes hold. */
  lemma DefineThenLookup(scopes: seq<Scope>, name: Token, v: Value)
    requires scopes != []
    ensures Lookup(DefineIn(scopes, name.lexeme, v), name) == Ok(v)
  {
  }

  /** Defining one name changes the lookup of no other name. */
  lemma DefineKeepsOtherNames(scopes: seq<Scope>, name: string, v: Value, other: Token)
    requires scopes != [] && other.lexeme != name
    ensures Lookup(DefineIn(scopes, name, v), other) == Lookup(scopes, other)
  {
    var s' := DefineIn(scopes, name, v);
    assert Depth(s', other.lexeme) == Depth(scopes, other.lexeme) by {
      DepthPointwise(scopes, s', other.lexeme);
    }
  }

  /** Two chains with the same length and the same scopes' membership of name have the same depth for it. */
  lemma {:induction false} DepthPointwise(a: seq<Scope>, b: seq<Scope>, name: string)
    requires |a| == |b|
    requires forall i :: 0 <= i < |a| ==> (name in a[i] <==> name in b[i])
    ensures Depth(a, name) == Depth(b, name)
  {
    if a != [] && name !in a[0] {
      DepthPointwise(a[1..], b[1..], name);
    }
  }

  /** Assignment never creates a binding: every scope keeps its set of names. */
  lemma AssignKeepsNames(scopes: seq<Scope>, name: Token, v: Value)
    requires AssignIn(scopes, name, v).Ok?
    ensures var s' := AssignIn(scopes, name, v).value;
      |s'| == |scopes| && forall i :: 0 <= i < |scopes| ==> s'[i].Keys == scopes[i].Keys
  {
  }

  /** After a successful assignment the name looks up to the assigned value, and every other name is unchanged. */
  lemma AssignThenLookup(scopes: seq<Scope>, name: Token, v: Value, other: Token)
    requires AssignIn(scopes, name, v).Ok?
    ensures Lookup(AssignIn(scopes, name, v).value, name) == Ok(v)
    ensures other.lexeme != name.lexeme ==>
      Lookup(AssignIn(scopes, name, v).value, other) == Lookup(scopes, other)
  {
    var s' := AssignIn(scopes, name, v).value;
    DepthPointwise(scopes, s', name.lexeme);
    DepthPointwise(scopes, s', other.lexeme);
  }

  /** One scope. The parent link and the footprint never change after construction. */
  class Environment {
    var values: map<string, Value>
    const parent: Environment?
    /** This scope and all scopes it encloses in. */
    ghost const Repr: set<Environment>

    /** The chain through the parent links is finite and acyclic. */
    ghost predicate Valid()
      decreases Repr
    {
      && this in Repr
      && (parent == null ==> Repr == {this})
      && (parent != null ==>
            && parent in Repr && this !in parent.Repr && Repr == {this} + parent.Repr
            && parent.Valid())
    }

    /** The scopes from this one out to the root. */
    ghost function Scopes(): (s: seq<Scope>)
      requires Valid()
      reads Repr
      ensures |s| >= 1 && s[0] == values
      decreases Repr
    {
      if parent == null then [values] else [values] + parent.Scopes()
    }

    /** The default constructor: a global scope, the root of its chain. */
    constructor ()
      ensures Valid() && fresh(Repr)
      ensures parent == null && Scopes() == [map[]]
    {
      values := map[];
      parent := null;
      Repr := {this};
    }

    /** A scope whose enclosing scope is enclosing (the root if that is null). */
    constructor Enclosed(enclosing: Environment?)
      requires enclosing != null ==> enclosing.Valid()
      ensures Valid() && parent == enclosing && values == map[]
      ensures enclosing != null ==> Repr == {this} + enclosing.Repr && Scopes() == [map[]] + enclosing.Scopes()
      ensures enclosing == null ==> Repr == {this} && Scopes() == [map[]]
    {
      values := map[];
      parent := enclosing;
      Repr := if enclosing == null then {this} else {this} + enclosing.Repr;
    }

    /** `get`: search this scope, then the enclosing ones. */
    method Get(name: Token) returns (r: Result<Value, RuntimeError>)
      requires Valid()
      ensures r == Lookup(Scopes(), name)
      decreases Repr
    {
      if name.lexeme in values {
        return Ok(values[name.lexeme]);
      }
      if parent != null {
        r := parent.Get(name);
        return;
      }
      return Err(UndefinedVariable(name));
    }

    /** `assign`: overwrite the nearest existing binding in place, or fault. */
    method Assign(name: Token, v: Value) returns (r: Outcome<RuntimeError>)
      requires Valid()
      modifies Repr
      ensures Valid()
      ensures match AssignIn(old(Scopes()), name, v)
        case Ok(s) => r == Pass && Scopes() == s
        case Err(e) => r == Fail(e) && Scopes() == old(Scopes())
      decreases Repr
    {
      if name.lexeme in values {
        values := values[name.lexeme := v];
        return Pass;
      }
      if parent != null {
        r := parent.Assign(name, v);
        return;
      }
      return Fail(CannotAssign(name));
    }

    /** `define`: insert or overwrite in this scope only. */
    method Define(name: string, v: Value)
      requires Valid()
      modifies this`values
      ensures Valid()
      ensures values == old(values)[name := v]
      ensures Scopes() == DefineIn(old(Scopes()), name, v)
    {
      values := values[name := v];
    }
  }
}
