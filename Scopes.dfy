/**
 * The checker's state: the stack of scopes (`Context`), the variables they hold, the
 * registered structs; and the lookups every visit shares: `findType`, the type-node
 * visits, `checkForIdentifier` and `numCast`.
 */
module Scopes {
  import opened Wrappers
  import opened Ast
  import opened TypeRules

  /** `LogError`: every checker error is thrown with this prefix. */
  function Fail<T>(message: string): Result<T>
  {
    Err("Semantic Error: " + message)
  }

  /** What the checker does on a null dereference or an out-of-range `[0]`: undefined behaviour, here an error of its own. */
  const Undefined := "undefined behaviour: null dereference or out-of-range access"

  function Crash<T>(): Result<T>
  {
    Err(Undefined)
  }

  /**
   * A variable as a scope records it: a `VariableAssignNode` whose `inferredType` is
   * always set to its type (both places that create one do so), so the two are one
   * field here. A parameter has no initializer.
   */
  datatype Variable = Variable(name: string, isConst: bool, varType: TypeNode, expression: Option<Node>)

  /** A scope: its variables, its functions, the enclosing function's name and return type, and whether a `return` was seen. */
  datatype Context = Context(
    variables: map<string, Variable>,
    functions: map<string, Node>,
    currentFunctionName: string,
    returnType: Option<TypeNode>,
    returnedValue: bool)

  /** The global scope the constructor pushes: empty, unnamed, no return type. */
  const GlobalContext := Context(map[], map[], "", None, false)

  /** The stack of scopes (never empty) and the registry's user structs. */
  datatype State = State(contexts: seq<Context>, structs: map<string, Node>)

  /** `contexts.back()`. */
  function Top(st: State): Context
    requires |st.contexts| > 0
  {
    st.contexts[|st.contexts| - 1]
  }

  /** The state with its innermost scope replaced. */
  function SetTop(st: State, c: Context): (r: State)
    requires |st.contexts| > 0
    ensures |r.contexts| == |st.contexts| && Top(r) == c && r.structs == st.structs
    ensures r.contexts[..|r.contexts| - 1] == st.contexts[..|st.contexts| - 1]
  {
    st.(contexts := st.contexts[|st.contexts| - 1 := c])
  }

  /** `registry.findType`: the registered type, or null. */
  function Find(types: map<string, TypeNode>, name: string): Option<TypeNode>
  {
    if name in types then Some(types[name]) else None
  }

  // ---------------------------------------------------------------------------------
  // Type nodes
  // ---------------------------------------------------------------------------------

  /**
   * The visits of `SimpleTypeNode` and `GenericTypeNode`: a simple name must be
   * registered; a generic's base name must be, and then each parameter is visited in
   * order.
   */
  function VisitType(types: map<string, TypeNode>, t: TypeNode): Result<()>
    decreases t, 1, 0
  {
    match t
    case SimpleTypeNode(name) => if name in types then Ok(()) else Fail("Unknown type: " + name)
    case GenericTypeNode(base, _) =>
      if base !in types then Fail("Unknown base type: " + base) else VisitParams(types, t, 0)
  }

  function VisitParams(types: map<string, TypeNode>, t: TypeNode, i: nat): Result<()>
    requires t.GenericTypeNode? && i <= |t.typeParameters|
    decreases t, 0, |t.typeParameters| - i
  {
    if i == |t.typeParameters| then Ok(())
    else
      var _ :- VisitType(types, t.typeParameters[i]);
      VisitParams(types, t, i + 1)
  }

  /** Every name in the type, base names and parameters alike, is registered. */
  predicate Known(types: map<string, TypeNode>, t: TypeNode)
    decreases t
  {
    match t
    case SimpleTypeNode(name) => name in types
    case GenericTypeNode(base, ps) => base in types && forall k :: 0 <= k < |ps| ==> Known(types, ps[k])
  }

  /** A type visit succeeds exactly when every name the type mentions is registered. */
  lemma {:induction false} VisitTypeOkIff(types: map<string, TypeNode>, t: TypeNode)
    ensures VisitType(types, t).Ok? <==> Known(types, t)
    decreases t, 1, 0
  {
    if t.GenericTypeNode? && t.baseName in types {
      VisitParamsOkIff(types, t, 0);
    }
  }

  lemma {:induction false} VisitParamsOkIff(types: map<string, TypeNode>, t: TypeNode, i: nat)
    requires t.GenericTypeNode? && i <= |t.typeParameters|
    ensures VisitParams(types, t, i).Ok? <==> forall k :: i <= k < |t.typeParameters| ==> Known(types, t.typeParameters[k])
    decreases t, 0, |t.typeParameters| - i
  {
    if i < |t.typeParameters| {
      VisitTypeOkIff(types, t.typeParameters[i]);
      VisitParamsOkIff(types, t, i + 1);
    }
  }

  // ---------------------------------------------------------------------------------
  // checkForIdentifier and numCast
  // ---------------------------------------------------------------------------------

  /**
   * `checkForIdentifier`: an identifier is looked up in the innermost scope only, and
   * gives its initializer's inferred type, or its declared type when it has no
   * initializer (a parameter); any other node gives its own inferred type.
   */
  function CheckForIdentifier(ctx: Context, n: Node): (r: Result<TypeNode>)
  {
    if n.kind.IdentifierNode? then
      var name := n.kind.ident;
      if name !in ctx.variables then Fail("Variable not found: " + name)
      else match ctx.variables[name].expression
        case None => Ok(ctx.variables[name].varType)
        case Some(e) =>
          if e.inferredType.None? then Fail("Expression type is null for variable: " + name)
          else Ok(e.inferredType.value)
    else if n.inferredType.None? then Fail("Node type is null")
    else Ok(n.inferredType.value)
  }

  /**
   * Lookups go to the innermost scope alone, and an initialised variable answers with
   * its initializer's type, not the type it was declared with.
   */
  lemma CheckForIdentifierSpec(ctx: Context, n: Node)
    requires n.kind.IdentifierNode?
    ensures n.kind.ident !in ctx.variables ==>
      CheckForIdentifier(ctx, n) == Fail("Variable not found: " + n.kind.ident)
    ensures n.kind.ident in ctx.variables && ctx.variables[n.kind.ident].expression.None? ==>
      CheckForIdentifier(ctx, n) == Ok(ctx.variables[n.kind.ident].varType)
    ensures n.kind.ident in ctx.variables && ctx.variables[n.kind.ident].expression.Some? &&
            ctx.variables[n.kind.ident].expression.value.inferredType.Some? ==>
      CheckForIdentifier(ctx, n) == Ok(ctx.variables[n.kind.ident].expression.value.inferredType.value)
  {
  }

  /**
   * `numCast`: equal type names change nothing; two different integer names under an
   * arithmetic or comparison operator promote to the higher rank, the lower side
   * getting an implicit cast and both sides that inferred type; anything else is an
   * error.
   */
  function NumCast(ctx: Context, left: Node, right: Node, op: string): Result<(Node, Node)>
  {
    var lt :- CheckForIdentifier(ctx, left);
    var rt :- CheckForIdentifier(ctx, right);
    var ls := TypeToString(lt);
    var rs := TypeToString(rt);
    if ls == rs then Ok((left, right))
    else if IsNumCastOp(op) && Rank(ls) > 0 && Rank(rs) > 0 then
      var target := Simple(if Rank(ls) > Rank(rs) then ls else rs);
      var l := if Rank(ls) < Rank(rs) then left.(implicitCastTo := Some(target)) else left;
      var r := if Rank(rs) < Rank(ls) then right.(implicitCastTo := Some(target)) else right;
      Ok((l.(inferredType := Some(target)), r.(inferredType := Some(target))))
    else Fail("Unsupported operand types for " + op + " : " + ls + " and " + rs)
  }

  /** The higher-ranked of two integer names. */
  function Promoted(a: string, b: string): string
  {
    if Rank(a) >= Rank(b) then a else b
  }

  /**
   * The promotion `numCast` performs: for two different integer names under a
   * promoting operator, both sides end typed with the higher-ranked name, the
   * higher-ranked side keeps its cast slot and the lower one is cast; other differing
   * names fail; equal names leave both sides alone.
   */
  lemma NumCastSpec(ctx: Context, left: Node, right: Node, op: string, lt: TypeNode, rt: TypeNode)
    requires CheckForIdentifier(ctx, left) == Ok(lt) && CheckForIdentifier(ctx, right) == Ok(rt)
    ensures TypeToString(lt) == TypeToString(rt) ==> NumCast(ctx, left, right, op) == Ok((left, right))
    ensures var ls, rs := TypeToString(lt), TypeToString(rt);
      ls != rs ==>
        (NumCast(ctx, left, right, op).Ok? <==> IsNumCastOp(op) && Rank(ls) > 0 && Rank(rs) > 0)
    ensures var ls, rs := TypeToString(lt), TypeToString(rt);
      var r := NumCast(ctx, left, right, op);
      ls != rs && r.Ok? ==>
        var target := Simple(Promoted(ls, rs));
        && r.value.0.inferredType == Some(target) && r.value.1.inferredType == Some(target)
        && r.value.0.kind == left.kind && r.value.1.kind == right.kind
        && (Rank(ls) < Rank(rs) ==> r.value.0.implicitCastTo == Some(target) && r.value.1.implicitCastTo == right.implicitCastTo)
        && (Rank(rs) < Rank(ls) ==> r.value.1.implicitCastTo == Some(target) && r.value.0.implicitCastTo == left.implicitCastTo)
  {
    var ls, rs := TypeToString(lt), TypeToString(rt);
    if ls != rs && Rank(ls) > 0 && Rank(rs) > 0 {
      RankInjective(ls, rs);
    }
  }

  /** Promotion does not depend on the side: swapping the operands swaps the results. */
  lemma NumCastSymmetric(ctx: Context, left: Node, right: Node, op: string)
    requires CheckForIdentifier(ctx, left).Ok? && CheckForIdentifier(ctx, right).Ok?
    ensures NumCast(ctx, left, right, op).Ok? <==> NumCast(ctx, right, left, op).Ok?
    ensures NumCast(ctx, left, right, op).Ok? ==>
      NumCast(ctx, right, left, op).value == (NumCast(ctx, left, right, op).value.1, NumCast(ctx, left, right, op).value.0)
  {
    var ls, rs := TypeToString(CheckForIdentifier(ctx, left).value), TypeToString(CheckForIdentifier(ctx, right).value);
    if ls != rs && Rank(ls) > 0 && Rank(rs) > 0 {
      RankInjective(ls, rs);
    }
  }
}
