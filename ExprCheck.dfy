/**
 * The checker's expression visits: identifiers and literals get their inferred type,
 * a key-value pair visits key then value, and a binary operator visits both operands
 * and, for `+` only, rewrites itself by its operand types.
 */
module ExprCheck {
  import opened Wrappers
  import opened Ast
  import opened TypeRules
  import opened Scopes

  /**
   * How deeply collection literals nest: blocks and key-value pairs count, everything
   * else weighs nothing. The collection checks recurse only into heavier parts.
   */
  function Weight(n: Node): nat
    decreases n, 1
  {
    match n.kind
    case BlockNode(_) => 1 + WeightFrom(n, 0)
    case KeyValueNode(k, v, _) => 1 + Weight(k) + Weight(v)
    case _ => 0
  }

  function WeightFrom(n: Node, i: nat): nat
    requires n.kind.BlockNode? && i <= |n.kind.statements|
    decreases n, 0, |n.kind.statements| - i
  {
    if i == |n.kind.statements| then 0 else Weight(n.kind.statements[i]) + WeightFrom(n, i + 1)
  }

  /** Each statement of a block weighs less than the block. */
  lemma {:induction false} WeightFromBound(n: Node, i: nat, j: nat)
    requires n.kind.BlockNode? && i <= j < |n.kind.statements|
    ensures Weight(n.kind.statements[j]) <= WeightFrom(n, i)
    decreases j - i
  {
    if i < j {
      WeightFromBound(n, i + 1, j);
    }
  }

  /** Blocks whose statements weigh the same position by position weigh the same. */
  lemma {:induction false} WeightFromPointwise(a: Node, b: Node, i: nat)
    requires a.kind.BlockNode? && b.kind.BlockNode? && |a.kind.statements| == |b.kind.statements|
    requires i <= |a.kind.statements|
    requires forall k :: i <= k < |a.kind.statements| ==> Weight(a.kind.statements[k]) == Weight(b.kind.statements[k])
    ensures WeightFrom(a, i) == WeightFrom(b, i)
    decreases |a.kind.statements| - i
  {
    if i < |a.kind.statements| {
      WeightFromPointwise(a, b, i + 1);
    }
  }

  /**
   * The visit of an expression node in the innermost scope `ctx`. Visits of node kinds
   * not listed here (calls, unary operators, member access, ...) are not part of this
   * model and leave the node as it is; a block visits its statements in order.
   */
  function VisitExpr(ctx: Context, types: map<string, TypeNode>, n: Node): (r: Result<Node>)
    ensures r.Ok? ==> Weight(r.value) == Weight(n)
    ensures r.Ok? ==> (r.value.kind.BlockNode? <==> n.kind.BlockNode?)
    ensures r.Ok? ==> (r.value.kind.KeyValueNode? <==> n.kind.KeyValueNode?)
    decreases n, 1
  {
    match n.kind
    case IdentifierNode(name) =>
      if name !in ctx.variables then Fail("Variable not found: " + name)
      else Ok(n.(inferredType := Some(ctx.variables[name].varType)))
    case NumberNode(_, t) => Ok(n.(inferredType := Find(types, TypeToString(t))))
    case FloatNumberNode(_) => Ok(n.(inferredType := Find(types, "float")))
    case StringNode(_) => Ok(n.(inferredType := Find(types, "string")))
    case NullNode => Ok(n.(inferredType := Find(types, "null")))
    case NoneNode => Ok(n.(inferredType := Find(types, "none")))
    case KeyValueNode(k, v, keyName) =>
      var k1 :- VisitExpr(ctx, types, k);
      var v1 :- VisitExpr(ctx, types, v);
      var _ :- CheckForIdentifier(ctx, k1);
      var _ :- CheckForIdentifier(ctx, v1);
      Ok(n.(kind := KeyValueNode(k1, v1, keyName)))
    case BinaryOpNode(l, op, rt) =>
      var l1 :- VisitExpr(ctx, types, l);
      var r1 :- VisitExpr(ctx, types, rt);
      var lt :- CheckForIdentifier(ctx, l1);
      var rty :- CheckForIdentifier(ctx, r1);
      if op == "+" then PlusRewrite(ctx, types, n, l1, r1, lt, rty)
      else Ok(n.(kind := BinaryOpNode(l1, op, r1)))
    case BlockNode(ss) =>
      var ss1 :- VisitEach(ctx, types, n, 0);
      var m := n.(kind := BlockNode(ss1));
      WeightFromPointwise(n, m, 0);
      Ok(m)
    case _ => Ok(n)
  }

  /** The statements of block `n` from `i` on, each visited in order. */
  function VisitEach(ctx: Context, types: map<string, TypeNode>, n: Node, i: nat): (r: Result<seq<Node>>)
    requires n.kind.BlockNode? && i <= |n.kind.statements|
    ensures r.Ok? ==> |r.value| == |n.kind.statements| - i
    ensures r.Ok? ==> forall k :: 0 <= k < |r.value| ==> Weight(r.value[k]) == Weight(n.kind.statements[i + k])
    decreases n, 0, |n.kind.statements| - i
  {
    if i == |n.kind.statements| then Ok([])
    else
      var s :- VisitExpr(ctx, types, n.kind.statements[i]);
      var rest :- VisitEach(ctx, types, n, i + 1);
      Ok([s] + rest)
  }

  /**
   * The `+` rewriting of `visit(BinaryOpNode)`, given the visited operands and their
   * types: equal non-string types add (`add` for the integer names, `fadd` for float,
   * anything else an error) with the left type; a string on either side wraps the other
   * side in a `toString` call and concatenates (`strcat`); a float on either side casts
   * an i32/i64/i8/"bool" side to float and adds with `fadd`; everything else goes to
   * `numCast` and takes the left operand's promoted type.
   */
  function PlusRewrite(ctx: Context, types: map<string, TypeNode>, n: Node, l: Node, r: Node, lt: TypeNode, rt: TypeNode): Result<Node>
  {
    var ls := TypeToString(lt);
    var rs := TypeToString(rt);
    if ls == rs && ls != "string" then
      if IsPlusIntType(ls) then Ok(Plain(BinaryOpNode(l, "add", r)).(inferredType := Some(lt)))
      else if ls == "float" then Ok(Plain(BinaryOpNode(l, "fadd", r)).(inferredType := Some(lt)))
      else Fail("Unsupported operand types for '+': " + ls + " and " + rs)
    else if ls == "string" || rs == "string" then
      var l1 := if ls != "string" then Plain(CallNode("toString", [l])) else l;
      var r1 := if rs != "string" then Plain(CallNode("toString", [r])) else r;
      Ok(Plain(BinaryOpNode(l1, "strcat", r1)).(inferredType := Find(types, "string")))
    else if ls == "float" || rs == "float" then
      var l1 := if IsFloatCastable(ls) then l.(implicitCastTo := Find(types, "float")) else l;
      var r1 := if IsFloatCastable(rs) then r.(implicitCastTo := Find(types, "float")) else r;
      Ok(Plain(BinaryOpNode(l1, "fadd", r1)).(inferredType := Find(types, "float")))
    else
      var p :- NumCast(ctx, l, r, "+");
      Ok(n.(kind := BinaryOpNode(p.0, "+", p.1), inferredType := p.0.inferredType))
  }

  // ---------------------------------------------------------------------------------
  // Properties of the expression visits
  // ---------------------------------------------------------------------------------

  /**
   * An identifier's own visit types it with the type it was declared with, while an
   * operator asks `checkForIdentifier`, which answers with the initializer's type: for
   * `x` declared i64 but initialised with an i8 literal, the two disagree.
   */
  lemma IdentifierTypes(ctx: Context, types: map<string, TypeNode>, n: Node, init: Node)
    requires n.kind.IdentifierNode? && n.kind.ident in ctx.variables
    requires ctx.variables[n.kind.ident] == Variable(n.kind.ident, false, Simple("i64"), Some(init))
    requires init.inferredType == Some(Simple("i8"))
    ensures VisitExpr(ctx, types, n) == Ok(n.(inferredType := Some(Simple("i64"))))
    ensures CheckForIdentifier(ctx, VisitExpr(ctx, types, n).value) == Ok(Simple("i8"))
  {
  }

  /** An unknown identifier is an error naming it; a known one keeps its kind and cast and gets its declared type. */
  lemma IdentifierVisit(ctx: Context, types: map<string, TypeNode>, n: Node)
    requires n.kind.IdentifierNode?
    ensures n.kind.ident !in ctx.variables <==> VisitExpr(ctx, types, n) == Fail("Variable not found: " + n.kind.ident)
    ensures n.kind.ident in ctx.variables ==>
      VisitExpr(ctx, types, n) == Ok(Node(n.kind, Some(ctx.variables[n.kind.ident].varType), n.implicitCastTo))
  {
  }

  /**
   * Literals take the registry's entry for their type name: a number its own parsed
   * type, the others float, string, null and none; with the built-in registry every
   * one of these names is its own simple type.
   */
  lemma LiteralTypes(ctx: Context, types: map<string, TypeNode>, n: Node)
    requires forall t :: t in types ==> types[t] == Simple(t)
    requires "float" in types && "string" in types && "null" in types && "none" in types
    ensures n.kind.NumberNode? ==>
      VisitExpr(ctx, types, n).Ok? &&
      VisitExpr(ctx, types, n).value.inferredType ==
        (if TypeToString(n.kind.numberType) in types then Some(Simple(TypeToString(n.kind.numberType))) else None)
    ensures n.kind.FloatNumberNode? ==> VisitExpr(ctx, types, n) == Ok(n.(inferredType := Some(Simple("float"))))
    ensures n.kind.StringNode? ==> VisitExpr(ctx, types, n) == Ok(n.(inferredType := Some(Simple("string"))))
    ensures n.kind.NullNode? ==> VisitExpr(ctx, types, n) == Ok(n.(inferredType := Some(Simple("null"))))
    ensures n.kind.NoneNode? ==> VisitExpr(ctx, types, n) == Ok(n.(inferredType := Some(Simple("none"))))
  {
  }

  /**
   * Operators other than `+` are only visited through: the operator and the node's
   * annotations stay, and a comparison is left with no inferred type at all.
   */
  lemma OtherOperatorsUntyped(ctx: Context, types: map<string, TypeNode>, n: Node)
    requires n.kind.BinaryOpNode? && n.kind.op != "+"
    ensures var r := VisitExpr(ctx, types, n);
      r.Ok? ==> (r.value.kind.BinaryOpNode? && r.value.kind.op == n.kind.op &&
                 r.value.inferredType == n.inferredType && r.value.implicitCastTo == n.implicitCastTo)
  {
  }

  /** Same-typed operands of `+`: integer names give `add`, float `fadd`, both typed like the left side; other shared names (i16 among them) fail. */
  lemma PlusSameType(ctx: Context, types: map<string, TypeNode>, n: Node, l: Node, r: Node, t: TypeNode)
    requires TypeToString(t) != "string"
    ensures var res := PlusRewrite(ctx, types, n, l, r, t, t);
      && (IsPlusIntType(TypeToString(t)) ==> res == Ok(Node(BinaryOpNode(l, "add", r), Some(t), None)))
      && (TypeToString(t) == "float" ==> res == Ok(Node(BinaryOpNode(l, "fadd", r), Some(t), None)))
      && (!IsPlusIntType(TypeToString(t)) && TypeToString(t) != "float" ==>
            res == Fail("Unsupported operand types for '+': " + TypeToString(t) + " and " + TypeToString(t)))
  {
  }

  /** A string on either side of `+`: concatenation typed string, and only the non-string side is wrapped in a `toString` call. */
  lemma PlusString(ctx: Context, types: map<string, TypeNode>, n: Node, l: Node, r: Node, lt: TypeNode, rt: TypeNode)
    requires TypeToString(lt) == "string" || TypeToString(rt) == "string"
    ensures var res := PlusRewrite(ctx, types, n, l, r, lt, rt);
      && res.Ok? && res.value.kind.BinaryOpNode? && res.value.kind.op == "strcat"
      && res.value.inferredType == Find(types, "string")
      && res.value.kind.left == (if TypeToString(lt) == "string" then l else Plain(CallNode("toString", [l])))
      && res.value.kind.right == (if TypeToString(rt) == "string" then r else Plain(CallNode("toString", [r])))
  {
  }

  /**
   * A float beside an integer under `+`: `fadd` typed float, with the integer side cast
   * to float, except an i1 side, which the cast list misses (it names "bool").
   */
  lemma PlusFloat(ctx: Context, types: map<string, TypeNode>, n: Node, l: Node, r: Node, rt: TypeNode)
    requires TypeToString(rt) in {"i1", "i8", "i32", "i64"}
    ensures var res := PlusRewrite(ctx, types, n, l, r, Simple("float"), rt);
      && res.Ok? && res.value.kind.BinaryOpNode? && res.value.kind.op == "fadd"
      && res.value.inferredType == Find(types, "float")
      && res.value.kind.left == l
      && res.value.kind.right == (if TypeToString(rt) == "i1" then r else r.(implicitCastTo := Find(types, "float")))
  {
  }

  /** Two different integer names under `+`: the node keeps `+` and takes the promoted type of the pair. */
  lemma PlusPromotes(ctx: Context, types: map<string, TypeNode>, n: Node, l: Node, r: Node, lt: TypeNode, rt: TypeNode)
    requires CheckForIdentifier(ctx, l) == Ok(lt) && CheckForIdentifier(ctx, r) == Ok(rt)
    requires Rank(TypeToString(lt)) > 0 && Rank(TypeToString(rt)) > 0 && TypeToString(lt) != TypeToString(rt)
    ensures var res := PlusRewrite(ctx, types, n, l, r, lt, rt);
      && res.Ok? && res.value.kind.BinaryOpNode? && res.value.kind.op == "+"
      && res.value.inferredType == Some(Simple(Promoted(TypeToString(lt), TypeToString(rt))))
      && res.value.implicitCastTo == n.implicitCastTo
  {
    NumCastSpec(ctx, l, r, "+", lt, rt);
  }
}
