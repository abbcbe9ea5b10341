/**
 * The checker's operator handlers: given a binary operator node and the types of its
 * two operands, each rewrites the node into the IR instruction it stands for (`scat`,
 * `fadd`, `sub`, `icmp_slt`, ...) with its result type, or rejects the operand types.
 * `toStringHandler` turns an operand into a call of the matching `toString_*` routine.
 * The `@strict` label is the parameter `strict`.
 */
module Operators {
  import opened Wrappers
  import opened Ast
  import opened TypeRules
  import opened Scopes
  import opened ExprCheck

  /** The type a node is used at: its implicit cast when it has one, else its inferred type. */
  function UsedType(n: Node): (r: Option<TypeNode>)
    ensures n.implicitCastTo.Some? ==> r == n.implicitCastTo
    ensures n.implicitCastTo.None? ==> r == n.inferredType
  {
    if n.implicitCastTo.Some? then n.implicitCastTo else n.inferredType
  }

  /** Whether the node already carries an implicit cast to float. */
  predicate CastToFloat(n: Node)
  {
    n.implicitCastTo.Some? && TypeToString(n.implicitCastTo.value) == "float"
  }

  /** The node kinds `toStringHandler` wraps in a conversion call. */
  predicate Convertible(k: NodeKind)
  {
    k.NumberNode? || k.FloatNumberNode? || k.BinaryOpNode? || k.UnaryOpNode? || k.CallNode?
  }

  /**
   * `toStringHandler`: the operand is visited again; a number becomes `toString_bool`
   * (when it is used as i1) or `toString_int` of a fresh number literal typed with the
   * number's inferred type; a float literal `toString_float`; a binary or unary operator
   * `toString_int` of a fresh copy of it; a call `toString_float`, `toString_bool` or
   * `toString_int` by the type it is used at. Any other node is returned visited.
   */
  function ToStringHandler(ctx: Context, types: map<string, TypeNode>, n: Node): (r: Result<Node>)
  {
    var v :- VisitExpr(ctx, types, n);
    var t := UsedType(v);
    match v.kind
    case NumberNode(value, _) =>
      if t.None? || v.inferredType.None? then Crash()
      else
        var name := if TypeToString(t.value) == "i1" then "toString_bool" else "toString_int";
        Ok(Plain(CallNode(name, [Plain(NumberNode(value, v.inferredType.value))])))
    case FloatNumberNode(text) =>
      if t.None? then Crash() else Ok(Plain(CallNode("toString_float", [Plain(FloatNumberNode(text))])))
    case BinaryOpNode(l, op, rt) =>
      if t.None? then Crash() else Ok(Plain(CallNode("toString_int", [Plain(BinaryOpNode(l, op, rt))])))
    case UnaryOpNode(op, operand) =>
      if t.None? then Crash() else Ok(Plain(CallNode("toString_int", [Plain(UnaryOpNode(op, operand))])))
    case CallNode(callee, args) =>
      if t.None? then Crash()
      else
        var s := TypeToString(t.value);
        var name := if s == "float" then "toString_float" else if s == "i1" then "toString_bool" else "toString_int";
        Ok(Plain(CallNode(name, [Plain(CallNode(callee, args))])))
    case _ => Ok(v)
  }

  /** The name of the conversion routine `toStringHandler` calls for a node of kind `k` used at type `s`. */
  function ConversionFor(k: NodeKind, s: string): string
  {
    if k.FloatNumberNode? || (k.CallNode? && s == "float") then "toString_float"
    else if (k.NumberNode? || k.CallNode?) && s == "i1" then "toString_bool"
    else "toString_int"
  }

  /**
   * What `toStringHandler` produces: for a convertible kind, a one-argument call of the
   * routine `ConversionFor` names, with fresh annotations and an argument of the same
   * kind as the visited node (a number retyped by its inferred type); any other node
   * comes back exactly as its visit left it.
   */
  lemma ToStringHandlerSpec(ctx: Context, types: map<string, TypeNode>, n: Node)
    ensures var r := ToStringHandler(ctx, types, n);
      var v := VisitExpr(ctx, types, n);
      && (v.Err? ==> r == Err(v.msg))
      && (v.Ok? && !Convertible(v.value.kind) ==> r == v)
      && (v.Ok? && Convertible(v.value.kind) && UsedType(v.value).None? ==> r == Crash())
      && (v.Ok? && Convertible(v.value.kind) && r.Ok? ==>
            && r.value.inferredType.None? && r.value.implicitCastTo.None?
            && r.value.kind.CallNode? && |r.value.kind.arguments| == 1
            && r.value.kind.callee == ConversionFor(v.value.kind, TypeToString(UsedType(v.value).value))
            && var arg := r.value.kind.arguments[0];
            && arg.inferredType.None? && arg.implicitCastTo.None?
            && (v.value.kind.NumberNode? ==>
                  arg.kind == NumberNode(v.value.kind.value, v.value.inferredType.value))
            && (!v.value.kind.NumberNode? ==> arg.kind == v.value.kind))
  {
  }

  // ---------------------------------------------------------------------------------
  // Shared branches of the handlers
  // ---------------------------------------------------------------------------------

  /**
   * The float branch every handler shares: under `@strict`, mixed operands are refused
   * only when one of them already carries a cast to float; otherwise each non-float
   * side is cast to float and the node becomes `instr` typed `result`.
   */
  function FloatBranch(types: map<string, TypeNode>, strict: bool, l: Node, r: Node, ls: string, rs: string,
                       symbol: string, instr: string, result: string): (res: Result<Node>)
  {
    if strict && !(ls == "float" && rs == "float") && (CastToFloat(l) || CastToFloat(r)) then
      Fail("Implicit type casting is not allowed for '" + symbol + "' in @strict mode: " + ls + " and " + rs)
    else
      var l1 := if ls != "float" then l.(implicitCastTo := Find(types, "float")) else l;
      var r1 := if rs != "float" then r.(implicitCastTo := Find(types, "float")) else r;
      Ok(Plain(BinaryOpNode(l1, instr, r1)).(inferredType := Find(types, result)))
  }

  /** Whether `@strict` makes the float branch refuse the operands. */
  predicate StrictRefuses(strict: bool, l: Node, r: Node, ls: string, rs: string)
  {
    strict && !(ls == "float" && rs == "float") && (CastToFloat(l) || CastToFloat(r))
  }

  // ---------------------------------------------------------------------------------
  // handlePlusOperator
  // ---------------------------------------------------------------------------------

  /**
   * `handlePlusOperator`: a string on either side concatenates (`scat`, typed string),
   * the other side converted by `toStringHandler` (refused under `@strict` unless both
   * are strings); a float on either side adds with `fadd`; two integer names add with
   * `add`, typed like the left side; anything else is refused.
   */
  function HandlePlus(ctx: Context, types: map<string, TypeNode>, strict: bool, n: Node, lt: TypeNode, rt: TypeNode): (r: Result<Node>)
    requires n.kind.BinaryOpNode?
  {
    var ls := TypeToString(lt);
    var rs := TypeToString(rt);
    if ls == "string" || rs == "string" then
      if strict && !(ls == "string" && rs == "string") then
        Fail("Implicit type casting is not allowed for '+' in @strict mode: " + ls + " and " + rs)
      else
        var l1 :- if ls != "string" then ToStringHandler(ctx, types, n.kind.left) else Ok(n.kind.left);
        var r1 :- if rs != "string" then ToStringHandler(ctx, types, n.kind.right) else Ok(n.kind.right);
        Ok(Plain(BinaryOpNode(l1, "scat", r1)).(inferredType := Find(types, "string")))
    else if ls == "float" || rs == "float" then
      FloatBranch(types, strict, n.kind.left, n.kind.right, ls, rs, "+", "fadd", "float")
    else if IsIntType(ls) && IsIntType(rs) then
      Ok(Plain(BinaryOpNode(n.kind.left, "add", n.kind.right)).(inferredType := Some(lt)))
    else
      Fail("Unsupported operand types for '+': " + ls + " and " + rs)
  }

  // ---------------------------------------------------------------------------------
  // handleMinusOperator, handleMulOperator, handleDivOperator, handleModOperator
  // ---------------------------------------------------------------------------------

  /** The four arithmetic operators that refuse strings. */
  datatype ArithOp = Minus | Mul | Div | Mod

  /** The operator as written in the source program and in the string and strict messages. */
  function Symbol(a: ArithOp): string
  {
    match a
    case Minus => "-"
    case Mul => "*"
    case Div => "/"
    case Mod => "%"
  }

  /** The instruction on float operands. */
  function FloatInstr(a: ArithOp): string
  {
    match a
    case Minus => "fsub"
    case Mul => "fmul"
    case Div => "fdiv"
    case Mod => "frem"
  }

  /** The instruction on integer operands (signed division and remainder). */
  function IntInstr(a: ArithOp): string
  {
    match a
    case Minus => "sub"
    case Mul => "mul"
    case Div => "sdiv"
    case Mod => "srem"
  }

  /** The operator the last "Unsupported operand types" message names: `-` and `*` report `+`. */
  function ReportedSymbol(a: ArithOp): string
  {
    match a
    case Minus => "+"
    case Mul => "+"
    case Div => "/"
    case Mod => "%"
  }

  /**
   * The handlers of `-`, `*`, `/` and `%`: strings are refused, a float on either side
   * gives the float instruction typed float, two integer names the integer
   * instruction typed like the left side, and anything else is refused.
   */
  function HandleArith(a: ArithOp, types: map<string, TypeNode>, strict: bool, n: Node, lt: TypeNode, rt: TypeNode): (r: Result<Node>)
    requires n.kind.BinaryOpNode?
  {
    var ls := TypeToString(lt);
    var rs := TypeToString(rt);
    if ls == "string" || rs == "string" then
      Fail("Unsupported operand types for '" + Symbol(a) + "': " + ls + " and " + rs)
    else if ls == "float" || rs == "float" then
      FloatBranch(types, strict, n.kind.left, n.kind.right, ls, rs, Symbol(a), FloatInstr(a), "float")
    else if IsIntType(ls) && IsIntType(rs) then
      Ok(Plain(BinaryOpNode(n.kind.left, IntInstr(a), n.kind.right)).(inferredType := Some(lt)))
    else
      Fail("Unsupported operand types for '" + ReportedSymbol(a) + "': " + ls + " and " + rs)
  }

  // ---------------------------------------------------------------------------------
  // handleCompareOperator and handleLogicalOperator
  // ---------------------------------------------------------------------------------

  /**
   * `handleCompareOperator`: an unknown operator is refused first; a string on either
   * side compares strings (`strcmp_*`), the other side wrapped in a `toString_int` call
   * that is then visited; a float on either side gives `fcmp_*`; two integer names
   * `icmp_*`. Every comparison is typed i1.
   */
  function HandleCompare(ctx: Context, types: map<string, TypeNode>, strict: bool, n: Node, lt: TypeNode, rt: TypeNode): (r: Result<Node>)
    requires n.kind.BinaryOpNode?
  {
    var ls := TypeToString(lt);
    var rs := TypeToString(rt);
    var cmp := CmpOp(n.kind.op);
    if cmp == "" then Fail("Unknown comparison operator: " + n.kind.op)
    else if ls == "string" || rs == "string" then
      var l1 :- if ls != "string" then VisitExpr(ctx, types, Plain(CallNode("toString_int", [n.kind.left]))) else Ok(n.kind.left);
      var r1 :- if rs != "string" then VisitExpr(ctx, types, Plain(CallNode("toString_int", [n.kind.right]))) else Ok(n.kind.right);
      Ok(Plain(BinaryOpNode(l1, "strcmp_" + cmp, r1)).(inferredType := Find(types, "i1")))
    else if ls == "float" || rs == "float" then
      FloatBranch(types, strict, n.kind.left, n.kind.right, ls, rs, n.kind.op, "fcmp_" + cmp, "i1")
    else if IsIntType(ls) && IsIntType(rs) then
      Ok(Plain(BinaryOpNode(n.kind.left, "icmp_" + cmp, n.kind.right)).(inferredType := Find(types, "i1")))
    else
      Fail("Unsupported operand types for comparison: " + ls + " and " + rs)
  }

  /** `handleLogicalOperator`: both operands must be i1 and the operator `and` or `or`; the result is typed and cast i1. */
  function HandleLogical(types: map<string, TypeNode>, n: Node, lt: TypeNode, rt: TypeNode): (r: Result<Node>)
    requires n.kind.BinaryOpNode?
  {
    var ls := TypeToString(lt);
    var rs := TypeToString(rt);
    if ls != "i1" || rs != "i1" then Fail("Logical operators require boolean operands, got: " + ls + " and " + rs)
    else if n.kind.op != "and" && n.kind.op != "or" then Fail("Unknown logical operator: " + n.kind.op)
    else Ok(Node(BinaryOpNode(n.kind.left, n.kind.op, n.kind.right), Find(types, "i1"), Find(types, "i1")))
  }

  // ---------------------------------------------------------------------------------
  // Properties of the handlers
  // ---------------------------------------------------------------------------------

  /**
   * The result type of an arithmetic operator, written as a table independent of the
   * handlers: float when either side is float, otherwise the left operand's type.
   */
  function ArithResultName(ls: string, rs: string): string
  {
    if ls == "float" || rs == "float" then "float" else ls
  }

  /** When an arithmetic operator is accepted: no string, and a float (not refused by `@strict`) or two integer names. */
  predicate ArithAccepts(strict: bool, l: Node, r: Node, ls: string, rs: string)
  {
    ls != "string" && rs != "string" &&
    (if ls == "float" || rs == "float" then !StrictRefuses(strict, l, r, ls, rs) else IsIntType(ls) && IsIntType(rs))
  }

  /**
   * Each of `-`, `*`, `/`, `%` succeeds exactly when `ArithAccepts` holds, and then
   * yields the float or integer instruction of the operator over the same operand
   * kinds, typed as `ArithResultName` says (when the registry knows the names).
   */
  lemma ArithSpec(a: ArithOp, types: map<string, TypeNode>, strict: bool, n: Node, lt: TypeNode, rt: TypeNode)
    requires n.kind.BinaryOpNode?
    requires forall t :: t in types ==> types[t] == Simple(t)
    requires "float" in types
    ensures var ls, rs := TypeToString(lt), TypeToString(rt);
      var r := HandleArith(a, types, strict, n, lt, rt);
      && (r.Ok? <==> ArithAccepts(strict, n.kind.left, n.kind.right, ls, rs))
      && (r.Ok? ==>
            && r.value.kind.BinaryOpNode?
            && r.value.kind.op == (if ls == "float" || rs == "float" then FloatInstr(a) else IntInstr(a))
            && r.value.kind.left.kind == n.kind.left.kind && r.value.kind.right.kind == n.kind.right.kind
            && TypeToString(r.value.inferredType.value) == ArithResultName(ls, rs)
            && r.value.implicitCastTo.None?)
  {
  }

  /** A string operand is always refused by `-`, `*`, `/` and `%`, naming the operator. */
  lemma ArithRefusesStrings(a: ArithOp, types: map<string, TypeNode>, strict: bool, n: Node, lt: TypeNode, rt: TypeNode)
    requires n.kind.BinaryOpNode?
    requires TypeToString(lt) == "string" || TypeToString(rt) == "string"
    ensures HandleArith(a, types, strict, n, lt, rt) ==
      Fail("Unsupported operand types for '" + Symbol(a) + "': " + TypeToString(lt) + " and " + TypeToString(rt))
  {
  }

  /**
   * Operands neither string, float nor integer reach the last message, which names `+`
   * for `-` and `*`: subtracting `none` from an i32 reports an unsupported `+`.
   */
  lemma ArithReportsPlus(types: map<string, TypeNode>, strict: bool, n: Node)
    requires n.kind.BinaryOpNode?
    ensures HandleArith(Minus, types, strict, n, Simple("i32"), Simple("none")) ==
      Fail("Unsupported operand types for '+': i32 and none")
    ensures HandleArith(Mul, types, strict, n, Simple("i32"), Simple("none")) ==
      Fail("Unsupported operand types for '+': i32 and none")
    ensures HandleArith(Div, types, strict, n, Simple("i32"), Simple("none")) ==
      Fail("Unsupported operand types for '/': i32 and none")
  {
  }

  /**
   * `@strict` only looks at casts already present: an uncast i32 beside a float is
   * accepted and cast to float.
   */
  lemma StrictAcceptsUncast(types: map<string, TypeNode>, n: Node)
    requires n.kind.BinaryOpNode?
    requires n.kind.left.implicitCastTo.None? && n.kind.right.implicitCastTo.None?
    ensures var r := HandlePlus(GlobalContext, types, true, n, Simple("i32"), Simple("float"));
      r.Ok? && r.value.kind.op == "fadd" && r.value.kind.left.implicitCastTo == Find(types, "float")
  {
    assert TypeToString(Simple("i32")) == "i32" && TypeToString(Simple("float")) == "float";
  }

  /** The same operand already cast to float is refused under `@strict`. */
  lemma StrictRefusesCast(types: map<string, TypeNode>, n: Node)
    requires n.kind.BinaryOpNode?
    requires n.kind.left.implicitCastTo == Some(Simple("float"))
    ensures HandlePlus(GlobalContext, types, true, n, Simple("i32"), Simple("float")) ==
      Fail("Implicit type casting is not allowed for '+' in @strict mode: i32 and float")
  {
    assert TypeToString(Simple("i32")) == "i32" && TypeToString(Simple("float")) == "float";
    assert "i32" != "string" && "float" != "string" && "i32" != "float";
    assert CastToFloat(n.kind.left);
    assert HandlePlus(GlobalContext, types, true, n, Simple("i32"), Simple("float")) ==
      FloatBranch(types, true, n.kind.left, n.kind.right, "i32", "float", "+", "fadd", "float");
  }

  /**
   * `+` of strings: outside `@strict`, a string on either side concatenates with
   * `scat` typed string, the string side unchanged and the other side as
   * `toStringHandler` converts it; under `@strict` only two strings are accepted.
   */
  lemma PlusStrings(ctx: Context, types: map<string, TypeNode>, strict: bool, n: Node, lt: TypeNode, rt: TypeNode)
    requires n.kind.BinaryOpNode?
    requires TypeToString(lt) == "string" || TypeToString(rt) == "string"
    ensures var ls, rs := TypeToString(lt), TypeToString(rt);
      var r := HandlePlus(ctx, types, strict, n, lt, rt);
      && (strict && !(ls == "string" && rs == "string") ==> r.Err?)
      && (r.Ok? ==>
            && r.value.kind.BinaryOpNode? && r.value.kind.op == "scat" && r.value.inferredType == Find(types, "string")
            && r.value.kind.left == (if ls == "string" then n.kind.left else ToStringHandler(ctx, types, n.kind.left).value)
            && r.value.kind.right == (if rs == "string" then n.kind.right else ToStringHandler(ctx, types, n.kind.right).value))
      && (!strict && ls == "string" && rs == "string" ==> r.Ok?)
  {
  }

  /**
   * `+` of non-strings agrees with `-` on which operands it accepts and on the result
   * type; it differs only in the instruction (`fadd`/`add`).
   */
  lemma PlusLikeMinus(ctx: Context, types: map<string, TypeNode>, strict: bool, n: Node, lt: TypeNode, rt: TypeNode)
    requires n.kind.BinaryOpNode?
    requires TypeToString(lt) != "string" && TypeToString(rt) != "string"
    ensures var p := HandlePlus(ctx, types, strict, n, lt, rt);
      var m := HandleArith(Minus, types, strict, n, lt, rt);
      && (p.Ok? <==> m.Ok?)
      && (p.Ok? ==> p.value.inferredType == m.value.inferredType && p.value.kind.left == m.value.kind.left
                    && p.value.kind.right == m.value.kind.right)
      && (p.Ok? ==> p.value.kind.op == (if m.value.kind.op == "fsub" then "fadd" else "add"))
  {
  }

  /**
   * Every accepted comparison is typed i1 and its instruction is the comparison suffix
   * of its operator behind `strcmp_`, `fcmp_` or `icmp_`, by operand types; an
   * operator without a suffix is refused whatever the operands.
   */
  lemma CompareSpec(ctx: Context, types: map<string, TypeNode>, strict: bool, n: Node, lt: TypeNode, rt: TypeNode)
    requires n.kind.BinaryOpNode?
    ensures var ls, rs := TypeToString(lt), TypeToString(rt);
      var r := HandleCompare(ctx, types, strict, n, lt, rt);
      var cmp := CmpOp(n.kind.op);
      && (cmp == "" ==> r == Fail("Unknown comparison operator: " + n.kind.op))
      && (r.Ok? ==>
            && cmp != ""
            && r.value.inferredType == Find(types, "i1") && r.value.kind.BinaryOpNode?
            && r.value.kind.op == (if ls == "string" || rs == "string" then "strcmp_" + cmp
                                   else if ls == "float" || rs == "float" then "fcmp_" + cmp
                                   else "icmp_" + cmp))
  {
  }

  /** Outside strings, a known comparison accepts exactly the operands arithmetic accepts. */
  lemma CompareAccepts(ctx: Context, types: map<string, TypeNode>, strict: bool, n: Node, lt: TypeNode, rt: TypeNode)
    requires n.kind.BinaryOpNode? && CmpOp(n.kind.op) != ""
    requires TypeToString(lt) != "string" && TypeToString(rt) != "string"
    ensures HandleCompare(ctx, types, strict, n, lt, rt).Ok? <==>
      ArithAccepts(strict, n.kind.left, n.kind.right, TypeToString(lt), TypeToString(rt))
  {
  }

  /** A string comparison wraps each non-string side in a `toString_int` call, left as it is by the visit. */
  lemma CompareStrings(ctx: Context, types: map<string, TypeNode>, strict: bool, n: Node, lt: TypeNode)
    requires n.kind.BinaryOpNode? && n.kind.op == "<"
    requires TypeToString(lt) != "string"
    ensures HandleCompare(ctx, types, strict, n, lt, Simple("string")) ==
      Ok(Node(BinaryOpNode(Plain(CallNode("toString_int", [n.kind.left])), "strcmp_slt", n.kind.right), Find(types, "i1"), None))
  {
    assert TypeToString(Simple("string")) == "string";
    assert CmpOp("<") == "slt";
    assert "strcmp_" + "slt" == "strcmp_slt";
    var call := Plain(CallNode("toString_int", [n.kind.left]));
    assert VisitExpr(ctx, types, call) == Ok(call);
  }

  /** A logical operator succeeds exactly for two i1 operands under `and` or `or`, and keeps the operator. */
  lemma LogicalIff(types: map<string, TypeNode>, n: Node, lt: TypeNode, rt: TypeNode)
    requires n.kind.BinaryOpNode?
    ensures var r := HandleLogical(types, n, lt, rt);
      && (r.Ok? <==> TypeToString(lt) == "i1" && TypeToString(rt) == "i1" && n.kind.op in {"and", "or"})
      && (r.Ok? ==> r.value.kind == n.kind && r.value.inferredType == Find(types, "i1")
                    && r.value.implicitCastTo == Find(types, "i1"))
  {
  }
}
