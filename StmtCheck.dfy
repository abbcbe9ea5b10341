/**
 * The checker's statement visits, as functions of the checker state (the stack of
 * scopes and the registered structs): a program or block visits its statements in
 * order; a function declaration checks its name and parameters, registers itself and
 * checks its body in a scope of its own; a struct registers itself after checking its
 * body in an empty scope; a declaration, a `return` and a reassignment check their
 * expression against the innermost scope. Every other node is visited as an
 * expression. An `Err` is the exception that aborts the check.
 */
module StmtCheck {
  import opened Wrappers
  import opened Ast
  import opened TypeRules
  import opened Scopes
  import opened ExprCheck
  import opened Collections

  // ---------------------------------------------------------------------------------
  // What a visit may change
  // ---------------------------------------------------------------------------------

  /**
   * Scope `d` is scope `c` after some visits: the same function name and return type,
   * every variable and function still declared, and a `return` once seen still seen.
   */
  predicate ScopeExtends(c: Context, d: Context)
  {
    && c.currentFunctionName == d.currentFunctionName && c.returnType == d.returnType
    && c.variables.Keys <= d.variables.Keys && c.functions.Keys <= d.functions.Keys
    && (c.returnedValue ==> d.returnedValue)
  }

  /** State `b` is state `a` after some visits: as many scopes, each extended, and no struct forgotten. */
  predicate Extends(a: State, b: State)
  {
    && |a.contexts| == |b.contexts|
    && a.structs.Keys <= b.structs.Keys
    && forall k :: 0 <= k < |a.contexts| ==> ScopeExtends(a.contexts[k], b.contexts[k])
  }

  lemma ExtendsTrans(a: State, b: State, c: State)
    requires Extends(a, b) && Extends(b, c)
    ensures Extends(a, c)
  {
  }

  // ---------------------------------------------------------------------------------
  // Programs and blocks
  // ---------------------------------------------------------------------------------

  /** The statements a program or a block visits. */
  function Body(n: Node): seq<Node>
    requires n.kind.ProgramNode? || n.kind.BlockNode?
  {
    if n.kind.ProgramNode? then n.kind.body else n.kind.statements
  }

  /** The program or block with its statements replaced. */
  function WithBody(n: Node, ss: seq<Node>): (r: Node)
    requires n.kind.ProgramNode? || n.kind.BlockNode?
    ensures (r.kind.ProgramNode? || r.kind.BlockNode?) && Body(r) == ss
    ensures r.inferredType == n.inferredType && r.implicitCastTo == n.implicitCastTo
  {
    if n.kind.ProgramNode? then n.(kind := ProgramNode(ss, n.kind.moduleName)) else n.(kind := BlockNode(ss))
  }

  /**
   * The dispatch of `accept`: the statement visits of this module, and the expression
   * visits (in the innermost scope) for everything else.
   */
  function VisitStmt(st: State, types: map<string, TypeNode>, n: Node): (r: Result<(State, Node)>)
    requires |st.contexts| > 0
    ensures r.Ok? ==> Extends(st, r.value.0)
    decreases n, 1
  {
    if n.kind.ProgramNode? || n.kind.BlockNode? then
      var b :- VisitBody(st, types, n, 0);
      Ok((b.0, WithBody(n, b.1)))
    else if n.kind.FunctionNode? then VisitFunction(st, types, n)
    else if n.kind.StructNode? then VisitStruct(st, types, n)
    else if n.kind.VariableAssignNode? then VisitAssign(st, types, n)
    else if n.kind.ReturnNode? then VisitReturn(st, types, n)
    else if n.kind.VariableReassignNode? then VisitReassign(st, types, n)
    else
      var e :- VisitExpr(Top(st), types, n);
      Ok((st, e))
  }

  /** The statements of `n` from `i` on, each visited in the state the previous one left. */
  function VisitBody(st: State, types: map<string, TypeNode>, n: Node, i: nat): (r: Result<(State, seq<Node>)>)
    requires |st.contexts| > 0
    requires (n.kind.ProgramNode? || n.kind.BlockNode?) && i <= |Body(n)|
    ensures r.Ok? ==> Extends(st, r.value.0) && |r.value.1| == |Body(n)| - i
    decreases n, 0, |Body(n)| - i
  {
    if i == |Body(n)| then Ok((st, []))
    else
      var a :- VisitStmt(st, types, Body(n)[i]);
      var rest :- VisitBody(a.0, types, n, i + 1);
      ExtendsTrans(st, a.0, rest.0);
      Ok((rest.0, [a.1] + rest.1))
  }

  // ---------------------------------------------------------------------------------
  // Function declarations
  // ---------------------------------------------------------------------------------

  /**
   * The parameter loop: each parameter's type is visited and its name must not be a
   * variable of the enclosing scope; the names map to their types, a later parameter
   * of the same name replacing an earlier one.
   */
  function CheckParams(types: map<string, TypeNode>, scope: Context, params: seq<Param>, i: nat,
                       args: map<string, TypeNode>): (r: Result<map<string, TypeNode>>)
    requires i <= |params|
    decreases |params| - i
  {
    if i == |params| then Ok(args)
    else
      var _ :- VisitType(types, params[i].paramType);
      if params[i].paramName in scope.variables then Fail("Parameter already defined: " + params[i].paramName)
      else CheckParams(types, scope, params, i + 1, args[params[i].paramName := params[i].paramType])
  }

  /** The parameters as variables: each with its type and no initializer. */
  function ParamVariables(args: map<string, TypeNode>): map<string, Variable>
  {
    map p | p in args :: Variable(p, false, args[p], None)
  }

  /**
   * The scope a function's body is checked in: the enclosing scope's variables with
   * the parameters over them, the enclosing scope's functions as they were before
   * this one was registered, the function's name and return type, no `return` yet.
   */
  function FunctionScope(top: Context, f: NodeKind, args: map<string, TypeNode>): Context
    requires f.FunctionNode?
  {
    Context(top.variables + ParamVariables(args), top.functions, f.name, Some(f.returnType), false)
  }

  /** The state with the innermost scope removed. */
  function Pop(st: State): (r: State)
    requires |st.contexts| > 0
    ensures |r.contexts| == |st.contexts| - 1 && r.structs == st.structs
  {
    st.(contexts := st.contexts[..|st.contexts| - 1])
  }

  /** The state with scope `c` pushed. */
  function Push(st: State, c: Context): (r: State)
    ensures |r.contexts| == |st.contexts| + 1 && Top(r) == c && r.structs == st.structs
    ensures Pop(r) == st
  {
    st.(contexts := st.contexts + [c])
  }

  /**
   * `visit(FunctionNode)`: a name already among the innermost scope's functions is
   * refused (with the "global" message when the global scope has it too); a method
   * needs its struct and the global scope. After the parameters, the function is
   * registered in the innermost scope (which is the global one when the stack holds
   * only it), its body is checked in `FunctionScope`, and a function that is not
   * `void` must have seen a `return`. The node gets its return type as inferred type.
   */
  function VisitFunction(st: State, types: map<string, TypeNode>, n: Node): (r: Result<(State, Node)>)
    requires |st.contexts| > 0 && n.kind.FunctionNode?
    ensures r.Ok? ==> Extends(st, r.value.0)
    decreases n, 0, 1
  {
    var f := n.kind;
    var top := Top(st);
    if f.name in top.functions then
      if f.name in st.contexts[0].functions then Fail("Function already defined in global context: " + f.name)
      else Fail("Function already defined: " + f.name)
    else if f.associated != "" && f.associated !in st.structs then Fail("Struct not found: " + f.associated)
    else if f.associated != "" && |st.contexts| != 1 then
      Fail("Function " + f.name + " cannot be defined in a non-global context")
    else
      var args :- CheckParams(types, top, f.parameters, 0, map[]);
      EnterFunction(st, types, n, args)
  }

  /**
   * The rest of `visit(FunctionNode)` once the parameters are checked: registration,
   * the body in `FunctionScope`, the missing-`return` check, and the scope dropped.
   */
  function EnterFunction(st: State, types: map<string, TypeNode>, n: Node, args: map<string, TypeNode>): (r: Result<(State, Node)>)
    requires |st.contexts| > 0 && n.kind.FunctionNode?
    ensures r.Ok? ==> Extends(st, r.value.0)
    decreases n, 0, 0
  {
    var f := n.kind;
    var top := Top(st);
    var registered := SetTop(st, top.(functions := top.functions[f.name := n]));
    var b :- VisitStmt(Push(registered, FunctionScope(top, f, args)), types, f.fnBody);
    if !Top(b.0).returnedValue && TypeToString(f.returnType) != "void" then
      Fail("Function " + f.name + " must return a value of type " + TypeToString(f.returnType))
    else
      var after := Pop(b.0);
      RegisterExtends(st, f.name, n);
      PopExtends(registered, FunctionScope(top, f, args), b.0);
      ExtendsTrans(st, registered, after);
      Ok((after, n.(kind := f.(fnBody := b.1), inferredType := Some(f.returnType))))
  }

  /** Registering a function in the innermost scope extends the state. */
  lemma RegisterExtends(st: State, name: string, n: Node)
    requires |st.contexts| > 0
    ensures Extends(st, SetTop(st, Top(st).(functions := Top(st).functions[name := n])))
  {
    var r := SetTop(st, Top(st).(functions := Top(st).functions[name := n]));
    forall k | 0 <= k < |st.contexts|
      ensures ScopeExtends(st.contexts[k], r.contexts[k])
    {
      if k < |st.contexts| - 1 {
        assert r.contexts[k] == r.contexts[..|r.contexts| - 1][k];
      }
    }
  }

  /** Whatever a pushed scope went through, popping it leaves an extension of the state it was pushed on. */
  lemma PopExtends(st: State, c: Context, b: State)
    requires Extends(Push(st, c), b)
    ensures Extends(st, Pop(b))
  {
    forall k | 0 <= k < |st.contexts|
      ensures ScopeExtends(st.contexts[k], Pop(b).contexts[k])
    {
      assert Push(st, c).contexts[k] == st.contexts[k];
    }
  }

  // ---------------------------------------------------------------------------------
  // Struct declarations
  // ---------------------------------------------------------------------------------

  /** The scope a struct's body is checked in: empty, named after the struct, no return type. */
  function StructScope(name: string): Context
  {
    Context(map[], map[], name, None, false)
  }

  /**
   * `visit(StructNode)`: a registered name is refused; a block body has its statements
   * visited in `StructScope`; then the struct is registered with its visited body.
   */
  function VisitStruct(st: State, types: map<string, TypeNode>, n: Node): (r: Result<(State, Node)>)
    requires |st.contexts| > 0 && n.kind.StructNode?
    ensures r.Ok? ==> Extends(st, r.value.0)
    decreases n, 0
  {
    var name := n.kind.structName;
    var body := n.kind.structBody;
    if name in st.structs then Fail("Struct already defined: " + name)
    else
      var inner := Push(st, StructScope(name));
      var b :- if body.kind.BlockNode? then VisitBody(inner, types, body, 0) else Ok((inner, []));
      var body1 := if body.kind.BlockNode? then WithBody(body, b.1) else body;
      var after := Pop(b.0);
      Ok((after.(structs := after.structs[name := Plain(StructNode(name, body1))]), n.(kind := StructNode(name, body1))))
  }

  // ---------------------------------------------------------------------------------
  // Declarations
  // ---------------------------------------------------------------------------------

  /** Operators whose result is a truth value, as the declaration checks recognise them. */
  predicate IsLogicalOrCompare(e: Node)
  {
    e.kind.BinaryOpNode? &&
    (e.kind.op == "and" || e.kind.op == "or" || StartsWith(e.kind.op, "icmp_") || StartsWith(e.kind.op, "fcmp_"))
  }

  /**
   * `getType`: a number literal gives its inferred type; `and`, `or`, `==`, `!=` and
   * the `icmp_`/`fcmp_` instructions, and every unary operator, give i1; anything else
   * gives `t`.
   */
  function GetType(e: Node, t: string): (r: Result<string>)
  {
    if e.kind.NumberNode? then
      if e.inferredType.None? then Crash() else Ok(TypeToString(e.inferredType.value))
    else if e.kind.BinaryOpNode? then
      var op := e.kind.op;
      if op == "and" || op == "or" || op == "==" || op == "!=" || StartsWith(op, "icmp_") || StartsWith(op, "fcmp_")
      then Ok("i1") else Ok(t)
    else if e.kind.UnaryOpNode? then Ok("i1")
    else Ok(t)
  }

  /**
   * The type an `auto` declaration with a collection literal gets from the literal's
   * first entry: `map<key, value>` for a key-value pair (key and value visited),
   * otherwise `array<element>` (the element visited). The visited entry replaces the
   * first one.
   */
  function AutoCollectionType(ctx: Context, types: map<string, TypeNode>, e: Node): (r: Result<(TypeNode, Node)>)
    requires e.kind.BlockNode?
    ensures r.Ok? ==> r.value.1.kind.BlockNode? && |r.value.1.kind.statements| == |e.kind.statements|
    ensures |e.kind.statements| == 0 ==> r == Crash()
    ensures r.Ok? ==>
      var first := e.kind.statements[0];
      var s1 := r.value.1.kind.statements[0];
      && r.value.1.kind.statements[1..] == e.kind.statements[1..]
      && (first.kind.KeyValueNode? ==>
            && s1.kind.KeyValueNode? && s1.kind.keyName == first.kind.keyName
            && VisitExpr(ctx, types, first.kind.key) == Ok(s1.kind.key)
            && VisitExpr(ctx, types, first.kind.kvValue) == Ok(s1.kind.kvValue)
            && s1.kind.key.inferredType.Some? && s1.kind.kvValue.inferredType.Some?
            && r.value.0 == GenericTypeNode("map", [s1.kind.key.inferredType.value, s1.kind.kvValue.inferredType.value]))
      && (!first.kind.KeyValueNode? ==>
            && VisitExpr(ctx, types, first) == Ok(s1) && s1.inferredType.Some?
            && r.value.0 == GenericTypeNode("array", [s1.inferredType.value]))
  {
    if |e.kind.statements| == 0 then Crash()
    else
      var s := e.kind.statements[0];
      if s.kind.KeyValueNode? then
        var k :- VisitExpr(ctx, types, s.kind.key);
        var v :- VisitExpr(ctx, types, s.kind.kvValue);
        if k.inferredType.None? || v.inferredType.None? then Crash()
        else
          var s1 := s.(kind := KeyValueNode(k, v, s.kind.keyName));
          Ok((GenericTypeNode("map", [k.inferredType.value, v.inferredType.value]),
              e.(kind := BlockNode(e.kind.statements[0 := s1]))))
      else
        var s1 :- VisitExpr(ctx, types, s);
        if s1.inferredType.None? then Crash()
        else Ok((GenericTypeNode("array", [s1.inferredType.value]), e.(kind := BlockNode(e.kind.statements[0 := s1]))))
  }

  /** Whether a type string names a collection (`starts_with("array")` or `"map"`). */
  predicate IsCollection(s: string)
  {
    StartsWith(s, "array") || StartsWith(s, "map")
  }

  /** A type string whose first letter is neither `a` nor `m` is no collection. */
  lemma NotCollection(s: string)
    requires |s| > 0 && s[0] != 'a' && s[0] != 'm'
    ensures !IsCollection(s)
  {
    if |s| >= 5 {
      assert s[..5][0] == s[0];
    }
    if |s| >= 3 {
      assert s[..3][0] == s[0];
    }
  }

  /**
   * The declaration of a non-collection variable of type `t` (`auto` when `isAuto`):
   * the initializer is visited; a logical or comparison instruction needs an i1 (or
   * `auto`) variable, a string a string (or `auto`) one; `auto` takes the type the
   * initializer is used at, as `getType` refines it; an i1 variable needs `getType` to
   * say i1. No other type is compared.
   */
  function AssignScalar(ctx: Context, types: map<string, TypeNode>, t: TypeNode, e: Node, isAuto: bool): (r: Result<(TypeNode, Node)>)
  {
    var e1 :- VisitExpr(ctx, types, e);
    if e1.inferredType.None? then Crash()
    else
      var es := TypeToString(e1.inferredType.value);
      var ts := TypeToString(t);
      if es != "none" && es != "string" && ts != "i1" && ts != "auto" && IsLogicalOrCompare(e1) then
        Fail("Type mismatch: expected i1, got " + es)
      else if es == "string" && ts != "string" && ts != "auto" then
        Fail("Type mismatch: expected " + ts + ", got string")
      else if isAuto then
        var used := if e1.implicitCastTo.Some? then TypeToString(e1.implicitCastTo.value) else es;
        var g :- GetType(e1, used);
        Ok((Simple(g), e1))
      else if ts == "i1" then
        var g :- GetType(e1, ts);
        if g != "i1" then Fail("Type mismatch: expected i1, got " + es) else Ok((t, e1))
      else Ok((t, e1))
  }

  /**
   * `visit(VariableAssignNode)`: the name must be new to the innermost scope, the type
   * must be known and not none, null or void; an `auto` collection literal first gets
   * its type from its first entry; collection types are checked by
   * `validateCollectionElements`, others by `AssignScalar`. The variable is then
   * declared in the innermost scope with the resulting type and initializer.
   */
  function VisitAssign(st: State, types: map<string, TypeNode>, n: Node): (r: Result<(State, Node)>)
    requires |st.contexts| > 0 && n.kind.VariableAssignNode?
    ensures r.Ok? ==> Extends(st, r.value.0)
  {
    var a := n.kind;
    var top := Top(st);
    if a.varName in top.variables then Fail("Variable already defined: " + a.varName)
    else
      var _ :- VisitType(types, a.varType);
      var vs := TypeToString(a.varType);
      var isAuto := vs == "auto";
      if vs == "none" || vs == "null" || vs == "void" then Fail("Type cannot be " + vs)
      else
        var typed :- if isAuto && a.expression.kind.BlockNode? then AutoCollectionType(top, types, a.expression)
                     else Ok((a.varType, a.expression));
        var checked :- if IsCollection(TypeToString(typed.0)) then Validate(top, types, typed.0, typed.1, isAuto)
                       else AssignScalar(top, types, typed.0, typed.1, isAuto);
        var v := Variable(a.varName, a.isConst, checked.0, Some(checked.1));
        Ok((SetTop(st, top.(variables := top.variables[a.varName := v])),
            n.(kind := VariableAssignNode(a.varName, a.isConst, checked.0, checked.1))))
  }

  // ---------------------------------------------------------------------------------
  // return
  // ---------------------------------------------------------------------------------

  /**
   * `visit(ReturnNode)`: only inside a function (a scope with a name); the returned
   * expression's type must equal the return type, except that `null` may be returned
   * from a `void` function; the scope records that it returned.
   */
  function VisitReturn(st: State, types: map<string, TypeNode>, n: Node): (r: Result<(State, Node)>)
    requires |st.contexts| > 0 && n.kind.ReturnNode?
    ensures r.Ok? ==> Extends(st, r.value.0)
  {
    var top := Top(st);
    if top.currentFunctionName == "" then Fail("Return statement outside of function")
    else
      var e1 :- VisitExpr(top, types, n.kind.returned);
      if top.returnType.None? || e1.inferredType.None? then Crash()
      else
        var expected := TypeToString(top.returnType.value);
        var actual := TypeToString(e1.inferredType.value);
        if actual != expected && !(actual == "null" && expected == "void") then
          Fail("Return type mismatch: expected " + expected + ", got " + actual)
        else Ok((SetTop(st, top.(returnedValue := true)), n.(kind := ReturnNode(e1))))
  }

  // ---------------------------------------------------------------------------------
  // Reassignment
  // ---------------------------------------------------------------------------------

  /**
   * The reassignment of a collection variable of type `t`: the literal is validated,
   * then its first entry is compared with the type's parameters; the result is the
   * validated type, the type string of the literal, and the validated literal.
   */
  function ReassignCollection(ctx: Context, types: map<string, TypeNode>, t: TypeNode, e: Node): (r: Result<(TypeNode, string, Node)>)
    ensures r.Ok? ==> Validate(ctx, types, t, e, false) == Ok((r.value.0, r.value.2)) && LiteralTypeString(r.value.2) == Ok(r.value.1)
  {
    var p :- Validate(ctx, types, t, e, false);
    var t1 := p.0;
    var e1 := p.1;
    if !e1.kind.BlockNode? || |e1.kind.statements| == 0 || !t1.GenericTypeNode? || |t1.typeParameters| == 0 then Crash()
    else
      var s := e1.kind.statements[0];
      var expectedFirst := TypeToString(t1.typeParameters[0]);
      if s.kind.KeyValueNode? then
        if s.kind.key.inferredType.None? || s.kind.kvValue.inferredType.None? then Crash()
        else
          var ks := TypeToString(s.kind.key.inferredType.value);
          var vs := TypeToString(s.kind.kvValue.inferredType.value);
          if ks != expectedFirst then Fail("Key type mismatch: expected " + expectedFirst + ", got " + ks)
          else if |t1.typeParameters| < 2 then Crash()
          else if vs != TypeToString(t1.typeParameters[1]) then
            Fail("Value type mismatch: expected " + TypeToString(t1.typeParameters[1]) + ", got " + vs)
          else Ok((t1, "map<" + ks + ", " + vs + ">", e1))
      else if s.inferredType.None? then Crash()
      else
        var es := TypeToString(s.inferredType.value);
        if es != expectedFirst then Fail("Element type mismatch: expected " + expectedFirst + ", got " + es)
        else Ok((t1, "array<" + es + ">", e1))
  }

  /**
   * The reassignment of any other variable of type string `vs`: the expression is
   * visited, its type is the one it is used at as `getType` refines it, and a logical
   * or comparison instruction needs an i1 variable.
   */
  function ReassignScalar(ctx: Context, types: map<string, TypeNode>, t: TypeNode, e: Node): (r: Result<(TypeNode, string, Node)>)
    ensures r.Ok? ==> r.value.0 == t && VisitExpr(ctx, types, e) == Ok(r.value.2) && ValueTypeString(r.value.2) == Ok(r.value.1)
    ensures VisitExpr(ctx, types, e).Ok? && ValueTypeString(VisitExpr(ctx, types, e).value).Ok? &&
            !IsLogicalOrCompare(VisitExpr(ctx, types, e).value) ==>
              r == Ok((t, ValueTypeString(VisitExpr(ctx, types, e).value).value, VisitExpr(ctx, types, e).value))
  {
    var e1 :- VisitExpr(ctx, types, e);
    if e1.inferredType.None? then Crash()
    else
      var es := TypeToString(e1.inferredType.value);
      var vs := TypeToString(t);
      if es == "none" || es == "string" then Ok((t, es, e1))
      else
        var used := if e1.implicitCastTo.Some? then TypeToString(e1.implicitCastTo.value) else es;
        var g :- GetType(e1, used);
        if vs != "i1" && IsLogicalOrCompare(e1) then Fail("Type mismatch: expected i1, got " + g)
        else Ok((t, g, e1))
  }

  /**
   * The type string a collection literal is compared at after validation: `map<K, V>`
   * from the types of its first pair, otherwise `array<T>` from its first element.
   */
  function LiteralTypeString(e: Node): Result<string>
  {
    if !e.kind.BlockNode? || |e.kind.statements| == 0 then Crash()
    else
      var s := e.kind.statements[0];
      if s.kind.KeyValueNode? then
        if s.kind.key.inferredType.None? || s.kind.kvValue.inferredType.None? then Crash()
        else Ok("map<" + TypeToString(s.kind.key.inferredType.value) + ", " + TypeToString(s.kind.kvValue.inferredType.value) + ">")
      else if s.inferredType.None? then Crash()
      else Ok("array<" + TypeToString(s.inferredType.value) + ">")
  }

  /**
   * The type string any other visited value is compared at: `none` and `string` as
   * they are; otherwise the type the value is used at (its implicit cast, if any, else
   * its inferred type) as `getType` refines it.
   */
  function ValueTypeString(e: Node): Result<string>
  {
    if e.inferredType.None? then Crash()
    else
      var es := TypeToString(e.inferredType.value);
      if es == "none" || es == "string" then Ok(es)
      else GetType(e, if e.implicitCastTo.Some? then TypeToString(e.implicitCastTo.value) else es)
  }

  /**
   * `visit(VariableReassignNode)`: the variable must be declared in the innermost
   * scope; the new value's type string must equal the variable's; the variable then
   * holds the new value (its type as the collection check left it). Whether the
   * variable is constant is not consulted.
   */
  function VisitReassign(st: State, types: map<string, TypeNode>, n: Node): (r: Result<(State, Node)>)
    requires |st.contexts| > 0 && n.kind.VariableReassignNode?
    ensures r.Ok? ==> Extends(st, r.value.0)
  {
    var name := n.kind.target;
    var top := Top(st);
    if name !in top.variables then Fail("Variable not found: " + name)
    else
      var x := top.variables[name];
      var vs := TypeToString(x.varType);
      var res :- if IsCollection(vs) then ReassignCollection(top, types, x.varType, n.kind.reassigned)
                 else ReassignScalar(top, types, x.varType, n.kind.reassigned);
      if res.1 != vs then Fail("Type mismatch: expected " + vs + ", got " + res.1)
      else
        var x1 := x.(varType := res.0, expression := Some(res.2));
        Ok((SetTop(st, top.(variables := top.variables[name := x1])), n.(kind := VariableReassignNode(name, res.2))))
  }

  // ---------------------------------------------------------------------------------
  // Properties of the statement visits
  // ---------------------------------------------------------------------------------

  /**
   * The parameter loop succeeds exactly when every parameter's type is known and no
   * parameter is named like a variable of the enclosing scope.
   */
  lemma {:induction false} CheckParamsOkIff(types: map<string, TypeNode>, scope: Context, params: seq<Param>, i: nat,
                                            args: map<string, TypeNode>)
    requires i <= |params|
    ensures CheckParams(types, scope, params, i, args).Ok? <==>
      forall k :: i <= k < |params| ==> Known(types, params[k].paramType) && params[k].paramName !in scope.variables
    decreases |params| - i
  {
    if i < |params| {
      VisitTypeOkIff(types, params[i].paramType);
      CheckParamsOkIff(types, scope, params, i + 1, args[params[i].paramName := params[i].paramType]);
    }
  }

  /** The names a successful parameter loop maps: the ones it started with and the parameters' names. */
  lemma {:induction false} CheckParamsKeys(types: map<string, TypeNode>, scope: Context, params: seq<Param>, i: nat,
                                           args: map<string, TypeNode>)
    requires i <= |params|
    ensures var r := CheckParams(types, scope, params, i, args);
      r.Ok? ==> r.value.Keys == args.Keys + (set k | i <= k < |params| :: params[k].paramName)
    decreases |params| - i
  {
    if i < |params| {
      var p := params[i];
      CheckParamsKeys(types, scope, params, i + 1, args[p.paramName := p.paramType]);
      assert (set k | i <= k < |params| :: params[k].paramName) ==
             {p.paramName} + (set k | i + 1 <= k < |params| :: params[k].paramName);
    }
  }

  /** After a successful parameter loop, each parameter name maps to the type of its last occurrence. */
  lemma {:induction false} CheckParamsLastWins(types: map<string, TypeNode>, scope: Context, params: seq<Param>, i: nat,
                                               args: map<string, TypeNode>)
    requires i <= |params|
    ensures var r := CheckParams(types, scope, params, i, args);
      r.Ok? ==> forall k :: i <= k < |params| && LastOccurrence(params, k) ==>
        params[k].paramName in r.value && r.value[params[k].paramName] == params[k].paramType
    decreases |params| - i
  {
    if i < |params| {
      var p := params[i];
      var args' := args[p.paramName := p.paramType];
      CheckParamsLastWins(types, scope, params, i + 1, args');
      if LastOccurrence(params, i) {
        CheckParamsKeepsUnnamed(types, scope, params, i + 1, args', p.paramName);
      }
    }
  }

  /** A name no remaining parameter has keeps the type it had when the loop reached `i`. */
  lemma {:induction false} CheckParamsKeepsUnnamed(types: map<string, TypeNode>, scope: Context, params: seq<Param>, i: nat,
                                                   args: map<string, TypeNode>, name: string)
    requires i <= |params| && name in args
    requires forall j :: i <= j < |params| ==> params[j].paramName != name
    ensures var r := CheckParams(types, scope, params, i, args);
      r.Ok? ==> name in r.value && r.value[name] == args[name]
    decreases |params| - i
  {
    if i < |params| {
      CheckParamsKeepsUnnamed(types, scope, params, i + 1, args[params[i].paramName := params[i].paramType], name);
    }
  }

  /** No later parameter has the name of parameter `k`. */
  predicate LastOccurrence(params: seq<Param>, k: int)
    requires 0 <= k < |params|
  {
    forall j :: k < j < |params| ==> params[j].paramName != params[k].paramName
  }

  /**
   * What a successful function declaration guarantees about its input: the name was
   * new to the innermost scope; a method's struct was registered and the declaration
   * is global; every parameter type is known and no parameter shadows a variable of
   * the enclosing scope.
   */
  lemma FunctionGuards(st: State, types: map<string, TypeNode>, n: Node)
    requires |st.contexts| > 0 && n.kind.FunctionNode?
    ensures var f := n.kind; var r := VisitFunction(st, types, n);
      r.Ok? ==>
        && f.name !in Top(st).functions
        && (f.associated != "" ==> f.associated in st.structs && |st.contexts| == 1)
        && (forall k :: 0 <= k < |f.parameters| ==>
              Known(types, f.parameters[k].paramType) && f.parameters[k].paramName !in Top(st).variables)
  {
    var f := n.kind;
    if VisitFunction(st, types, n).Ok? {
      assert CheckParams(types, Top(st), f.parameters, 0, map[]).Ok?;
      CheckParamsOkIff(types, Top(st), f.parameters, 0, map[]);
    }
  }

  /** A function that passes its checks is registered in the scope it was declared in and typed by its return type. */
  lemma FunctionDeclared(st: State, types: map<string, TypeNode>, n: Node)
    requires |st.contexts| > 0 && n.kind.FunctionNode?
    ensures var r := VisitFunction(st, types, n);
      r.Ok? ==> n.kind.name in Top(r.value.0).functions && r.value.1.inferredType == Some(n.kind.returnType)
  {
    var f := n.kind;
    var r := VisitFunction(st, types, n);
    if r.Ok? {
      var cp := CheckParams(types, Top(st), f.parameters, 0, map[]);
      assert cp.Ok?;
      assert r == EnterFunction(st, types, n, cp.value);
      EnterFunctionRegisters(st, types, n, cp.value);
    }
  }

  /** Once its body is checked, a function stays declared in the scope it was registered in. */
  lemma EnterFunctionRegisters(st: State, types: map<string, TypeNode>, n: Node, args: map<string, TypeNode>)
    requires |st.contexts| > 0 && n.kind.FunctionNode?
    ensures var r := EnterFunction(st, types, n, args);
      r.Ok? ==> n.kind.name in Top(r.value.0).functions && r.value.1.inferredType == Some(n.kind.returnType)
  {
    var f := n.kind;
    var top := Top(st);
    var r := EnterFunction(st, types, n, args);
    if r.Ok? {
      var registered := SetTop(st, top.(functions := top.functions[f.name := n]));
      var b := VisitStmt(Push(registered, FunctionScope(top, f, args)), types, f.fnBody).value.0;
      PopExtends(registered, FunctionScope(top, f, args), b);
      assert r.value.0 == Pop(b);
      assert ScopeExtends(registered.contexts[|st.contexts| - 1], Pop(b).contexts[|st.contexts| - 1]);
    }
  }

  /**
   * The missing-`return` check, for any function: when its body is checked without an
   * error, the declaration fails exactly when the body's scope saw no `return` and the
   * return type is not `void`, and then with "must return a value of type"; an error in
   * the body is the declaration's error.
   */
  lemma MissingReturnRule(st: State, types: map<string, TypeNode>, n: Node, args: map<string, TypeNode>)
    requires |st.contexts| > 0 && n.kind.FunctionNode?
    ensures var f := n.kind; var top := Top(st);
      var registered := SetTop(st, top.(functions := top.functions[f.name := n]));
      var b := VisitStmt(Push(registered, FunctionScope(top, f, args)), types, f.fnBody);
      var r := EnterFunction(st, types, n, args);
      && (b.Err? ==> r == Err(b.msg))
      && (b.Ok? ==> (r.Ok? <==> Top(b.value.0).returnedValue || TypeToString(f.returnType) == "void"))
      && (b.Ok? && !Top(b.value.0).returnedValue && TypeToString(f.returnType) != "void" ==>
            r == Fail("Function " + f.name + " must return a value of type " + TypeToString(f.returnType)))
  {
  }

  /**
   * A function whose body is an empty block: refused for a missing `return` unless it
   * returns `void`, in which case it is simply registered.
   */
  lemma EmptyBodyNeedsVoid(st: State, types: map<string, TypeNode>, n: Node)
    requires |st.contexts| > 0 && n.kind.FunctionNode?
    requires n.kind.name !in Top(st).functions && n.kind.associated == "" && n.kind.parameters == []
    requires n.kind.fnBody == Plain(BlockNode([]))
    ensures var f := n.kind; var top := Top(st);
      VisitFunction(st, types, n) ==
        if TypeToString(f.returnType) == "void" then
          Ok((SetTop(st, top.(functions := top.functions[f.name := n])), n.(inferredType := Some(f.returnType))))
        else Fail("Function " + f.name + " must return a value of type " + TypeToString(f.returnType))
  {
    var f := n.kind;
    var top := Top(st);
    var registered := SetTop(st, top.(functions := top.functions[f.name := n]));
    var inner := Push(registered, FunctionScope(top, f, map[]));
    assert VisitBody(inner, types, f.fnBody, 0) == Ok((inner, []));
    assert VisitStmt(inner, types, f.fnBody) == Ok((inner, f.fnBody));
    assert n.(kind := f.(fnBody := f.fnBody)) == n;
  }

  /** A `return` is refused in the global scope, whatever it returns. */
  lemma ReturnOutsideFunction(structs: map<string, Node>, types: map<string, TypeNode>, n: Node)
    requires n.kind.ReturnNode?
    ensures VisitStmt(State([GlobalContext], structs), types, n) == Fail("Return statement outside of function")
  {
  }

  /**
   * A `return` inside a function is accepted exactly when its expression visits and its
   * type string is the return type's, or is `null` in a `void` function; it then marks
   * the innermost scope as returned and changes nothing else.
   */
  lemma ReturnSpec(st: State, types: map<string, TypeNode>, n: Node)
    requires |st.contexts| > 0 && n.kind.ReturnNode?
    requires Top(st).currentFunctionName != "" && Top(st).returnType.Some?
    ensures var r := VisitReturn(st, types, n);
      var e := VisitExpr(Top(st), types, n.kind.returned);
      var expected := TypeToString(Top(st).returnType.value);
      && (e.Err? ==> r == Err(e.msg))
      && (e.Ok? && e.value.inferredType.Some? ==>
           (r.Ok? <==> (TypeToString(e.value.inferredType.value) == expected ||
                        (TypeToString(e.value.inferredType.value) == "null" && expected == "void"))))
      && (r.Ok? ==> r.value.0 == SetTop(st, Top(st).(returnedValue := true)) &&
                    r.value.1 == n.(kind := ReturnNode(e.value)))
  {
  }

  /**
   * Integer literals keep the width the parser gave them: `return 5` (an i8 literal)
   * from an i32 function is a type mismatch.
   */
  lemma ReturnLiteralWidth(types: map<string, TypeNode>)
    requires forall t :: t in types ==> types[t] == Simple(t)
    requires "i8" in types && "i32" in types
    ensures var fn := Context(map[], map[], "f", Some(Simple("i32")), false);
      VisitStmt(State([GlobalContext, fn], map[]), types, Plain(ReturnNode(Plain(NumberNode(5, Simple("i8")))))) ==
        Fail("Return type mismatch: expected i32, got i8")
  {
    var lit := Plain(NumberNode(5, Simple("i8")));
    var fn := Context(map[], map[], "f", Some(Simple("i32")), false);
    var st := State([GlobalContext, fn], map[]);
    var n := Plain(ReturnNode(lit));
    assert Top(st) == fn;
    assert VisitExpr(fn, types, lit) == Ok(lit.(inferredType := Some(Simple("i8"))));
    assert VisitReturn(st, types, n) == Fail("Return type mismatch: expected " + "i32" + ", got " + "i8");
  }

  /**
   * A reassignment never consults whether the variable is constant: a constant string
   * variable takes a new string literal, and stays constant.
   */
  lemma ReassignIgnoresConst(st: State, types: map<string, TypeNode>, name: string, text: string)
    requires |st.contexts| > 0 && name in Top(st).variables
    requires Top(st).variables[name].isConst && Top(st).variables[name].varType == Simple("string")
    requires "string" in types && types["string"] == Simple("string")
    ensures var r := VisitStmt(st, types, Plain(VariableReassignNode(name, Plain(StringNode(text)))));
      r.Ok? && Top(r.value.0).variables[name].isConst
  {
    NotCollection("string");
  }

  /**
   * A successful reassignment keeps the variable's declaration (name and constness),
   * stores the new value as its initializer, and changes no other variable.
   */
  lemma ReassignSpec(st: State, types: map<string, TypeNode>, n: Node)
    requires |st.contexts| > 0 && n.kind.VariableReassignNode?
    ensures var r := VisitReassign(st, types, n); var name := n.kind.target;
      r.Ok? ==>
        && name in Top(st).variables
        && Top(r.value.0).variables.Keys == Top(st).variables.Keys
        && Top(r.value.0).variables[name].name == Top(st).variables[name].name
        && Top(r.value.0).variables[name].isConst == Top(st).variables[name].isConst
        && Top(r.value.0).variables[name].expression == Some(r.value.1.kind.reassigned)
        && (forall v :: v in Top(st).variables && v != name ==> Top(r.value.0).variables[v] == Top(st).variables[v])
        && r.value.0.contexts[..|st.contexts| - 1] == st.contexts[..|st.contexts| - 1]
        && (var vs := TypeToString(Top(st).variables[name].varType);
            var e1 := r.value.1.kind.reassigned;
            (if IsCollection(vs) then LiteralTypeString(e1) else ValueTypeString(e1)) == Ok(vs))
  {
  }

  /**
   * A scalar reassignment whose value visits and is compared at a type string other
   * than the variable's is refused with "Type mismatch" (a logical or comparison
   * instruction may be refused earlier, for not being i1).
   */
  lemma ReassignMismatch(st: State, types: map<string, TypeNode>, n: Node)
    requires |st.contexts| > 0 && n.kind.VariableReassignNode?
    ensures var name := n.kind.target; var r := VisitReassign(st, types, n);
      var e := VisitExpr(Top(st), types, n.kind.reassigned);
      name in Top(st).variables && e.Ok? && ValueTypeString(e.value).Ok? ==>
        var vs := TypeToString(Top(st).variables[name].varType);
        var g := ValueTypeString(e.value).value;
        !IsCollection(vs) && g != vs ==>
          && r.Err?
          && (!IsLogicalOrCompare(e.value) ==> r == Fail("Type mismatch: expected " + vs + ", got " + g))
  {
  }

  /**
   * A successful declaration: the name was new to the innermost scope, its type is
   * known and is none of none, null and void; the variable is declared with the type
   * and initializer the checks produced, and nothing else changes.
   */
  lemma AssignDeclares(st: State, types: map<string, TypeNode>, n: Node)
    requires |st.contexts| > 0 && n.kind.VariableAssignNode?
    ensures var a := n.kind; var r := VisitAssign(st, types, n);
      r.Ok? ==>
        && a.varName !in Top(st).variables
        && Known(types, a.varType)
        && TypeToString(a.varType) !in {"none", "null", "void"}
        && r.value.1.kind.VariableAssignNode? && r.value.1.kind.varName == a.varName && r.value.1.kind.isConst == a.isConst
        && r.value.0 == SetTop(st, Top(st).(variables := Top(st).variables[a.varName :=
             Variable(a.varName, a.isConst, r.value.1.kind.varType, Some(r.value.1.kind.expression))]))
        && (TypeToString(a.varType) == "i1" ==> GetType(r.value.1.kind.expression, "i1") == Ok("i1"))
  {
    VisitTypeOkIff(types, n.kind.varType);
    if TypeToString(n.kind.varType) == "i1" {
      NotCollection("i1");
    }
  }

  /**
   * An `auto` declaration initialised by a collection literal takes its type from the
   * literal's first entry (`AutoCollectionType`); the literal so typed is then validated
   * as an `auto` collection, and the variable is declared with what validation gives.
   */
  lemma AutoCollectionDeclares(st: State, types: map<string, TypeNode>, n: Node)
    requires |st.contexts| > 0 && n.kind.VariableAssignNode?
    requires TypeToString(n.kind.varType) == "auto" && n.kind.expression.kind.BlockNode?
    ensures var r := VisitAssign(st, types, n); var ac := AutoCollectionType(Top(st), types, n.kind.expression);
      r.Ok? ==>
        && ac.Ok?
        && Validate(Top(st), types, ac.value.0, ac.value.1, true) == Ok((r.value.1.kind.varType, r.value.1.kind.expression))
  {
    var r := VisitAssign(st, types, n);
    var ac := AutoCollectionType(Top(st), types, n.kind.expression);
    if r.Ok? {
      assert ac.Ok?;
      var b := ac.value.0.baseName;
      var ts := TypeToString(ac.value.0);
      assert ts == b + "<" + ParamsToString(ac.value.0, 0) + ">";
      assert IsCollection(ts) by {
        assert ts[..|b|] == b;
      }
    }
  }

  /**
   * A declaration whose initializer visits to a string is refused unless the declared
   * type is `string` or `auto`.
   */
  lemma StringInitializerRefused(st: State, types: map<string, TypeNode>, n: Node)
    requires |st.contexts| > 0 && n.kind.VariableAssignNode?
    ensures var a := n.kind; var vs := TypeToString(a.varType);
      var e := VisitExpr(Top(st), types, a.expression);
      a.varName !in Top(st).variables && Known(types, a.varType) && vs !in {"none", "null", "void", "string", "auto"} &&
      !IsCollection(vs) && e.Ok? && e.value.inferredType.Some? && TypeToString(e.value.inferredType.value) == "string" ==>
        VisitAssign(st, types, n) == Fail("Type mismatch: expected " + vs + ", got string")
  {
    VisitTypeOkIff(types, n.kind.varType);
  }

  /**
   * An i1 declaration whose initializer visits to a type other than string succeeds
   * exactly when `getType` calls the initializer i1.
   */
  lemma I1DeclarationIff(st: State, types: map<string, TypeNode>, n: Node)
    requires |st.contexts| > 0 && n.kind.VariableAssignNode? && TypeToString(n.kind.varType) == "i1"
    ensures var a := n.kind; var e := VisitExpr(Top(st), types, a.expression);
      a.varName !in Top(st).variables && Known(types, a.varType) &&
      e.Ok? && e.value.inferredType.Some? && TypeToString(e.value.inferredType.value) != "string" ==>
        (VisitAssign(st, types, n).Ok? <==> GetType(e.value, "i1") == Ok("i1"))
  {
    VisitTypeOkIff(types, n.kind.varType);
    NotCollection("i1");
  }

  /**
   * Declared scalar types are not compared with the initializer's: `x: i32 = 2.5` is
   * accepted and `x` keeps type i32.
   */
  lemma ScalarDeclarationUnchecked(st: State, types: map<string, TypeNode>)
    requires |st.contexts| > 0 && "x" !in Top(st).variables
    requires forall t :: t in types ==> types[t] == Simple(t)
    requires "i32" in types && "float" in types
    ensures var n := Plain(VariableAssignNode("x", false, Simple("i32"), Plain(FloatNumberNode("2.5"))));
      var r := VisitStmt(st, types, n);
      r.Ok? && "x" in Top(r.value.0).variables && Top(r.value.0).variables["x"].varType == Simple("i32")
  {
    var e := Plain(FloatNumberNode("2.5"));
    var n := Plain(VariableAssignNode("x", false, Simple("i32"), e));
    assert VisitExpr(Top(st), types, e) == Ok(e.(inferredType := Some(Simple("float"))));
    NotCollection("i32");
    assert VisitType(types, Simple("i32")) == Ok(());
    assert AssignScalar(Top(st), types, Simple("i32"), e, false) == Ok((Simple("i32"), e.(inferredType := Some(Simple("float")))));
  }

  /**
   * A comparison initializer is left untyped by the expression visit (only `+` is
   * typed there), so `b: i1 = 1 < 2` dereferences a null type.
   */
  lemma ComparisonInitializerUndefined(st: State, types: map<string, TypeNode>)
    requires |st.contexts| > 0 && "b" !in Top(st).variables
    requires "i1" in types && "i8" in types
    ensures var one := Plain(NumberNode(1, Simple("i1"))); var two := Plain(NumberNode(2, Simple("i8")));
      var n := Plain(VariableAssignNode("b", false, Simple("i1"), Plain(BinaryOpNode(one, "<", two))));
      VisitStmt(st, types, n) == Crash()
  {
    var one := Plain(NumberNode(1, Simple("i1")));
    var two := Plain(NumberNode(2, Simple("i8")));
    var e := Plain(BinaryOpNode(one, "<", two));
    var one1 := one.(inferredType := Some(types["i1"]));
    var two1 := two.(inferredType := Some(types["i8"]));
    assert VisitExpr(Top(st), types, one) == Ok(one1);
    assert VisitExpr(Top(st), types, two) == Ok(two1);
    assert CheckForIdentifier(Top(st), one1).Ok? && CheckForIdentifier(Top(st), two1).Ok?;
    assert VisitExpr(Top(st), types, e) == Ok(e.(kind := BinaryOpNode(one1, "<", two1)));
    assert VisitType(types, Simple("i1")) == Ok(());
    NotCollection("i1");
    assert AssignScalar(Top(st), types, Simple("i1"), e, false) == Crash();
  }

  /**
   * `getType` recognises what the comparison handler emits for numbers (`icmp_`,
   * `fcmp_`) but not for strings: a `strcmp_` comparison keeps the type it is given.
   */
  lemma GetTypeOfComparisons(l: Node, r: Node, t: string, suffix: string)
    ensures GetType(Plain(BinaryOpNode(l, "icmp_" + suffix, r)), t) == Ok("i1")
    ensures GetType(Plain(BinaryOpNode(l, "fcmp_" + suffix, r)), t) == Ok("i1")
    ensures GetType(Plain(BinaryOpNode(l, "strcmp_" + suffix, r)), t) == Ok(t)
  {
    assert ("icmp_" + suffix)[..5] == "icmp_";
    assert ("fcmp_" + suffix)[..5] == "fcmp_";
    assert ("strcmp_" + suffix)[..5] == "strcm";
  }

  /** A struct declaration registers a new name with its visited body and leaves the scopes' number unchanged. */
  lemma StructDeclared(st: State, types: map<string, TypeNode>, n: Node)
    requires |st.contexts| > 0 && n.kind.StructNode?
    ensures var r := VisitStruct(st, types, n); var name := n.kind.structName;
      && (name in st.structs ==> r == Fail("Struct already defined: " + name))
      && (r.Ok? ==> name !in st.structs && st.structs.Keys + {name} <= r.value.0.structs.Keys &&
                    r.value.0.structs[name] == Plain(r.value.1.kind) && r.value.1.kind.StructNode? &&
                    r.value.1.kind.structName == name)
  {
  }
}
