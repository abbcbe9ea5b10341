/**
 * `TypeSymbolVisitor` as an object: its stack of scopes and its registry are fields,
 * and each visit updates them in place, as the checker does. Every visit is proved to
 * do what the functions of `StmtCheck` say, so the properties proved there hold of it.
 */
module Checker {
  import opened Wrappers
  import opened Ast
  import opened Scopes
  import opened ExprCheck
  import opened Collections
  import opened StmtCheck
  import opened Register
  import opened BuiltIn

  /** The checker's errors for a visit that did not complete, and its result otherwise. */
  function Glue(done: seq<Node>, r: Result<(State, seq<Node>)>): Result<(State, seq<Node>)>
  {
    if r.Ok? then Ok((r.value.0, done + r.value.1)) else r
  }

  class TypeSymbolVisitor {
    /** The stack of scopes; the global scope at the bottom. */
    var contexts: seq<Context>
    /** The registry of built-in types and functions and of the user's structs. */
    const registry: Registry

    /** The state the statement visits of `StmtCheck` work on. */
    function Snapshot(): State
      reads this, registry
    {
      State(contexts, registry.userStructs)
    }

    /** Only the user's structs may change in the registry. */
    twostate predicate RegistryKept()
      reads this, registry
    {
      && registry.builtinTypes == old(registry.builtinTypes)
      && registry.builtinFunctions == old(registry.builtinFunctions)
      && registry.userClasses == old(registry.userClasses)
    }

    /**
     * The constructor: a single global scope that is empty, unnamed and has no return
     * type, and a fresh registry holding the built-in types and functions.
     */
    constructor ()
      ensures contexts == [GlobalContext] && fresh(registry)
      ensures registry.builtinTypes == AddFirstTypes(map[], BuiltinTypeNames, |BuiltinTypeNames|)
      ensures registry.builtinFunctions == AddFirst(map[], BuiltinFunctions, |BuiltinFunctions|)
      ensures registry.userStructs == map[] && registry.userClasses == map[]
    {
      contexts := [GlobalContext];
      registry := new Registry();
      new;
      RegisterBuiltInTypes(registry);
      RegisterBuiltInFunctions(registry);
    }

    /** `accept`: the visit of any node, with the effect `StmtCheck.VisitStmt` describes. */
    method Visit(n: Node) returns (r: Result<Node>)
      requires |contexts| > 0
      modifies this, registry
      ensures RegistryKept()
      ensures var spec := VisitStmt(old(Snapshot()), registry.builtinTypes, n);
        && (r.Ok? <==> spec.Ok?)
        && (r.Ok? ==> Snapshot() == spec.value.0 && r.value == spec.value.1)
        && (r.Err? ==> r.msg == spec.msg)
      decreases n, 2
    {
      if n.kind.ProgramNode? || n.kind.BlockNode? {
        r := VisitSequence(n);
      } else if n.kind.FunctionNode? {
        r := VisitFunctionNode(n);
      } else if n.kind.StructNode? {
        r := VisitStructNode(n);
      } else {
        r := VisitLeaf(n);
      }
    }

    /** `accept` on a node whose visit does not visit statements: a declaration, a `return`, a reassignment or an expression. */
    method VisitLeaf(n: Node) returns (r: Result<Node>)
      requires |contexts| > 0
      requires !(n.kind.ProgramNode? || n.kind.BlockNode? || n.kind.FunctionNode? || n.kind.StructNode?)
      modifies this
      ensures RegistryKept() && registry.userStructs == old(registry.userStructs)
      ensures var spec := VisitStmt(old(Snapshot()), registry.builtinTypes, n);
        && (r.Ok? <==> spec.Ok?)
        && (r.Ok? ==> Snapshot() == spec.value.0 && r.value == spec.value.1)
        && (r.Err? ==> r.msg == spec.msg)
    {
      if n.kind.VariableAssignNode? {
        r := VisitAssignNode(n);
      } else if n.kind.ReturnNode? {
        r := VisitReturnNode(n);
      } else if n.kind.VariableReassignNode? {
        r := VisitReassignNode(n);
      } else {
        r := VisitExpr(contexts[|contexts| - 1], registry.builtinTypes, n);
      }
    }

    /** `visit(ProgramNode)` and `visit(BlockNode)`: each statement in order, stopping at the first error. */
    method VisitSequence(n: Node) returns (r: Result<Node>)
      requires |contexts| > 0 && (n.kind.ProgramNode? || n.kind.BlockNode?)
      modifies this, registry
      ensures RegistryKept()
      ensures var spec := VisitBody(old(Snapshot()), registry.builtinTypes, n, 0);
        && (r.Ok? <==> spec.Ok?)
        && (r.Ok? ==> Snapshot() == spec.value.0 && r.value == WithBody(n, spec.value.1))
        && (r.Err? ==> r.msg == spec.msg)
      decreases n, 1
    {
      var types := registry.builtinTypes;
      var ss := Body(n);
      var done: seq<Node> := [];
      var i := 0;
      GlueNothing(VisitBody(Snapshot(), types, n, 0));
      while i < |ss|
        invariant 0 <= i <= |ss| && |contexts| > 0
        invariant RegistryKept() && registry.builtinTypes == types
        invariant VisitBody(old(Snapshot()), types, n, 0) == Glue(done, VisitBody(Snapshot(), types, n, i))
      {
        ghost var before := Snapshot();
        var s := Visit(ss[i]);
        if s.Err? {
          return Err(s.msg);
        }
        assert VisitBody(before, types, n, i) == Glue([s.value], VisitBody(Snapshot(), types, n, i + 1));
        GlueTwice(done, [s.value], VisitBody(Snapshot(), types, n, i + 1));
        done := done + [s.value];
        i := i + 1;
      }
      r := Ok(WithBody(n, done));
    }

    /** `visit(FunctionNode)`: checks, parameters, registration, then the body in a scope of its own. */
    method VisitFunctionNode(n: Node) returns (r: Result<Node>)
      requires |contexts| > 0 && n.kind.FunctionNode?
      modifies this, registry
      ensures RegistryKept()
      ensures var spec := StmtCheck.VisitFunction(old(Snapshot()), registry.builtinTypes, n);
        && (r.Ok? <==> spec.Ok?)
        && (r.Ok? ==> Snapshot() == spec.value.0 && r.value == spec.value.1)
        && (r.Err? ==> r.msg == spec.msg)
      decreases n, 1
    {
      var types := registry.builtinTypes;
      var f := n.kind;
      var top := contexts[|contexts| - 1];
      if f.name in top.functions {
        if f.name in contexts[0].functions {
          return Fail("Function already defined in global context: " + f.name);
        }
        return Fail("Function already defined: " + f.name);
      }
      if f.associated != "" {
        if registry.FindStruct(f.associated).None? {
          return Fail("Struct not found: " + f.associated);
        }
        if |contexts| != 1 {
          return Fail("Function " + f.name + " cannot be defined in a non-global context");
        }
      }
      var checked := CheckParameters(types, top, f.parameters);
      if checked.Err? {
        return Err(checked.msg);
      }
      r := EnterFunctionNode(n, checked.value);
    }

    /** The registration of the function, its body in a scope of its own, and the missing-`return` check. */
    method EnterFunctionNode(n: Node, args: map<string, TypeNode>) returns (r: Result<Node>)
      requires |contexts| > 0 && n.kind.FunctionNode?
      modifies this, registry
      ensures RegistryKept()
      ensures var spec := EnterFunction(old(Snapshot()), registry.builtinTypes, n, args);
        && (r.Ok? <==> spec.Ok?)
        && (r.Ok? ==> Snapshot() == spec.value.0 && r.value == spec.value.1)
        && (r.Err? ==> r.msg == spec.msg)
      decreases n, 0
    {
      var f := n.kind;
      var top := contexts[|contexts| - 1];
      ghost var registered := SetTop(Snapshot(), top.(functions := top.functions[f.name := n]));
      contexts := contexts[|contexts| - 1 := top.(functions := top.functions[f.name := n])];
      assert Snapshot() == registered;
      contexts := contexts + [FunctionScope(top, f, args)];
      assert Snapshot() == Push(registered, FunctionScope(top, f, args));
      var b := Visit(f.fnBody);
      if b.Err? {
        return Err(b.msg);
      }
      if !contexts[|contexts| - 1].returnedValue && TypeToString(f.returnType) != "void" {
        return Fail("Function " + f.name + " must return a value of type " + TypeToString(f.returnType));
      }
      contexts := contexts[..|contexts| - 1];
      r := Ok(n.(kind := f.(fnBody := b.value), inferredType := Some(f.returnType)));
    }

    /** `visit(StructNode)`: the body's statements in a scope of its own, then the registration. */
    method VisitStructNode(n: Node) returns (r: Result<Node>)
      requires |contexts| > 0 && n.kind.StructNode?
      modifies this, registry
      ensures RegistryKept()
      ensures var spec := StmtCheck.VisitStruct(old(Snapshot()), registry.builtinTypes, n);
        && (r.Ok? <==> spec.Ok?)
        && (r.Ok? ==> Snapshot() == spec.value.0 && r.value == spec.value.1)
        && (r.Err? ==> r.msg == spec.msg)
      decreases n, 1
    {
      var name := n.kind.structName;
      var body := n.kind.structBody;
      if registry.FindStruct(name).Some? {
        return Fail("Struct already defined: " + name);
      }
      contexts := contexts + [StructScope(name)];
      var body1 := body;
      if body.kind.BlockNode? {
        var b := VisitSequence(body);
        if b.Err? {
          return Err(b.msg);
        }
        body1 := b.value;
      }
      registry.AddStruct(name, Plain(StructNode(name, body1)));
      contexts := contexts[..|contexts| - 1];
      r := Ok(n.(kind := StructNode(name, body1)));
    }

    /** `visit(VariableAssignNode)`: the checks of `StmtCheck.VisitAssign`, then the declaration in the innermost scope. */
    method VisitAssignNode(n: Node) returns (r: Result<Node>)
      requires |contexts| > 0 && n.kind.VariableAssignNode?
      modifies this
      ensures RegistryKept() && registry.userStructs == old(registry.userStructs)
      ensures var spec := StmtCheck.VisitAssign(old(Snapshot()), registry.builtinTypes, n);
        && (r.Ok? <==> spec.Ok?)
        && (r.Ok? ==> Snapshot() == spec.value.0 && r.value == spec.value.1)
        && (r.Err? ==> r.msg == spec.msg)
    {
      var types := registry.builtinTypes;
      var a := n.kind;
      var top := contexts[|contexts| - 1];
      if a.varName in top.variables {
        return Fail("Variable already defined: " + a.varName);
      }
      var known := VisitType(types, a.varType);
      if known.Err? {
        return Err(known.msg);
      }
      var vs := TypeToString(a.varType);
      var isAuto := vs == "auto";
      if vs == "none" || vs == "null" || vs == "void" {
        return Fail("Type cannot be " + vs);
      }
      var t, e := a.varType, a.expression;
      if isAuto && e.kind.BlockNode? {
        var typed := AutoCollectionType(top, types, e);
        if typed.Err? {
          return Err(typed.msg);
        }
        t, e := typed.value.0, typed.value.1;
      }
      var checked := if IsCollection(TypeToString(t)) then Validate(top, types, t, e, isAuto)
                     else AssignScalar(top, types, t, e, isAuto);
      if checked.Err? {
        return Err(checked.msg);
      }
      var v := Variable(a.varName, a.isConst, checked.value.0, Some(checked.value.1));
      contexts := contexts[|contexts| - 1 := top.(variables := top.variables[a.varName := v])];
      r := Ok(n.(kind := VariableAssignNode(a.varName, a.isConst, checked.value.0, checked.value.1)));
    }

    /** `visit(ReturnNode)`: the type check, then the innermost scope records the `return`. */
    method VisitReturnNode(n: Node) returns (r: Result<Node>)
      requires |contexts| > 0 && n.kind.ReturnNode?
      modifies this
      ensures RegistryKept() && registry.userStructs == old(registry.userStructs)
      ensures var spec := StmtCheck.VisitReturn(old(Snapshot()), registry.builtinTypes, n);
        && (r.Ok? <==> spec.Ok?)
        && (r.Ok? ==> Snapshot() == spec.value.0 && r.value == spec.value.1)
        && (r.Err? ==> r.msg == spec.msg)
    {
      var top := contexts[|contexts| - 1];
      if top.currentFunctionName == "" {
        return Fail("Return statement outside of function");
      }
      var e := VisitExpr(top, registry.builtinTypes, n.kind.returned);
      if e.Err? {
        return Err(e.msg);
      }
      if top.returnType.None? || e.value.inferredType.None? {
        return Crash();
      }
      var expected := TypeToString(top.returnType.value);
      var actual := TypeToString(e.value.inferredType.value);
      if actual != expected && !(actual == "null" && expected == "void") {
        return Fail("Return type mismatch: expected " + expected + ", got " + actual);
      }
      contexts := contexts[|contexts| - 1 := top.(returnedValue := true)];
      r := Ok(n.(kind := ReturnNode(e.value)));
    }

    /** `visit(VariableReassignNode)`: the type check, then the variable holds the new value. */
    method VisitReassignNode(n: Node) returns (r: Result<Node>)
      requires |contexts| > 0 && n.kind.VariableReassignNode?
      modifies this
      ensures RegistryKept() && registry.userStructs == old(registry.userStructs)
      ensures var spec := StmtCheck.VisitReassign(old(Snapshot()), registry.builtinTypes, n);
        && (r.Ok? <==> spec.Ok?)
        && (r.Ok? ==> Snapshot() == spec.value.0 && r.value == spec.value.1)
        && (r.Err? ==> r.msg == spec.msg)
    {
      var types := registry.builtinTypes;
      var name := n.kind.target;
      var top := contexts[|contexts| - 1];
      if name !in top.variables {
        return Fail("Variable not found: " + name);
      }
      var x := top.variables[name];
      var vs := TypeToString(x.varType);
      var res := if IsCollection(vs) then ReassignCollection(top, types, x.varType, n.kind.reassigned)
                 else ReassignScalar(top, types, x.varType, n.kind.reassigned);
      if res.Err? {
        return Err(res.msg);
      }
      if res.value.1 != vs {
        return Fail("Type mismatch: expected " + vs + ", got " + res.value.1);
      }
      var x1 := x.(varType := res.value.0, expression := Some(res.value.2));
      contexts := contexts[|contexts| - 1 := top.(variables := top.variables[name := x1])];
      r := Ok(n.(kind := VariableReassignNode(name, res.value.2)));
    }
  }

  /** The parameter loop of `visit(FunctionNode)`, with the outcome `StmtCheck.CheckParams` describes. */
  method CheckParameters(types: map<string, TypeNode>, top: Context, params: seq<Param>) returns (r: Result<map<string, TypeNode>>)
    ensures r == CheckParams(types, top, params, 0, map[])
  {
    var args: map<string, TypeNode> := map[];
    var i := 0;
    while i < |params|
      invariant 0 <= i <= |params|
      invariant CheckParams(types, top, params, 0, map[]) == CheckParams(types, top, params, i, args)
    {
      var p := params[i];
      var known := VisitType(types, p.paramType);
      if known.Err? {
        return Err(known.msg);
      }
      if p.paramName in top.variables {
        return Fail("Parameter already defined: " + p.paramName);
      }
      args := args[p.paramName := p.paramType];
      i := i + 1;
    }
    r := Ok(args);
  }

  /** Gluing nothing changes nothing. */
  lemma GlueNothing(r: Result<(State, seq<Node>)>)
    ensures Glue([], r) == r
  {
    if r.Ok? {
      assert [] + r.value.1 == r.value.1;
    }
  }

  /** Gluing two finished prefixes one after the other is gluing their concatenation. */
  lemma GlueTwice(a: seq<Node>, b: seq<Node>, r: Result<(State, seq<Node>)>)
    ensures Glue(a, Glue(b, r)) == Glue(a + b, r)
  {
    if r.Ok? {
      assert a + (b + r.value.1) == (a + b) + r.value.1;
    }
  }
}
