/**
 * The registry the checker consults: the built-in types by name, the built-in
 * functions by name (each name holding its overloads in registration order), and the
 * user's structs and classes by name.
 */
module Register {
  import opened Wrappers
  import opened Ast

  /**
   * A built-in function as registered: a `FunctionNode` whose body is null, so only
   * its signature is kept.
   */
  datatype FunctionSig = FunctionSig(name: string, associated: string, returnType: TypeNode, parameters: seq<Param>)

  /** Two type lists agree when they have the same length and the same renderings position by position. */
  predicate SameTypeStrings(params: seq<Param>, argTypes: seq<TypeNode>)
  {
    |params| == |argTypes| &&
    forall k :: 0 <= k < |argTypes| ==> TypeToString(params[k].paramType) == TypeToString(argTypes[k])
  }

  /** The first overload, from position `i` on, whose parameter types render like the argument types. */
  function FirstMatching(overloads: seq<FunctionSig>, argTypes: seq<TypeNode>, i: nat): (r: Option<nat>)
    requires i <= |overloads|
    ensures r.Some? ==> i <= r.value < |overloads| && SameTypeStrings(overloads[r.value].parameters, argTypes)
    ensures r.Some? ==> forall j :: i <= j < r.value ==> !SameTypeStrings(overloads[j].parameters, argTypes)
    ensures r.None? ==> forall j :: i <= j < |overloads| ==> !SameTypeStrings(overloads[j].parameters, argTypes)
    decreases |overloads| - i
  {
    if i == |overloads| then None
    else if SameTypeStrings(overloads[i].parameters, argTypes) then Some(i)
    else FirstMatching(overloads, argTypes, i + 1)
  }

  /** `addBuiltinFunction` on the table: the overload goes at the end of its name's list. */
  function AddOverload(table: map<string, seq<FunctionSig>>, name: string, f: FunctionSig): (r: map<string, seq<FunctionSig>>)
    ensures r.Keys == table.Keys + {name}
    ensures r[name] == (if name in table then table[name] else []) + [f]
    ensures forall other :: other in table && other != name ==> r[other] == table[other]
  {
    table[name := (if name in table then table[name] else []) + [f]]
  }

  class Registry {
    var builtinTypes: map<string, TypeNode>
    var builtinFunctions: map<string, seq<FunctionSig>>
    /** The `StructNode`s registered by name. */
    var userStructs: map<string, Node>
    /** The `ClassNode`s registered by name. */
    var userClasses: map<string, Node>

    constructor ()
      ensures builtinTypes == map[] && builtinFunctions == map[]
      ensures userStructs == map[] && userClasses == map[]
    {
      builtinTypes := map[];
      builtinFunctions := map[];
      userStructs := map[];
      userClasses := map[];
    }

    /** `addBuiltinType`: the name now maps to the type, replacing any earlier one. */
    method AddBuiltinType(name: string, t: TypeNode)
      modifies this
      ensures builtinTypes == old(builtinTypes)[name := t]
      ensures builtinFunctions == old(builtinFunctions)
      ensures userStructs == old(userStructs) && userClasses == old(userClasses)
    {
      builtinTypes := builtinTypes[name := t];
    }

    /** `addBuiltinFunction`: the function is appended to its name's overloads (the list is created empty on first use). */
    method AddBuiltinFunction(name: string, f: FunctionSig)
      modifies this
      ensures builtinFunctions == AddOverload(old(builtinFunctions), name, f)
      ensures builtinTypes == old(builtinTypes)
      ensures userStructs == old(userStructs) && userClasses == old(userClasses)
    {
      var overloads := if name in builtinFunctions then builtinFunctions[name] else [];
      builtinFunctions := builtinFunctions[name := overloads + [f]];
    }

    /** `addStruct`: the name now maps to the struct, replacing any earlier one. */
    method AddStruct(name: string, strct: Node)
      modifies this
      ensures userStructs == old(userStructs)[name := strct]
      ensures builtinTypes == old(builtinTypes) && builtinFunctions == old(builtinFunctions)
      ensures userClasses == old(userClasses)
    {
      userStructs := userStructs[name := strct];
    }

    /** `addClass`: the name now maps to the class, replacing any earlier one. */
    method AddClass(name: string, cls: Node)
      modifies this
      ensures userClasses == old(userClasses)[name := cls]
      ensures builtinTypes == old(builtinTypes) && builtinFunctions == old(builtinFunctions)
      ensures userStructs == old(userStructs)
    {
      userClasses := userClasses[name := cls];
    }

    /** `findType`: the registered type, or null. */
    function FindType(name: string): (r: Option<TypeNode>)
      reads this
      ensures r.Some? <==> name in builtinTypes
      ensures r.Some? ==> r.value == builtinTypes[name]
    {
      if name in builtinTypes then Some(builtinTypes[name]) else None
    }

    /** `findFunction(name)`: the first overload registered under the name, or null when there is none. */
    function FindFunction(name: string): (r: Option<FunctionSig>)
      reads this
      ensures r.Some? <==> name in builtinFunctions && builtinFunctions[name] != []
      ensures r.Some? ==> r.value == builtinFunctions[name][0]
    {
      if name in builtinFunctions && builtinFunctions[name] != [] then Some(builtinFunctions[name][0]) else None
    }

    /**
     * `findFunction(name, argTypes)`: the first overload whose parameter count equals
     * the argument count and whose parameter types render exactly like the argument
     * types, or null.
     */
    method FindFunctionFor(name: string, argTypes: seq<TypeNode>) returns (r: Option<FunctionSig>)
      ensures name !in builtinFunctions ==> r.None?
      ensures name in builtinFunctions ==>
        var m := FirstMatching(builtinFunctions[name], argTypes, 0);
        r == (if m.Some? then Some(builtinFunctions[name][m.value]) else None)
    {
      if name !in builtinFunctions {
        return None;
      }
      var overloads := builtinFunctions[name];
      var j := 0;
      while j < |overloads|
        invariant 0 <= j <= |overloads|
        invariant FirstMatching(overloads, argTypes, 0) == FirstMatching(overloads, argTypes, j)
      {
        var func := overloads[j];
        if |func.parameters| == |argTypes| {
          var matches := true;
          var i := 0;
          while i < |argTypes|
            invariant 0 <= i <= |argTypes|
            invariant matches
            invariant forall k :: 0 <= k < i ==> TypeToString(func.parameters[k].paramType) == TypeToString(argTypes[k])
          {
            if TypeToString(func.parameters[i].paramType) != TypeToString(argTypes[i]) {
              matches := false;
              break;
            }
            i := i + 1;
          }
          if matches {
            return Some(func);
          }
        }
        j := j + 1;
      }
      return None;
    }

    /** `findStruct`: the registered struct, or null. */
    function FindStruct(name: string): (r: Option<Node>)
      reads this
      ensures r.Some? <==> name in userStructs
      ensures r.Some? ==> r.value == userStructs[name]
    {
      if name in userStructs then Some(userStructs[name]) else None
    }

    /** `findClass`: the registered class, or null. */
    function FindClass(name: string): (r: Option<Node>)
      reads this
      ensures r.Some? <==> name in userClasses
      ensures r.Some? ==> r.value == userClasses[name]
    {
      if name in userClasses then Some(userClasses[name]) else None
    }
  }

  /**
   * The registry's round trip: after `addBuiltinType(name, t)`, `findType(name)` gives
   * `t`, whatever was registered before, and every other name is found as before.
   */
  method AddThenFindType(r: Registry, name: string, t: TypeNode, other: string)
    requires other != name
    modifies r
    ensures r.FindType(name) == Some(t)
    ensures r.FindType(other) == old(r.FindType(other))
    ensures r.FindFunction(other) == old(r.FindFunction(other))
  {
    r.AddBuiltinType(name, t);
  }

  /** Overloads keep registration order: the first one added under a fresh name stays first after later additions. */
  lemma FirstOverloadStays(table: map<string, seq<FunctionSig>>, name: string, f: FunctionSig, g: FunctionSig)
    requires name !in table
    ensures AddOverload(AddOverload(table, name, f), name, g)[name] == [f, g]
  {
  }

  /** Overload resolution compares renderings, so `array<i32>` never matches a parameter declared as plain `array`. */
  lemma RenderedTypesMustMatch(f: FunctionSig, inner: TypeNode)
    requires |f.parameters| == 1 && f.parameters[0].paramType == Simple("array")
    ensures !SameTypeStrings(f.parameters, [GenericTypeNode("array", [inner])])
  {
    TypeToStringShape(GenericTypeNode("array", [inner]));
    var s := TypeToString(GenericTypeNode("array", [inner]));
    assert |s| > |"array"|;
  }
}
