/**
 * The language's built-in functions and types as they are put into the registry
 * before checking starts.
 */
module BuiltIn {
  import opened Wrappers
  import opened Ast
  import opened Register
  import Text

  /** Parameters `arg1`, `arg2`, ... of the given simple types, in order. */
  function Params(typeNames: seq<string>): (r: seq<Param>)
    ensures |r| == |typeNames|
    ensures forall k :: 0 <= k < |r| ==> r[k].paramType == Simple(typeNames[k])
  {
    seq(|typeNames|, k requires 0 <= k < |typeNames| => Param(Simple(typeNames[k]), "arg" + Text.NatToString(k + 1)))
  }

  /** A built-in: no associated name, no body. */
  function Builtin(name: string, returnTypeName: string, typeNames: seq<string>): FunctionSig
  {
    FunctionSig(name, "", Simple(returnTypeName), Params(typeNames))
  }

  const EchoSig := Builtin("echo", "void", ["string", "i32", "i64", "float", "bool", "null", "none"])
  const LenSig := Builtin("len", "i32", ["string", "array", "map"])
  const ExitSig := Builtin("exit", "void", ["i32"])
  const AssertSig := Builtin("assert", "void", ["bool"])
  const ToStringSig := Builtin("toString", "string", ["i32", "i64", "float", "bool", "null", "none"])
  const ToIntSig := Builtin("toInt", "i32", ["string", "float"])
  const ToFloatSig := Builtin("toFloat", "float", ["string", "i32", "i64"])

  /** The built-in functions in registration order. */
  const BuiltinFunctions: seq<FunctionSig> := [EchoSig, LenSig, ExitSig, AssertSig, ToStringSig, ToIntSig, ToFloatSig]

  /** The table after registering the first `n` of `sigs` in order, each under its own name. */
  function AddFirst(table: map<string, seq<FunctionSig>>, sigs: seq<FunctionSig>, n: nat): map<string, seq<FunctionSig>>
    requires n <= |sigs|
  {
    if n == 0 then table
    else AddOverload(AddFirst(table, sigs, n - 1), sigs[n - 1].name, sigs[n - 1])
  }

  /** The names of the built-in types, in registration order. */
  const BuiltinTypeNames: seq<string> := ["i1", "i8", "i16", "i32", "i64", "float", "string", "null", "none", "auto", "array", "map"]

  /** The types after registering the first `n` names, each as the simple type of its own name. */
  function AddFirstTypes(types: map<string, TypeNode>, names: seq<string>, n: nat): map<string, TypeNode>
    requires n <= |names|
  {
    if n == 0 then types
    else AddFirstTypes(types, names, n - 1)[names[n - 1] := Simple(names[n - 1])]
  }

  /** `registerBuiltInFunctions`: the seven built-ins, one overload each, in order. */
  method RegisterBuiltInFunctions(registry: Registry)
    modifies registry
    ensures registry.builtinFunctions == AddFirst(old(registry.builtinFunctions), BuiltinFunctions, |BuiltinFunctions|)
    ensures registry.builtinTypes == old(registry.builtinTypes)
    ensures registry.userStructs == old(registry.userStructs) && registry.userClasses == old(registry.userClasses)
  {
    ghost var t0 := registry.builtinFunctions;
    registry.AddBuiltinFunction("echo", EchoSig);
    assert registry.builtinFunctions == AddFirst(t0, BuiltinFunctions, 1);
    registry.AddBuiltinFunction("len", LenSig);
    assert registry.builtinFunctions == AddFirst(t0, BuiltinFunctions, 2);
    registry.AddBuiltinFunction("exit", ExitSig);
    assert registry.builtinFunctions == AddFirst(t0, BuiltinFunctions, 3);
    registry.AddBuiltinFunction("assert", AssertSig);
    assert registry.builtinFunctions == AddFirst(t0, BuiltinFunctions, 4);
    registry.AddBuiltinFunction("toString", ToStringSig);
    assert registry.builtinFunctions == AddFirst(t0, BuiltinFunctions, 5);
    registry.AddBuiltinFunction("toInt", ToIntSig);
    assert registry.builtinFunctions == AddFirst(t0, BuiltinFunctions, 6);
    registry.AddBuiltinFunction("toFloat", ToFloatSig);
    assert registry.builtinFunctions == AddFirst(t0, BuiltinFunctions, 7);
  }

  /** `registerBuiltInTypes`: the twelve type names, each as its own simple type. */
  method RegisterBuiltInTypes(registry: Registry)
    modifies registry
    ensures registry.builtinTypes == AddFirstTypes(old(registry.builtinTypes), BuiltinTypeNames, |BuiltinTypeNames|)
    ensures registry.builtinFunctions == old(registry.builtinFunctions)
    ensures registry.userStructs == old(registry.userStructs) && registry.userClasses == old(registry.userClasses)
  {
    ghost var t0 := registry.builtinTypes;
    registry.AddBuiltinType("i1", Simple("i1"));
    assert registry.builtinTypes == AddFirstTypes(t0, BuiltinTypeNames, 1);
    registry.AddBuiltinType("i8", Simple("i8"));
    assert registry.builtinTypes == AddFirstTypes(t0, BuiltinTypeNames, 2);
    registry.AddBuiltinType("i16", Simple("i16"));
    assert registry.builtinTypes == AddFirstTypes(t0, BuiltinTypeNames, 3);
    registry.AddBuiltinType("i32", Simple("i32"));
    assert registry.builtinTypes == AddFirstTypes(t0, BuiltinTypeNames, 4);
    registry.AddBuiltinType("i64", Simple("i64"));
    assert registry.builtinTypes == AddFirstTypes(t0, BuiltinTypeNames, 5);
    registry.AddBuiltinType("float", Simple("float"));
    assert registry.builtinTypes == AddFirstTypes(t0, BuiltinTypeNames, 6);
    registry.AddBuiltinType("string", Simple("string"));
    assert registry.builtinTypes == AddFirstTypes(t0, BuiltinTypeNames, 7);
    registry.AddBuiltinType("null", Simple("null"));
    assert registry.builtinTypes == AddFirstTypes(t0, BuiltinTypeNames, 8);
    registry.AddBuiltinType("none", Simple("none"));
    assert registry.builtinTypes == AddFirstTypes(t0, BuiltinTypeNames, 9);
    registry.AddBuiltinType("auto", Simple("auto"));
    assert registry.builtinTypes == AddFirstTypes(t0, BuiltinTypeNames, 10);
    registry.AddBuiltinType("array", Simple("array"));
    assert registry.builtinTypes == AddFirstTypes(t0, BuiltinTypeNames, 11);
    registry.AddBuiltinType("map", Simple("map"));
    assert registry.builtinTypes == AddFirstTypes(t0, BuiltinTypeNames, 12);
  }

  // ---------------------------------------------------------------------------------
  // What a fresh registry holds after registration
  // ---------------------------------------------------------------------------------

  /** Registering types adds exactly their names, each mapped to its own simple type, and leaves other entries alone. */
  lemma {:induction false} AddFirstTypesSpec(types: map<string, TypeNode>, names: seq<string>, n: nat)
    requires n <= |names|
    ensures forall t :: t in AddFirstTypes(types, names, n) <==> t in types || t in names[..n]
    ensures forall t :: t in AddFirstTypes(types, names, n) && t !in names[..n] ==> AddFirstTypes(types, names, n)[t] == types[t]
    ensures forall t :: t in names[..n] ==> AddFirstTypes(types, names, n)[t] == Simple(t)
  {
    if n > 0 {
      AddFirstTypesSpec(types, names, n - 1);
      assert names[..n] == names[..n - 1] + [names[n - 1]];
    }
  }

  /**
   * After registration on an empty table, the built-in types are exactly the twelve
   * names, each its own simple type: there is no `bool` and no `void`.
   */
  lemma BuiltinTypesTable()
    ensures var types := AddFirstTypes(map[], BuiltinTypeNames, |BuiltinTypeNames|);
      && (forall t :: t in types <==> t in BuiltinTypeNames)
      && (forall t :: t in types ==> types[t] == Simple(t))
      && "bool" !in types && "void" !in types
  {
    AddFirstTypesSpec(map[], BuiltinTypeNames, |BuiltinTypeNames|);
    assert BuiltinTypeNames[..|BuiltinTypeNames|] == BuiltinTypeNames;
  }

  /** The names of signatures, in order. */
  function Names(sigs: seq<FunctionSig>): (r: seq<string>)
    ensures |r| == |sigs| && forall k :: 0 <= k < |sigs| ==> r[k] == sigs[k].name
  {
    seq(|sigs|, k requires 0 <= k < |sigs| => sigs[k].name)
  }

  /** With distinct names, registering on an empty table gives each name exactly its own signature. */
  lemma {:induction false} AddFirstDistinct(sigs: seq<FunctionSig>, n: nat)
    requires n <= |sigs|
    requires forall i, j :: 0 <= i < j < |sigs| ==> sigs[i].name != sigs[j].name
    ensures forall t :: t in AddFirst(map[], sigs, n) <==> t in Names(sigs)[..n]
    ensures forall k :: 0 <= k < n ==> AddFirst(map[], sigs, n)[sigs[k].name] == [sigs[k]]
  {
    if n > 0 {
      AddFirstDistinct(sigs, n - 1);
      assert Names(sigs)[..n] == Names(sigs)[..n - 1] + [sigs[n - 1].name];
      assert sigs[n - 1].name !in Names(sigs)[..n - 1];
    }
  }

  /** The seven built-ins, after registration on an empty table, each have exactly one overload. */
  lemma BuiltinFunctionsTable()
    ensures var table := AddFirst(map[], BuiltinFunctions, |BuiltinFunctions|);
      && (forall t :: t in table <==> t in ["echo", "len", "exit", "assert", "toString", "toInt", "toFloat"])
      && (forall k :: 0 <= k < |BuiltinFunctions| ==> table[BuiltinFunctions[k].name] == [BuiltinFunctions[k]])
  {
    BuiltinNames();
    AddFirstDistinct(BuiltinFunctions, |BuiltinFunctions|);
    assert Names(BuiltinFunctions)[..|BuiltinFunctions|] == Names(BuiltinFunctions);
  }

  /** The built-ins' names, in registration order, all different. */
  lemma BuiltinNames()
    ensures Names(BuiltinFunctions) == ["echo", "len", "exit", "assert", "toString", "toInt", "toFloat"]
    ensures forall i, j :: 0 <= i < j < |BuiltinFunctions| ==> BuiltinFunctions[i].name != BuiltinFunctions[j].name
  {
    var names := Names(BuiltinFunctions);
    assert names == ["echo", "len", "exit", "assert", "toString", "toInt", "toFloat"];
  }

  /**
   * Each built-in takes all the listed types at once, so overload resolution finds
   * `echo` only for exactly seven arguments of those types, and `len` only for three:
   * a one-argument call never resolves.
   */
  lemma SingleArgumentCallsDoNotResolve(t: TypeNode)
    ensures FirstMatching([EchoSig], [t], 0).None?
    ensures FirstMatching([LenSig], [t], 0).None?
    ensures FirstMatching([ToStringSig], [t], 0).None?
    ensures FirstMatching([ExitSig], [Simple("i32")], 0) == Some(0)
  {
    assert !SameTypeStrings(EchoSig.parameters, [t]);
  }
}
