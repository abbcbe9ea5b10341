/**
 * The type side of the code generator's context: the type of a literal or type node,
 * the LLVM type a language type lowers to (LLVM types as an abstract enumeration), and
 * the module's function table with get-or-declare.
 */
module CodeGenTypes {
  import opened Wrappers
  import opened Ast

  /** The LLVM types the mapping can produce. */
  datatype LlvmType =
    | IntType(width: nat)
    | FloatType
    | VoidType
    | PointerToI8
    | ArrayType(element: LlvmType, length: nat)
    | OpaquePointer

  /** `getLLVMType`: integers of their width, float, void, `i8*` for string/null/auto, `[0 x T]` for `array<T>`, else an opaque pointer. */
  function LlvmTypeOf(t: TypeNode): (r: LlvmType)
    decreases t
  {
    match t
    case SimpleTypeNode(name) =>
      if name == "i1" then IntType(1)
      else if name == "i8" then IntType(8)
      else if name == "i16" then IntType(16)
      else if name == "i32" then IntType(32)
      else if name == "i64" then IntType(64)
      else if name == "float" then FloatType
      else if name == "string" then PointerToI8
      else if name == "void" then VoidType
      else if name == "null" then PointerToI8
      else if name == "auto" then PointerToI8
      else OpaquePointer
    case GenericTypeNode(base, ps) =>
      if base == "array" && |ps| == 1 then ArrayType(LlvmTypeOf(ps[0]), 0)
      else OpaquePointer
  }

  /** The integer names map to integers of exactly their width, and nothing else maps to an integer. */
  lemma IntegerTypes(t: TypeNode)
    ensures LlvmTypeOf(t).IntType? <==>
      t.SimpleTypeNode? && t.name in {"i1", "i8", "i16", "i32", "i64"}
    ensures t == Simple("i1") ==> LlvmTypeOf(t) == IntType(1)
    ensures t == Simple("i8") ==> LlvmTypeOf(t) == IntType(8)
    ensures t == Simple("i16") ==> LlvmTypeOf(t) == IntType(16)
    ensures t == Simple("i32") ==> LlvmTypeOf(t) == IntType(32)
    ensures t == Simple("i64") ==> LlvmTypeOf(t) == IntType(64)
  {
  }

  /** Exactly string, null and auto become `i8*`; exactly float becomes float and void becomes void. */
  lemma PointerAndScalarTypes(t: TypeNode)
    ensures LlvmTypeOf(t) == PointerToI8 <==> t.SimpleTypeNode? && t.name in {"string", "null", "auto"}
    ensures LlvmTypeOf(t) == FloatType <==> t == Simple("float")
    ensures LlvmTypeOf(t) == VoidType <==> t == Simple("void")
  {
  }

  /**
   * A zero-length array comes only from `array<T>` with one parameter, and its element
   * is T's own mapping; `map<K, V>`, a bare `array` and every unknown name fall through
   * to the opaque pointer.
   */
  lemma ArrayAndFallThrough(t: TypeNode)
    ensures LlvmTypeOf(t).ArrayType? <==> t.GenericTypeNode? && t.baseName == "array" && |t.typeParameters| == 1
    ensures LlvmTypeOf(t).ArrayType? ==>
      LlvmTypeOf(t) == ArrayType(LlvmTypeOf(t.typeParameters[0]), 0)
    ensures t.GenericTypeNode? && t.baseName == "map" ==> LlvmTypeOf(t) == OpaquePointer
    ensures t == Simple("array") || t == Simple("map") || t == Simple("bool") ==> LlvmTypeOf(t) == OpaquePointer
  {
  }

  /**
   * `getTypeByASTNode`: a type node is its own type, a number the type it was parsed
   * with, a string, float or null literal its fixed type; anything else throws.
   */
  function TypeByAstNode(n: Node): (r: Result<TypeNode>)
    ensures r.Ok? <==> n.kind.TypeAsNode? || n.kind.NumberNode? || n.kind.StringNode? ||
                       n.kind.FloatNumberNode? || n.kind.NullNode?
    ensures n.kind.TypeAsNode? ==> r == Ok(n.kind.typeNode)
    ensures n.kind.NumberNode? ==> r == Ok(Simple(TypeToString(n.kind.numberType)))
    ensures n.kind.StringNode? ==> r == Ok(Simple("string"))
    ensures n.kind.FloatNumberNode? ==> r == Ok(Simple("float"))
    ensures n.kind.NullNode? ==> r == Ok(Simple("null"))
  {
    match n.kind
    case TypeAsNode(t) => Ok(t)
    case NumberNode(_, t) => Ok(SimpleTypeNode(TypeToString(t)))
    case StringNode(_) => Ok(SimpleTypeNode("string"))
    case FloatNumberNode(_) => Ok(SimpleTypeNode("float"))
    case NullNode => Ok(SimpleTypeNode("null"))
    case _ => Err("Unknown ASTNode type for type inference")
  }

  /** The lowered type of a literal agrees with its type name: a number typed `iN` lowers to an N-bit integer. */
  lemma NumberLiteralLowering(value: int, width: nat)
    requires width in {1, 8, 16, 32, 64}
    ensures var name := if width == 1 then "i1" else if width == 8 then "i8" else if width == 16 then "i16"
                        else if width == 32 then "i32" else "i64";
      var t := TypeByAstNode(Plain(NumberNode(value, Simple(name))));
      t.Ok? && LlvmTypeOf(t.value) == IntType(width)
  {
  }

  // ---------------------------------------------------------------------------------
  // The module's function table
  // ---------------------------------------------------------------------------------

  /** An LLVM function type: a return type and parameter types. */
  datatype FunctionType = FunctionType(returnType: LlvmType, params: seq<LlvmType>)

  /** A function declared in the LLVM module. */
  datatype Function = Function(name: string, fnType: FunctionType)

  /** The function table after `getOrDeclareFunction`, and the function it returned. */
  function GetOrDeclare(table: map<string, Function>, name: string, fnType: FunctionType): (r: (map<string, Function>, Function))
    ensures name in r.0 && r.0[name] == r.1
    ensures name in table ==> r == (table, table[name])
    ensures name !in table ==> r.0 == table[name := Function(name, fnType)]
  {
    if name in table then (table, table[name])
    else var f := Function(name, fnType); (table[name := f], f)
  }

  /** Asking twice for the same name returns the same function and leaves the table as the first call did, whatever type is passed. */
  lemma GetOrDeclareTwice(table: map<string, Function>, name: string, t1: FunctionType, t2: FunctionType)
    ensures var first := GetOrDeclare(table, name, t1);
      GetOrDeclare(first.0, name, t2) == first
  {
  }

  class LlvmModule {
    /** The functions the module holds, by name. */
    var functions: map<string, Function>

    constructor ()
      ensures functions == map[]
    {
      functions := map[];
    }

    /** `getOrDeclareFunction`: the existing function of that name, or a new external declaration. */
    method GetOrDeclareFunction(name: string, fnType: FunctionType) returns (f: Function)
      modifies this
      ensures (functions, f) == GetOrDeclare(old(functions), name, fnType)
    {
      if name in functions {
        f := functions[name];
      } else {
        f := Function(name, fnType);
        functions := functions[name := f];
      }
    }
  }
}
