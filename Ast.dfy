/**
 * The syntax tree produced by the parser and annotated by the type checker:
 * the node classes of `AST.h` as one datatype, and the type serialiser
 * `TypeNode::toString`.
 */
module Ast {
  import opened Wrappers

  /** `SimpleTypeNode` (a bare type name) and `GenericTypeNode` (a base name with type parameters). */
  datatype TypeNode =
    | SimpleTypeNode(name: string)
    | GenericTypeNode(baseName: string, typeParameters: seq<TypeNode>)

  /** `toString`: a simple type is its name, a generic one `base<p1, p2, ...>`. */
  function TypeToString(t: TypeNode): string
    decreases t, 1, 0
  {
    match t
    case SimpleTypeNode(name) => name
    case GenericTypeNode(base, ps) => base + "<" + ParamsToString(t, 0) + ">"
  }

  /** The loop of `GenericTypeNode::toString` from parameter `i` on: each parameter after the first is preceded by ", ". */
  function ParamsToString(t: TypeNode, i: nat): string
    requires t.GenericTypeNode? && i <= |t.typeParameters|
    decreases t, 0, |t.typeParameters| - i
  {
    if i == |t.typeParameters| then ""
    else (if i > 0 then ", " else "") + TypeToString(t.typeParameters[i]) + ParamsToString(t, i + 1)
  }

  /** Strings glued with a separator between neighbours: the reference for the serialiser's loop. */
  function JoinWith(parts: seq<string>, sep: string): string
  {
    if parts == [] then ""
    else if |parts| == 1 then parts[0]
    else parts[0] + sep + JoinWith(parts[1..], sep)
  }

  /** The strings of a list of types, in order. */
  function TypeStrings(ps: seq<TypeNode>): (r: seq<string>)
    ensures |r| == |ps|
    ensures forall k :: 0 <= k < |ps| ==> r[k] == TypeToString(ps[k])
  {
    if ps == [] then [] else [TypeToString(ps[0])] + TypeStrings(ps[1..])
  }

  /** Joining a list given as its head and tail. */
  lemma JoinCons(a: string, rest: seq<string>, sep: string)
    ensures JoinWith([a] + rest, sep) == a + (if rest == [] then "" else sep + JoinWith(rest, sep))
  {
    assert ([a] + rest)[1..] == rest;
  }

  lemma {:induction false} ParamsToStringIsJoin(t: TypeNode, i: nat)
    requires t.GenericTypeNode? && i <= |t.typeParameters|
    ensures i == 0 ==> ParamsToString(t, i) == JoinWith(TypeStrings(t.typeParameters), ", ")
    ensures 0 < i ==> (ParamsToString(t, i) ==
      if i == |t.typeParameters| then "" else ", " + JoinWith(TypeStrings(t.typeParameters[i..]), ", "))
    decreases |t.typeParameters| - i
  {
    var ps := t.typeParameters;
    if i < |ps| {
      ParamsToStringIsJoin(t, i + 1);
      assert ps[i..][1..] == ps[i + 1..];
      assert TypeStrings(ps[i..]) == [TypeToString(ps[i])] + TypeStrings(ps[i + 1..]);
      JoinCons(TypeToString(ps[i]), TypeStrings(ps[i + 1..]), ", ");
      if i == 0 {
        assert ps[0..] == ps;
      }
    }
  }

  /**
   * A generic type renders as its base name, "<", the parameters' renderings joined
   * with ", ", and ">"; a simple type renders as its name.
   */
  lemma TypeToStringShape(t: TypeNode)
    ensures t.SimpleTypeNode? ==> TypeToString(t) == t.name
    ensures t.GenericTypeNode? ==>
      TypeToString(t) == t.baseName + "<" + JoinWith(TypeStrings(t.typeParameters), ", ") + ">"
  {
    if t.GenericTypeNode? {
      ParamsToStringIsJoin(t, 0);
    }
  }

  /** A generic with no parameters renders as "base<>"; nested generics render recursively. */
  lemma GenericExamples(b: string, inner: TypeNode)
    ensures TypeToString(GenericTypeNode(b, [])) == b + "<>"
    ensures TypeToString(GenericTypeNode(b, [inner])) == b + "<" + TypeToString(inner) + ">"
  {
    TypeToStringShape(GenericTypeNode(b, [inner]));
  }

  /** A function parameter: its type and its name. */
  datatype Param = Param(paramType: TypeNode, paramName: string)

  /**
   * The node classes. An `AccessExpression` is one link of a member-access chain:
   * `nextAccess` holds the rest of the chain. An `ImportNode` holds its ordered map
   * from import path to alias as its entries in key order.
   */
  datatype NodeKind =
    | ProgramNode(body: seq<Node>, moduleName: string)
    | FunctionNode(name: string, associated: string, returnType: TypeNode, parameters: seq<Param>,
                   labels: seq<string>, fnBody: Node)
    | StructNode(structName: string, structBody: Node)
    | ClassNode(className: string, publicBody: Option<Node>, privateBody: Option<Node>)
    | BlockNode(statements: seq<Node>)
    | VariableAssignNode(varName: string, isConst: bool, varType: TypeNode, expression: Node)
    | ReassignMemberNode(accessExpression: Node, newValue: Node)
    | VariableReassignNode(target: string, reassigned: Node)
    | IfNode(condition: Node, thenBlock: Node, elseBlock: Option<Node>)
    | ForNode(iterVar: string, iterable: Node, forBody: Node)
    | WhileNode(whileCondition: Node, whileBody: Node)
    | ReturnNode(returned: Node)
    | CallNode(callee: string, arguments: seq<Node>)
    | BinaryOpNode(left: Node, op: string, right: Node)
    | UnaryOpNode(unaryOp: string, operand: Node)
    | IdentifierNode(ident: string)
    | NumberNode(value: int, numberType: TypeNode)
    | FloatNumberNode(text: string)
    | StringNode(text: string)
    | NullNode
    | NoneNode
    | KeyValueNode(key: Node, kvValue: Node, keyName: string)
    | BreakNode
    | ContinueNode
    | AccessExpression(memberName: string, notation: string, accessed: Option<Node>, nextAccess: Option<Node>)
    | ImportNode(paths: seq<(seq<string>, string)>)
    | ModuleMark(markedModule: string)
    | TypeAsNode(typeNode: TypeNode)

  /**
   * An `ASTNode`: what kind of node it is, plus the two annotation slots the checker
   * fills in (`inferredType` and `implicitCastTo`).
   */
  datatype Node = Node(kind: NodeKind, inferredType: Option<TypeNode>, implicitCastTo: Option<TypeNode>)

  /** A node as the parser builds it: both annotation slots empty. */
  function Plain(k: NodeKind): (n: Node)
    ensures n.kind == k && n.inferredType.None? && n.implicitCastTo.None?
  {
    Node(k, None, None)
  }

  /** A node with its inferred type set and its other parts unchanged. */
  function WithType(n: Node, t: TypeNode): (r: Node)
    ensures r.kind == n.kind && r.implicitCastTo == n.implicitCastTo && r.inferredType == Some(t)
  {
    n.(inferredType := Some(t))
  }

  /** A node with its implicit cast set and its other parts unchanged. */
  function WithCast(n: Node, t: TypeNode): (r: Node)
    ensures r.kind == n.kind && r.inferredType == n.inferredType && r.implicitCastTo == Some(t)
  {
    n.(implicitCastTo := Some(t))
  }

  function Simple(name: string): TypeNode
  {
    SimpleTypeNode(name)
  }
}
