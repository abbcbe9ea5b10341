/**
 * The checks of collection literals against a declared `array<T>` or `map<K, V>`
 * (`validateCollectionElements`) and the numeric casts that follow them
 * (`applyImplicitCastToNumeric`). A literal is a BlockNode whose statements are the
 * elements, or the key-value pairs of a map.
 *
 * Both walk the literal and the type together, updating them as they go: element
 * nodes get visited and cast, and for an `auto` declaration the type's numeric
 * parameters are replaced by the widest element type. Here each walk returns the
 * updated type and literal.
 */
module Collections {
  import opened Wrappers
  import opened Ast
  import opened TypeRules
  import opened Scopes
  import opened ExprCheck
  import Text

  /** The type with parameter `i` replaced. */
  function SetParam(t: TypeNode, i: nat, p: TypeNode): (r: TypeNode)
    requires t.GenericTypeNode? && i < |t.typeParameters|
    ensures r.GenericTypeNode? && r.baseName == t.baseName && r.typeParameters == t.typeParameters[i := p]
  {
    t.(typeParameters := t.typeParameters[i := p])
  }

  /** The block with statement `i` replaced by one of the same weight; the block's weight stays. */
  function SetStatement(e: Node, i: nat, s: Node): (r: Node)
    requires e.kind.BlockNode? && i < |e.kind.statements|
    requires Weight(s) == Weight(e.kind.statements[i])
    ensures r.kind.BlockNode? && r.kind.statements == e.kind.statements[i := s]
    ensures r.inferredType == e.inferredType && r.implicitCastTo == e.implicitCastTo
    ensures Weight(r) == Weight(e)
  {
    var r := e.(kind := BlockNode(e.kind.statements[i := s]));
    WeightFromPointwise(e, r, 0);
    r
  }

  function Max(a: nat, b: nat): nat
  {
    if a >= b then a else b
  }

  // ---------------------------------------------------------------------------------
  // validateCollectionElements
  // ---------------------------------------------------------------------------------

  /**
   * One element, key or value against its expected type `x` (`what` names it in the
   * message): a generic `x` checks the part as a nested literal; otherwise the part's
   * type must equal `x`, unless both are numeric, in which case the larger of their
   * numeric ranks raises `maxRank`.
   */
  function CheckPart(ctx: Context, types: map<string, TypeNode>, x: TypeNode, part: Node, isAuto: bool,
                     maxRank: nat, what: string): (r: Result<(TypeNode, Node, nat)>)
    ensures r.Ok? ==> Weight(r.value.1) == Weight(part)
    decreases Weight(part), 3
  {
    if x.GenericTypeNode? then
      var sub :- Validate(ctx, types, x, part, isAuto);
      Ok((sub.0, sub.1, maxRank))
    else if part.inferredType.None? then Crash()
    else
      var ps := TypeToString(part.inferredType.value);
      var xs := TypeToString(x);
      if ps == xs then Ok((x, part, maxRank))
      else if NumericRank(ps) > 0 && NumericRank(xs) > 0 then
        Ok((x, part, Max(maxRank, Max(NumericRank(ps), NumericRank(xs)))))
      else Fail(what + " type mismatch: expected " + xs + ", got " + ps)
  }

  /**
   * `validateCollectionElements(expected, e, isAuto)`: anything but a generic type
   * over a block is accepted only for a NoneNode (an empty literal); otherwise the
   * elements of an `array` or the pairs of a `map` are checked in order, any other base
   * name is an error, and when a numeric mismatch was tolerated the numeric casts follow.
   */
  function Validate(ctx: Context, types: map<string, TypeNode>, x: TypeNode, e: Node, isAuto: bool): (r: Result<(TypeNode, Node)>)
    ensures r.Ok? ==> Weight(r.value.1) == Weight(e)
    decreases Weight(e), 2
  {
    if !x.GenericTypeNode? || !e.kind.BlockNode? then
      if e.kind.NoneNode? then Ok((x, e)) else Fail("Invalid collection initialization")
    else if |e.kind.statements| == 0 then Crash()
    else if x.baseName == "array" then
      var a :- ValidateArray(ctx, types, e, isAuto, x, e, 0, 0);
      Finish(types, a.0, a.1, a.2, isAuto)
    else if x.baseName == "map" then
      var a :- ValidateMap(ctx, types, e, isAuto, x, e, 0, [], 0);
      Finish(types, a.0, a.1, a.2, isAuto)
    else Fail("Unknown generic collection: " + x.baseName)
  }

  /** The casts run only when some numeric mismatch raised `maxRank`. */
  function Finish(types: map<string, TypeNode>, t: TypeNode, e: Node, maxRank: nat, isAuto: bool): (r: Result<(TypeNode, Node)>)
    ensures r.Ok? ==> Weight(r.value.1) == Weight(e)
  {
    if maxRank > 0 then Apply(types, t, e, maxRank, isAuto) else Ok((t, e))
  }

  /**
   * The array loop from element `i` on: `t` is the type so far, `cur` the literal so
   * far (its statements before `i` already visited), `e` the literal as it came.
   */
  function ValidateArray(ctx: Context, types: map<string, TypeNode>, e: Node, isAuto: bool,
                         t: TypeNode, cur: Node, maxRank: nat, i: nat): (r: Result<(TypeNode, Node, nat)>)
    requires e.kind.BlockNode? && cur.kind.BlockNode? && |cur.kind.statements| == |e.kind.statements|
    requires i <= |e.kind.statements| && t.GenericTypeNode?
    requires Weight(cur) == Weight(e)
    requires forall k :: i <= k < |e.kind.statements| ==> cur.kind.statements[k] == e.kind.statements[k]
    ensures r.Ok? ==> r.value.1.kind.BlockNode? && Weight(r.value.1) == Weight(e)
    decreases Weight(e), 1, |e.kind.statements| - i
  {
    if i == |e.kind.statements| then Ok((t, cur, maxRank))
    else
      var s := e.kind.statements[i];
      WeightFromBound(e, 0, i);
      if s.kind.BlockNode? then
        if |t.typeParameters| == 0 then Crash()
        else
          var sub :- Validate(ctx, types, t.typeParameters[0], s, isAuto);
          ValidateArray(ctx, types, e, isAuto, SetParam(t, 0, sub.0), SetStatement(cur, i, sub.1), maxRank, i + 1)
      else
        var s1 :- VisitExpr(ctx, types, s);
        if |t.typeParameters| == 0 then Crash()
        else
          var part :- CheckPart(ctx, types, t.typeParameters[0], s1, isAuto, maxRank, "Element");
          ValidateArray(ctx, types, e, isAuto, SetParam(t, 0, part.0), SetStatement(cur, i, part.1), part.2, i + 1)
  }

  /**
   * The map loop from entry `i` on: each entry must be a key-value pair; key and value
   * are visited, then checked against K and V; a key name seen before (in `keys`) is an
   * error.
   */
  function ValidateMap(ctx: Context, types: map<string, TypeNode>, e: Node, isAuto: bool,
                       t: TypeNode, cur: Node, maxRank: nat, keys: seq<string>, i: nat): (r: Result<(TypeNode, Node, nat)>)
    requires e.kind.BlockNode? && cur.kind.BlockNode? && |cur.kind.statements| == |e.kind.statements|
    requires i <= |e.kind.statements| && t.GenericTypeNode?
    requires Weight(cur) == Weight(e)
    requires forall k :: i <= k < |e.kind.statements| ==> cur.kind.statements[k] == e.kind.statements[k]
    ensures r.Ok? ==> r.value.1.kind.BlockNode? && Weight(r.value.1) == Weight(e)
    decreases Weight(e), 1, |e.kind.statements| - i
  {
    if i == |e.kind.statements| then Ok((t, cur, maxRank))
    else
      var s := e.kind.statements[i];
      WeightFromBound(e, 0, i);
      if s.kind.KeyValueNode? then
        var en :- ValidateEntry(ctx, types, s, isAuto, t, maxRank);
        var key := en.1.kind.key;
        if s.kind.keyName in keys then
          if key.inferredType.None? then Crash()
          else Fail("Duplicate key: " + TypeToString(key.inferredType.value))
        else
          ValidateMap(ctx, types, e, isAuto, en.0, SetStatement(cur, i, en.1), en.2, keys + [s.kind.keyName], i + 1)
      else
        var _ :- VisitExpr(ctx, types, s);
        Fail("Map initialization expects key-value pairs")
  }

  /**
   * One key-value pair of a map literal: key and value are visited, then checked
   * against the type's first and second parameters, in that order. The result is the
   * updated type, the checked pair (same key name) and the raised `maxRank`.
   */
  function ValidateEntry(ctx: Context, types: map<string, TypeNode>, s: Node, isAuto: bool,
                         t: TypeNode, maxRank: nat): (r: Result<(TypeNode, Node, nat)>)
    requires s.kind.KeyValueNode? && t.GenericTypeNode?
    ensures r.Ok? ==> r.value.0.GenericTypeNode? && Weight(r.value.1) == Weight(s)
    ensures r.Ok? ==> r.value.1.kind.KeyValueNode? && r.value.1.kind.keyName == s.kind.keyName
    decreases Weight(s), 4
  {
    var k1 :- VisitExpr(ctx, types, s.kind.key);
    var v1 :- VisitExpr(ctx, types, s.kind.kvValue);
    if |t.typeParameters| < 2 then Crash()
    else
      var kr :- CheckPart(ctx, types, t.typeParameters[0], k1, isAuto, maxRank, "Key");
      var vr :- CheckPart(ctx, types, t.typeParameters[1], v1, isAuto, kr.2, "Value");
      Ok((SetParam(SetParam(t, 0, kr.0), 1, vr.0), s.(kind := KeyValueNode(kr.1, vr.1, s.kind.keyName)), vr.2))
  }

  // ---------------------------------------------------------------------------------
  // applyImplicitCastToNumeric
  // ---------------------------------------------------------------------------------

  /** A literal's cast to `target` when its inferred type is set and different. */
  function CastTo(n: Node, target: string): (r: Node)
    ensures r.kind == n.kind && r.inferredType == n.inferredType
  {
    if n.inferredType.Some? && TypeToString(n.inferredType.value) != target then n.(implicitCastTo := Some(Simple(target)))
    else n
  }

  predicate IsNumericName(name: string)
  {
    name in {"i1", "i8", "i32", "i64", "float"}
  }

  /**
   * `applyImplicitCastToNumeric(t, e, maxRank, isAuto)`: nothing happens unless `t` is
   * generic, `e` a block and `maxRank` one of 1..5. For `auto`, the numeric simple
   * parameters of an array or map type become the rank's target name (generic
   * parameters recursively); otherwise the target is the first parameter's own name.
   * Then the literals are cast: out-of-range values are errors unless `auto`.
   */
  function Apply(types: map<string, TypeNode>, t: TypeNode, e: Node, maxRank: nat, isAuto: bool): (r: Result<(TypeNode, Node)>)
    ensures r.Ok? ==> Weight(r.value.1) == Weight(e)
    ensures r.Ok? ==> (r.value.1.kind.BlockNode? <==> e.kind.BlockNode?)
    ensures r.Ok? ==> (if t.GenericTypeNode? then r.value.0.GenericTypeNode? else r.value.0 == t)
    decreases Weight(e), 1, t, 1, 0
  {
    if !t.GenericTypeNode? || !e.kind.BlockNode? || TargetOfRank(maxRank) == "" then Ok((t, e))
    else
      var rw :- if isAuto && (t.baseName == "array" || t.baseName == "map") then RewriteParams(types, t, maxRank, t, e, 0)
                else Ok((t, e));
      var t1 := rw.0;
      var e1 := rw.1;
      var target :=
        if !isAuto && |t1.typeParameters| > 0 && t1.typeParameters[0].SimpleTypeNode? then TypeToString(t1.typeParameters[0])
        else TargetOfRank(maxRank);
      if t1.baseName == "array" then CastArray(types, t1, e1, maxRank, isAuto, target, 0)
      else if t1.baseName == "map" then CastMap(types, t1, e1, maxRank, isAuto, target, 0)
      else Ok((t1, e1))
  }

  /**
   * The `auto` rewriting of the parameters of `t0` from `i` on, into `cur`: a numeric
   * simple parameter other than the target becomes the target; a generic one goes
   * through the whole cast recursively (over the same literal).
   */
  function RewriteParams(types: map<string, TypeNode>, t0: TypeNode, maxRank: nat, cur: TypeNode, e: Node, i: nat): (r: Result<(TypeNode, Node)>)
    requires t0.GenericTypeNode? && cur.GenericTypeNode? && |cur.typeParameters| == |t0.typeParameters|
    requires i <= |t0.typeParameters| && e.kind.BlockNode?
    ensures r.Ok? ==> r.value.0.GenericTypeNode? && r.value.0.baseName == cur.baseName
    ensures r.Ok? ==> |r.value.0.typeParameters| == |t0.typeParameters|
    ensures r.Ok? ==> r.value.1.kind.BlockNode? && Weight(r.value.1) == Weight(e)
    decreases Weight(e), 1, t0, 0, |t0.typeParameters| - i
  {
    if i == |t0.typeParameters| then Ok((cur, e))
    else
      var p := t0.typeParameters[i];
      if p.SimpleTypeNode? then
        var target := TargetOfRank(maxRank);
        var next := if IsNumericName(p.name) && p.name != target then SetParam(cur, i, Simple(target)) else cur;
        RewriteParams(types, t0, maxRank, next, e, i + 1)
      else
        var sub :- Apply(types, p, e, maxRank, true);
        RewriteParams(types, t0, maxRank, SetParam(cur, i, sub.0), sub.1, i + 1)
  }

  /** The array cast loop from element `i` on: nested blocks against the element type, numbers checked and cast to `target`. */
  function CastArray(types: map<string, TypeNode>, t: TypeNode, e: Node, maxRank: nat, isAuto: bool, target: string, i: nat): (r: Result<(TypeNode, Node)>)
    requires t.GenericTypeNode? && e.kind.BlockNode? && i <= |e.kind.statements|
    ensures r.Ok? ==> r.value.0.GenericTypeNode? && r.value.1.kind.BlockNode? && Weight(r.value.1) == Weight(e)
    decreases Weight(e), 0, |e.kind.statements| - i
  {
    if i == |e.kind.statements| then Ok((t, e))
    else
      var s := e.kind.statements[i];
      WeightFromBound(e, 0, i);
      var el :- CastElement(types, t, s, maxRank, isAuto, target);
      CastArray(types, el.0, SetStatement(e, i, el.1), maxRank, isAuto, target, i + 1)
  }

  /**
   * One element of the array cast: a nested block goes through the whole cast against
   * the element type, which updates it; a number is range-checked (unless `auto`) and
   * cast to `target`; anything else is left as it is.
   */
  function CastElement(types: map<string, TypeNode>, t: TypeNode, s: Node, maxRank: nat, isAuto: bool, target: string): (r: Result<(TypeNode, Node)>)
    requires t.GenericTypeNode?
    ensures r.Ok? ==> r.value.0.GenericTypeNode? && Weight(r.value.1) == Weight(s)
    ensures s.kind.NumberNode? ==>
      (r.Ok? <==> isAuto || FitsIn(target, s.kind.value)) && (r.Ok? ==> r.value == (t, CastTo(s, target)))
    ensures !s.kind.NumberNode? && !s.kind.BlockNode? ==> r == Ok((t, s))
    decreases Weight(s), 2
  {
    match s.kind
    case BlockNode(_) =>
      if |t.typeParameters| == 0 then Crash()
      else
        var sub :- Apply(types, t.typeParameters[0], s, maxRank, isAuto);
        Ok((SetParam(t, 0, sub.0), sub.1))
    case NumberNode(value, _) =>
      if !isAuto && !FitsIn(target, value) then
        Fail("Element value " + Text.IntToString(value) + " does not fit in type " + target)
      else Ok((t, CastTo(s, target)))
    case _ => Ok((t, s))
  }

  /** The target of a map key or value: its own simple parameter unless `auto`, else the rank's target. */
  function PartTarget(t: TypeNode, index: nat, isAuto: bool, target: string): string
    requires t.GenericTypeNode?
  {
    if !isAuto && |t.typeParameters| > index && t.typeParameters[index].SimpleTypeNode? then
      TypeToString(t.typeParameters[index])
    else target
  }

  /** A numeric literal key or value: range-checked unless `auto`, then cast. */
  function CastLiteral(n: Node, partTarget: string, isAuto: bool, what: string): (r: Result<Node>)
    requires n.kind.NumberNode?
    ensures r.Ok? <==> isAuto || FitsIn(partTarget, n.kind.value)
    ensures r.Ok? ==> r.value == CastTo(n, partTarget) && r.value.kind == n.kind
  {
    if !isAuto && !FitsIn(partTarget, n.kind.value) then
      Fail(what + " " + Text.IntToString(n.kind.value) + " does not fit in type " + partTarget)
    else Ok(CastTo(n, partTarget))
  }

  /** The map cast loop from entry `i` on: numeric keys and values checked and cast, block values against V. */
  function CastMap(types: map<string, TypeNode>, t: TypeNode, e: Node, maxRank: nat, isAuto: bool, target: string, i: nat): (r: Result<(TypeNode, Node)>)
    requires t.GenericTypeNode? && e.kind.BlockNode? && i <= |e.kind.statements|
    ensures r.Ok? ==> r.value.0.GenericTypeNode? && r.value.1.kind.BlockNode? && Weight(r.value.1) == Weight(e)
    decreases Weight(e), 0, |e.kind.statements| - i
  {
    if i == |e.kind.statements| then Ok((t, e))
    else
      var s := e.kind.statements[i];
      WeightFromBound(e, 0, i);
      if !s.kind.KeyValueNode? then CastMap(types, t, e, maxRank, isAuto, target, i + 1)
      else
        var en :- CastEntry(types, t, s, maxRank, isAuto, target);
        CastMap(types, en.0, SetStatement(e, i, en.1), maxRank, isAuto, target, i + 1)
  }

  /**
   * One key-value pair of the map cast: a numeric key is checked and cast; a block
   * value goes through the whole cast against V, which updates V; a numeric value is
   * checked and cast.
   */
  function CastEntry(types: map<string, TypeNode>, t: TypeNode, s: Node, maxRank: nat, isAuto: bool, target: string): (r: Result<(TypeNode, Node)>)
    requires t.GenericTypeNode? && s.kind.KeyValueNode?
    ensures r.Ok? ==> r.value.0.GenericTypeNode? && Weight(r.value.1) == Weight(s)
    ensures r.Ok? ==> r.value.1.kind.KeyValueNode? && r.value.1.kind.keyName == s.kind.keyName
    ensures r.Ok? ==> forall j :: 0 <= j < 2 ==> PartTarget(r.value.0, j, isAuto, target) == PartTarget(t, j, isAuto, target)
    ensures var k, x := s.kind.key, PartTarget(t, 0, isAuto, target);
      k.kind.NumberNode? ==>
        (!isAuto && !FitsIn(x, k.kind.value) ==> r.Err?) && (r.Ok? ==> r.value.1.kind.key == CastTo(k, x))
    ensures var v, x := s.kind.kvValue, PartTarget(t, 1, isAuto, target);
      v.kind.NumberNode? ==>
        (!isAuto && !FitsIn(x, v.kind.value) ==> r.Err?) && (r.Ok? ==> r.value.1.kind.kvValue == CastTo(v, x))
    ensures r.Ok? && !s.kind.key.kind.NumberNode? ==> r.value.1.kind.key == s.kind.key
    ensures r.Ok? && !s.kind.kvValue.kind.NumberNode? && !s.kind.kvValue.kind.BlockNode? ==> r.value.1.kind.kvValue == s.kind.kvValue
    decreases Weight(s), 2
  {
    var k := s.kind.key;
    var v := s.kind.kvValue;
    var k1 :- if k.kind.NumberNode? then CastLiteral(k, PartTarget(t, 0, isAuto, target), isAuto, "Key value") else Ok(k);
    if v.kind.BlockNode? && |t.typeParameters| > 1 then
      var sub :- Apply(types, t.typeParameters[1], v, maxRank, isAuto);
      Ok((SetParam(t, 1, sub.0), s.(kind := KeyValueNode(k1, sub.1, s.kind.keyName))))
    else
      var v1 :- if v.kind.NumberNode? then CastLiteral(v, PartTarget(t, 1, isAuto, target), isAuto, "Value") else Ok(v);
      Ok((t, s.(kind := KeyValueNode(k1, v1, s.kind.keyName))))
  }

  // ---------------------------------------------------------------------------------
  // Properties of the collection checks
  // ---------------------------------------------------------------------------------

  /**
   * The rule for one element, key or value of a simple expected type: it passes when
   * its type is the expected one, or when both are numeric (float included), which
   * raises `maxRank` to the larger rank of the two; otherwise the error names both.
   */
  lemma CheckPartRule(ctx: Context, types: map<string, TypeNode>, x: TypeNode, part: Node, isAuto: bool, maxRank: nat, what: string)
    requires x.SimpleTypeNode? && part.inferredType.Some?
    ensures var ps, xs := TypeToString(part.inferredType.value), TypeToString(x);
      var r := CheckPart(ctx, types, x, part, isAuto, maxRank, what);
      && (r.Ok? <==> ps == xs || (NumericRank(ps) > 0 && NumericRank(xs) > 0))
      && (r.Ok? ==> r.value.0 == x && r.value.1 == part)
      && (r.Ok? && ps == xs ==> r.value.2 == maxRank)
      && (r.Ok? && ps != xs ==> r.value.2 == Max(maxRank, Max(NumericRank(ps), NumericRank(xs))) && r.value.2 > 0)
      && (r.Err? ==> r == Fail(what + " type mismatch: expected " + xs + ", got " + ps))
  {
  }

  /** An element that is neither of the expected type nor numeric beside a numeric one rejects the array. */
  lemma StringInIntArray(ctx: Context, types: map<string, TypeNode>, part: Node, maxRank: nat)
    requires part.inferredType == Some(Simple("string"))
    ensures CheckPart(ctx, types, Simple("i32"), part, false, maxRank, "Element") ==
      Fail("Element type mismatch: expected i32, got string")
  {
  }

  /**
   * A map literal that passes has only key-value entries, and their key names are
   * pairwise different and new to the names seen before.
   */
  lemma {:induction false} ValidateMapEntries(ctx: Context, types: map<string, TypeNode>, e: Node, isAuto: bool,
                                              t: TypeNode, cur: Node, maxRank: nat, keys: seq<string>, i: nat)
    requires e.kind.BlockNode? && cur.kind.BlockNode? && |cur.kind.statements| == |e.kind.statements|
    requires i <= |e.kind.statements| && t.GenericTypeNode?
    requires Weight(cur) == Weight(e)
    requires forall k :: i <= k < |e.kind.statements| ==> cur.kind.statements[k] == e.kind.statements[k]
    ensures var ss := e.kind.statements;
      ValidateMap(ctx, types, e, isAuto, t, cur, maxRank, keys, i).Ok? ==>
        && (forall k :: i <= k < |ss| ==> ss[k].kind.KeyValueNode?)
        && (forall k :: i <= k < |ss| ==> ss[k].kind.keyName !in keys)
        && (forall a, b :: i <= a < b < |ss| ==> ss[a].kind.keyName != ss[b].kind.keyName)
    decreases |e.kind.statements| - i
  {
    var ss := e.kind.statements;
    if i < |ss| && ValidateMap(ctx, types, e, isAuto, t, cur, maxRank, keys, i).Ok? {
      var s := ss[i];
      WeightFromBound(e, 0, i);
      var en := ValidateEntry(ctx, types, s, isAuto, t, maxRank).value;
      ValidateMapEntries(ctx, types, e, isAuto, en.0, SetStatement(cur, i, en.1), en.2, keys + [s.kind.keyName], i + 1);
    }
  }

  /**
   * The array casts: the literal keeps its length; for a declared (non-`auto`) type
   * every number among the elements fits the target's range, and every number whose
   * type differs from the target is cast to it.
   */
  lemma {:induction false} CastArrayNumbers(types: map<string, TypeNode>, t: TypeNode, e: Node, maxRank: nat, isAuto: bool, target: string, i: nat)
    requires t.GenericTypeNode? && e.kind.BlockNode? && i <= |e.kind.statements|
    ensures var r := CastArray(types, t, e, maxRank, isAuto, target, i);
      var ss := e.kind.statements;
      r.Ok? ==>
        && |r.value.1.kind.statements| == |ss|
        && (forall k :: 0 <= k < i ==> r.value.1.kind.statements[k] == ss[k])
        && (forall k :: i <= k < |ss| && ss[k].kind.NumberNode? ==>
              r.value.1.kind.statements[k] == CastTo(ss[k], target) && (isAuto || FitsIn(target, ss[k].kind.value)))
    decreases |e.kind.statements| - i
  {
    var ss := e.kind.statements;
    if i < |ss| && CastArray(types, t, e, maxRank, isAuto, target, i).Ok? {
      var s := ss[i];
      WeightFromBound(e, 0, i);
      var el := CastElement(types, t, s, maxRank, isAuto, target).value;
      var e1 := SetStatement(e, i, el.1);
      CastArrayNumbers(types, el.0, e1, maxRank, isAuto, target, i + 1);
    }
  }

  /**
   * The map casts, entry by entry: the literal keeps its entry count, entries that are
   * not key-value pairs stay as they are and key-value pairs stay key-value pairs.
   */
  lemma {:induction false} CastMapEntries(types: map<string, TypeNode>, t: TypeNode, e: Node, maxRank: nat, isAuto: bool, target: string, i: nat)
    requires t.GenericTypeNode? && e.kind.BlockNode? && i <= |e.kind.statements|
    ensures var r := CastMap(types, t, e, maxRank, isAuto, target, i);
      var ss := e.kind.statements;
      r.Ok? ==>
        && |r.value.1.kind.statements| == |ss|
        && (forall k :: 0 <= k < i ==> r.value.1.kind.statements[k] == ss[k])
        && (forall k :: i <= k < |ss| && !ss[k].kind.KeyValueNode? ==> r.value.1.kind.statements[k] == ss[k])
        && (forall k :: i <= k < |ss| && ss[k].kind.KeyValueNode? ==> r.value.1.kind.statements[k].kind.KeyValueNode?)
    decreases |e.kind.statements| - i
  {
    var ss := e.kind.statements;
    if i < |ss| && CastMap(types, t, e, maxRank, isAuto, target, i).Ok? {
      var s := ss[i];
      WeightFromBound(e, 0, i);
      if !s.kind.KeyValueNode? {
        CastMapEntries(types, t, e, maxRank, isAuto, target, i + 1);
      } else {
        var en := CastEntry(types, t, s, maxRank, isAuto, target).value;
        var e1 := SetStatement(e, i, en.1);
        assert CastMap(types, t, e, maxRank, isAuto, target, i) == CastMap(types, en.0, e1, maxRank, isAuto, target, i + 1);
        CastMapEntries(types, en.0, e1, maxRank, isAuto, target, i + 1);
        assert e1.kind.statements[i] == en.1;
      }
    }
  }

  /**
   * The map casts on numbers: every numeric key is cast to the key target and every
   * numeric value to the value target, and for a declared (non-`auto`) type each of
   * them fits its target's range.
   */
  lemma {:induction false} CastMapNumbers(types: map<string, TypeNode>, t: TypeNode, e: Node, maxRank: nat, isAuto: bool, target: string, i: nat)
    requires t.GenericTypeNode? && e.kind.BlockNode? && i <= |e.kind.statements|
    ensures var r := CastMap(types, t, e, maxRank, isAuto, target, i);
      var ss := e.kind.statements;
      var kx, vx := PartTarget(t, 0, isAuto, target), PartTarget(t, 1, isAuto, target);
      r.Ok? ==>
        && |r.value.1.kind.statements| == |ss|
        && (forall k :: 0 <= k < i ==> r.value.1.kind.statements[k] == ss[k])
        && (forall k :: i <= k < |ss| && ss[k].kind.KeyValueNode? && ss[k].kind.key.kind.NumberNode? ==>
              r.value.1.kind.statements[k].kind.KeyValueNode? &&
              r.value.1.kind.statements[k].kind.key == CastTo(ss[k].kind.key, kx) && (isAuto || FitsIn(kx, ss[k].kind.key.kind.value)))
        && (forall k :: i <= k < |ss| && ss[k].kind.KeyValueNode? && ss[k].kind.kvValue.kind.NumberNode? ==>
              r.value.1.kind.statements[k].kind.KeyValueNode? &&
              r.value.1.kind.statements[k].kind.kvValue == CastTo(ss[k].kind.kvValue, vx) && (isAuto || FitsIn(vx, ss[k].kind.kvValue.kind.value)))
    decreases |e.kind.statements| - i
  {
    var ss := e.kind.statements;
    if i < |ss| && CastMap(types, t, e, maxRank, isAuto, target, i).Ok? {
      var s := ss[i];
      WeightFromBound(e, 0, i);
      if !s.kind.KeyValueNode? {
        CastMapNumbers(types, t, e, maxRank, isAuto, target, i + 1);
      } else {
        var en := CastEntry(types, t, s, maxRank, isAuto, target).value;
        var e1 := SetStatement(e, i, en.1);
        assert CastMap(types, t, e, maxRank, isAuto, target, i) == CastMap(types, en.0, e1, maxRank, isAuto, target, i + 1);
        CastMapNumbers(types, en.0, e1, maxRank, isAuto, target, i + 1);
        assert PartTarget(en.0, 0, isAuto, target) == PartTarget(t, 0, isAuto, target);
        assert PartTarget(en.0, 1, isAuto, target) == PartTarget(t, 1, isAuto, target);
        assert e1.kind.statements[i] == en.1;
      }
    }
  }

  /**
   * The `auto` rewriting of a type whose parameters are simple names: every numeric
   * parameter becomes the target of the rank, the others stay, and the literal is
   * untouched.
   */
  lemma {:induction false} RewriteSimpleParams(types: map<string, TypeNode>, t0: TypeNode, maxRank: nat, cur: TypeNode, e: Node, i: nat)
    requires t0.GenericTypeNode? && cur.GenericTypeNode? && |cur.typeParameters| == |t0.typeParameters|
    requires i <= |t0.typeParameters| && e.kind.BlockNode?
    requires forall k :: i <= k < |t0.typeParameters| ==> t0.typeParameters[k].SimpleTypeNode?
    requires forall k :: i <= k < |t0.typeParameters| ==> cur.typeParameters[k] == t0.typeParameters[k]
    ensures var r := RewriteParams(types, t0, maxRank, cur, e, i);
      && r.Ok? && r.value.1 == e
      && (forall k :: 0 <= k < i ==> r.value.0.typeParameters[k] == cur.typeParameters[k])
      && (forall k :: i <= k < |t0.typeParameters| ==>
            r.value.0.typeParameters[k] ==
              (if IsNumericName(t0.typeParameters[k].name) then Simple(TargetOfRank(maxRank)) else t0.typeParameters[k]))
    decreases |t0.typeParameters| - i
  {
    if i < |t0.typeParameters| {
      var p := t0.typeParameters[i];
      var target := TargetOfRank(maxRank);
      var next := if IsNumericName(p.name) && p.name != target then SetParam(cur, i, Simple(target)) else cur;
      RewriteSimpleParams(types, t0, maxRank, next, e, i + 1);
    }
  }
}
