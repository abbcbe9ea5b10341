/**
 * The checker's rule tables over type names: the integer promotion ranks of
 * `numCast`, the collection ranks (which add float), the target type of a rank, the
 * literal range limits, the integer names each operator accepts, and the mapping of
 * comparison operators to their IR suffix.
 */
module TypeRules {

  /** `getTypeRank` of `numCast`: i1 < i8 < i32 < i64; every other name (i16 included) has rank 0. */
  function Rank(t: string): nat
  {
    if t == "i1" then 1 else if t == "i8" then 2 else if t == "i32" then 3 else if t == "i64" then 4 else 0
  }

  /** `numericRank` of the collection check: the integer ranks plus float at 5. */
  function NumericRank(t: string): nat
  {
    if t == "float" then 5 else Rank(t)
  }

  /** The names `applyImplicitCastToNumeric` converts to: rank 1..5 names i1, i8, i32, i64, float; any other rank stops it. */
  function TargetOfRank(k: nat): (r: string)
  {
    if k == 1 then "i1" else if k == 2 then "i8" else if k == 3 then "i32" else if k == 4 then "i64"
    else if k == 5 then "float" else ""
  }

  /** The ranked names are exactly the four integers, and the numeric ones add float. */
  lemma RankedNames(t: string)
    ensures Rank(t) > 0 <==> t in {"i1", "i8", "i32", "i64"}
    ensures NumericRank(t) > 0 <==> t in {"i1", "i8", "i32", "i64", "float"}
    ensures Rank(t) <= 4 && NumericRank(t) <= 5
    ensures Rank("i16") == 0
  {
  }

  /** The target of a rank is the name of that rank and back: the two tables are inverse. */
  lemma TargetRoundTrip(t: string, k: nat)
    ensures NumericRank(t) > 0 ==> TargetOfRank(NumericRank(t)) == t
    ensures 1 <= k <= 5 ==> NumericRank(TargetOfRank(k)) == k
    ensures k == 0 || k > 5 ==> TargetOfRank(k) == ""
  {
  }

  /** Different ranked names have different ranks, so the promotion in `numCast` always picks a side. */
  lemma RankInjective(a: string, b: string)
    requires NumericRank(a) > 0 && NumericRank(b) > 0 && a != b
    ensures NumericRank(a) != NumericRank(b)
    ensures Rank(a) > 0 && Rank(b) > 0 ==> Rank(a) != Rank(b)
  {
  }

  /**
   * `checkLimits`: the values a literal of the named type may take. i1 is 0 or 1, i8 one
   * byte, while i32 and i64 get the ranges of 16- and 32-bit integers; other names
   * (float among them) take every value.
   */
  predicate FitsIn(t: string, v: int)
  {
    if t == "i1" then v == 0 || v == 1
    else if t == "i8" then -128 <= v <= 127
    else if t == "i32" then -32768 <= v <= 32767
    else if t == "i64" then -2147483648 <= v <= 2147483647
    else true
  }

  /** The ranges grow with the rank: a value that fits a lower-ranked type fits every higher one. */
  lemma LimitsNested(a: string, b: string, v: int)
    requires 0 < NumericRank(a) <= NumericRank(b)
    requires FitsIn(a, v)
    ensures FitsIn(b, v)
  {
  }

  /**
   * The limits are half as wide as the names say: 32768 does not fit an i32 and
   * 2147483648 does not fit an i64, while every value fits a float.
   */
  lemma LimitsAreNarrow(v: int)
    ensures !FitsIn("i32", 32768) && FitsIn("i32", 32767)
    ensures !FitsIn("i64", 2147483648) && FitsIn("i64", 2147483647)
    ensures !FitsIn("i1", 2) && FitsIn("float", v) && FitsIn("string", v)
  {
  }

  /** `isIntType` of the operator handlers: the five integer names, i16 included. */
  predicate IsIntType(t: string)
  {
    t == "i32" || t == "i64" || t == "i16" || t == "i8" || t == "i1"
  }

  /** The names `visit(BinaryOpNode)` adds with `add` when both sides share them. */
  predicate IsPlusIntType(t: string)
  {
    t == "i32" || t == "i64" || t == "i8" || t == "i1"
  }

  /** The names whose side `visit(BinaryOpNode)` casts to float beside a float: "bool" instead of i1. */
  predicate IsFloatCastable(t: string)
  {
    t == "i32" || t == "i64" || t == "i8" || t == "bool"
  }

  /** The operators for which `numCast` promotes integers: arithmetic and comparison. */
  predicate IsNumCastOp(op: string)
  {
    op in {"+", "-", "*", "/", "%", "==", "!=", "<", ">", "<=", ">="}
  }

  /** The comparison suffix of an operator (`==`/`eq` and `!=`/`ne` both accepted); "" for an unknown operator. */
  function CmpOp(op: string): string
  {
    if op == "==" || op == "eq" then "eq"
    else if op == "!=" || op == "ne" then "ne"
    else if op == "<" then "slt"
    else if op == ">" then "sgt"
    else if op == "<=" then "sle"
    else if op == ">=" then "sge"
    else ""
  }

  /** The comparison table: six source operators (plus the two IR spellings) map to six suffixes; nothing else is a comparison. */
  lemma CmpOpTable(op: string)
    ensures CmpOp(op) != "" <==> op in {"==", "eq", "!=", "ne", "<", ">", "<=", ">="}
    ensures CmpOp(op) in {"", "eq", "ne", "slt", "sgt", "sle", "sge"}
    ensures CmpOp("==") == "eq" && CmpOp("!=") == "ne" && CmpOp("<") == "slt"
    ensures CmpOp(">") == "sgt" && CmpOp("<=") == "sle" && CmpOp(">=") == "sge"
  {
  }

  /** Plus casts a side to float only for names that are not i1: an i1 operand beside a float stays uncast. */
  lemma PlusCastSkipsI1()
    ensures IsPlusIntType("i1") && !IsFloatCastable("i1")
    ensures forall t :: IsFloatCastable(t) && t != "bool" ==> IsPlusIntType(t) && Rank(t) > 1
  {
  }

  /** Whether `s` begins with `p` (`starts_with` and `rfind(p, 0) == 0`). */
  predicate StartsWith(s: string, p: string)
  {
    |p| <= |s| && s[..|p|] == p
  }
}
