/**
 * The linker's symbol tables: modules registered by name, each with the functions,
 * globals and structs declared at its top level, and the symbols it imports from
 * other modules.
 *
 * The source keeps modules and per-module tables in hash maps and iterates over them
 * in the maps' own order, which it does not specify. Here that order is a parameter:
 * `order(keys)` lists the keys in the order an iteration visits them.
 */
module Linker {
  import opened Wrappers
  import opened Ast

  datatype FunctionInfo = FunctionInfo(node: Node, returnType: string, params: seq<(string, string)>, defined: bool)
  datatype VariableInfo = VariableInfo(node: Node, typeName: string, isConst: bool, defined: bool)
  datatype StructInfo = StructInfo(node: Node, defined: bool)

  datatype SymbolType = FunctionSymbol | VariableSymbol | StructSymbol

  /** An imported symbol: its kind, its name and the module it comes from. */
  datatype SymbolInfo = SymbolInfo(symbolType: SymbolType, name: string, moduleName: string)

  datatype ModuleContext = ModuleContext(
    name: string,
    path: string,
    ast: Node,
    functions: map<string, FunctionInfo>,
    globals: map<string, VariableInfo>,
    structs: map<string, StructInfo>,
    imports: seq<SymbolInfo>,
    processed: bool)

  /** A module as `addModule` creates it: empty tables, not yet processed. */
  function NewModule(name: string, path: string, ast: Node): ModuleContext
  {
    ModuleContext(name, path, ast, map[], map[], map[], [], false)
  }

  /** The top-level statements of a module's program. */
  function Body(ast: Node): seq<Node>
  {
    if ast.kind.ProgramNode? then ast.kind.body else []
  }

  /** An iteration order over a key set: every key exactly once. */
  ghost predicate Enumerates(s: seq<string>, keys: set<string>)
  {
    && |s| == |keys|
    && (forall x :: x in s <==> x in keys)
    && (forall i, j :: 0 <= i < j < |s| ==> s[i] != s[j])
  }

  /** Each name an enumeration lists is a key. */
  lemma EnumeratedKeys(names: seq<string>, modules: map<string, ModuleContext>)
    requires Enumerates(names, modules.Keys)
    ensures forall k :: 0 <= k < |names| ==> names[k] in modules
  {
  }

  /** Names that are keys of one map are keys of any map with the same keys. */
  lemma SameKeys(names: seq<string>, a: map<string, ModuleContext>, b: map<string, ModuleContext>)
    requires a.Keys == b.Keys && forall k :: 0 <= k < |names| ==> names[k] in a
    ensures forall k :: 0 <= k < |names| ==> names[k] in b
  {
  }

  // ---------------------------------------------------------------------------------
  // Collecting a module's declarations
  // ---------------------------------------------------------------------------------

  /** The parameters as (type string, name) pairs. */
  function ParamStrings(ps: seq<Param>): (r: seq<(string, string)>)
    ensures |r| == |ps|
    ensures forall k :: 0 <= k < |ps| ==> r[k] == (TypeToString(ps[k].paramType), ps[k].paramName)
  {
    seq(|ps|, k requires 0 <= k < |ps| => (TypeToString(ps[k].paramType), ps[k].paramName))
  }

  /** The three tables a top-level declaration can go into. */
  datatype Table = Functions | Globals | Structs

  /** The table and name a top-level node is filed under, if any. */
  function Declares(node: Node): Option<(Table, string)>
  {
    match node.kind
    case VariableAssignNode(n, _, _, _) => Some((Globals, n))
    case FunctionNode(n, _, _, _, _, _) => Some((Functions, n))
    case StructNode(n, _) => Some((Structs, n))
    case _ => None
  }

  /** The node a module's table records under a name, if any. */
  function Recorded(m: ModuleContext, t: Table, name: string): Option<Node>
  {
    match t
    case Functions => if name in m.functions then Some(m.functions[name].node) else None
    case Globals => if name in m.globals then Some(m.globals[name].node) else None
    case Structs => if name in m.structs then Some(m.structs[name].node) else None
  }

  /** One step of `collectModuleInfo`'s loop: a declaration is filed in its table, replacing an earlier one. */
  function File(m: ModuleContext, node: Node): (r: ModuleContext)
    ensures r.name == m.name && r.path == m.path && r.ast == m.ast
    ensures r.imports == m.imports && r.processed == m.processed
  {
    match node.kind
    case VariableAssignNode(n, isConst, vt, _) =>
      m.(globals := m.globals[n := VariableInfo(node, TypeToString(vt), isConst, true)])
    case FunctionNode(n, _, rt, ps, _, _) =>
      m.(functions := m.functions[n := FunctionInfo(node, TypeToString(rt), ParamStrings(ps), true)])
    case StructNode(n, _) =>
      m.(structs := m.structs[n := StructInfo(node, true)])
    case _ => m
  }

  /** Filing records the node under the name it declares and leaves every other entry alone. */
  lemma FileRecords(m: ModuleContext, node: Node, t: Table, x: string)
    ensures Recorded(File(m, node), t, x) == if Declares(node) == Some((t, x)) then Some(node) else Recorded(m, t, x)
  {
  }

  /** The module after filing the first `n` nodes. */
  function FileFirst(m: ModuleContext, nodes: seq<Node>, n: nat): (r: ModuleContext)
    requires n <= |nodes|
    ensures r.name == m.name && r.path == m.path && r.ast == m.ast
    ensures r.imports == m.imports && r.processed == m.processed
  {
    if n == 0 then m else File(FileFirst(m, nodes, n - 1), nodes[n - 1])
  }

  /** `collectModuleInfo`: a processed module is left alone; otherwise its body is filed and it is marked processed. */
  function Collected(m: ModuleContext): (r: ModuleContext)
    ensures r.processed
    ensures r.name == m.name && r.path == m.path && r.ast == m.ast && r.imports == m.imports
    ensures m.processed ==> r == m
  {
    if m.processed then m else FileFirst(m, Body(m.ast), |Body(m.ast)|).(processed := true)
  }

  /** The position of the last of the first `n` nodes that declares `x` in table `t`. */
  function LastDeclaration(nodes: seq<Node>, n: nat, t: Table, x: string): (r: Option<nat>)
    requires n <= |nodes|
    ensures r.Some? ==> r.value < n && Declares(nodes[r.value]) == Some((t, x))
    ensures r.Some? ==> forall k :: r.value < k < n ==> Declares(nodes[k]) != Some((t, x))
    ensures r.None? ==> forall k :: 0 <= k < n ==> Declares(nodes[k]) != Some((t, x))
  {
    if n == 0 then None
    else if Declares(nodes[n - 1]) == Some((t, x)) then Some(n - 1)
    else LastDeclaration(nodes, n - 1, t, x)
  }

  /**
   * After filing, each table holds, for each name, the last node declaring it; a name
   * no node declares keeps its earlier entry (or stays absent).
   */
  lemma {:induction false} FileFirstRecords(m: ModuleContext, nodes: seq<Node>, n: nat, t: Table, x: string)
    requires n <= |nodes|
    ensures var last := LastDeclaration(nodes, n, t, x);
      Recorded(FileFirst(m, nodes, n), t, x) == if last.Some? then Some(nodes[last.value]) else Recorded(m, t, x)
  {
    if n > 0 {
      FileFirstRecords(m, nodes, n - 1, t, x);
      FileRecords(FileFirst(m, nodes, n - 1), nodes[n - 1], t, x);
    }
  }

  /**
   * The tables of an unprocessed module after collection: a name is recorded exactly
   * when the module had it or a top-level node declares it, and the record is the
   * last such node.
   */
  lemma CollectedRecords(m: ModuleContext, t: Table, x: string)
    requires !m.processed
    ensures var body := Body(m.ast);
      var last := LastDeclaration(body, |body|, t, x);
      && (Recorded(Collected(m), t, x).Some? <==> Recorded(m, t, x).Some? || exists k :: 0 <= k < |body| && Declares(body[k]) == Some((t, x)))
      && (last.Some? ==> Recorded(Collected(m), t, x) == Some(body[last.value]))
  {
    var body := Body(m.ast);
    FileFirstRecords(m, body, |body|, t, x);
    assert Recorded(Collected(m), t, x) == Recorded(FileFirst(m, body, |body|), t, x);
  }

  /** Filing does not read the imports. */
  lemma {:induction false} FileFirstIgnoresImports(m: ModuleContext, nodes: seq<Node>, n: nat, imports: seq<SymbolInfo>)
    requires n <= |nodes|
    ensures FileFirst(m.(imports := imports), nodes, n) == FileFirst(m, nodes, n).(imports := imports)
  {
    if n > 0 {
      FileFirstIgnoresImports(m, nodes, n - 1, imports);
      FileIgnoresImports(FileFirst(m, nodes, n - 1), nodes[n - 1], imports);
    }
  }

  lemma FileIgnoresImports(m: ModuleContext, node: Node, imports: seq<SymbolInfo>)
    ensures File(m.(imports := imports), node) == File(m, node).(imports := imports)
  {
  }

  // ---------------------------------------------------------------------------------
  // Symbol lookup
  // ---------------------------------------------------------------------------------

  predicate HasSymbol(m: ModuleContext, s: string)
  {
    s in m.functions || s in m.globals || s in m.structs
  }

  /** `symbolExists`: the module is known and one of its tables has the name. */
  function SymbolExists(modules: map<string, ModuleContext>, moduleName: string, symbolName: string): (b: bool)
    ensures b <==> (moduleName in modules &&
      (Recorded(modules[moduleName], Functions, symbolName).Some? ||
       Recorded(modules[moduleName], Globals, symbolName).Some? ||
       Recorded(modules[moduleName], Structs, symbolName).Some?))
  {
    moduleName in modules && HasSymbol(modules[moduleName], symbolName)
  }

  /** `getSymbolType`: functions first, then globals, then structs; FUNCTION for an unknown module or name. */
  function GetSymbolType(modules: map<string, ModuleContext>, moduleName: string, symbolName: string): (r: SymbolType)
    ensures r == VariableSymbol <==> (moduleName in modules &&
      symbolName !in modules[moduleName].functions && symbolName in modules[moduleName].globals)
    ensures r == StructSymbol <==> (moduleName in modules && symbolName !in modules[moduleName].functions &&
      symbolName !in modules[moduleName].globals && symbolName in modules[moduleName].structs)
    ensures !SymbolExists(modules, moduleName, symbolName) ==> r == FunctionSymbol
  {
    if moduleName !in modules then FunctionSymbol
    else
      var m := modules[moduleName];
      if symbolName in m.functions then FunctionSymbol
      else if symbolName in m.globals then VariableSymbol
      else if symbolName in m.structs then StructSymbol
      else FunctionSymbol
  }

  // ---------------------------------------------------------------------------------
  // Import processing
  // ---------------------------------------------------------------------------------

  /** Symbols of one kind from one module, named in the given order. */
  function Symbols(names: seq<string>, t: SymbolType, moduleName: string): (r: seq<SymbolInfo>)
    ensures |r| == |names|
    ensures forall k :: 0 <= k < |names| ==> r[k] == SymbolInfo(t, names[k], moduleName)
  {
    seq(|names|, k requires 0 <= k < |names| => SymbolInfo(t, names[k], moduleName))
  }

  /** What a whole-module import appends: the functions, then the globals, then the structs. */
  function WholeModule(target: ModuleContext, targetName: string, order: set<string> -> seq<string>): seq<SymbolInfo>
  {
    Symbols(order(target.functions.Keys), FunctionSymbol, targetName) +
    Symbols(order(target.globals.Keys), VariableSymbol, targetName) +
    Symbols(order(target.structs.Keys), StructSymbol, targetName)
  }

  /** The module map with symbols appended to one module's imports. */
  function AddImports(modules: map<string, ModuleContext>, name: string, syms: seq<SymbolInfo>): (r: map<string, ModuleContext>)
    requires name in modules
    ensures r.Keys == modules.Keys
  {
    modules[name := modules[name].(imports := modules[name].imports + syms)]
  }

  /** Appending in two steps is appending the concatenation. */
  lemma AddImportsTwice(modules: map<string, ModuleContext>, name: string, a: seq<SymbolInfo>, b: seq<SymbolInfo>)
    requires name in modules
    ensures AddImports(AddImports(modules, name, a), name, b) == AddImports(modules, name, a + b)
  {
    assert modules[name].imports + a + b == modules[name].imports + (a + b);
  }

  /**
   * One import path of module `name`: an empty path is skipped; an unknown module fails;
   * otherwise the target is collected, then either the named symbol (which must exist)
   * or the whole module is imported.
   */
  function ImportPath(modules: map<string, ModuleContext>, name: string, path: seq<string>,
                      order: set<string> -> seq<string>): (r: (bool, map<string, ModuleContext>))
    requires name in modules
    ensures r.1.Keys == modules.Keys
  {
    if path == [] then (true, modules)
    else if path[0] !in modules then (false, modules)
    else
      var target := path[0];
      var ms := modules[target := Collected(modules[target])];
      if |path| > 1 then
        if !SymbolExists(ms, target, path[1]) then (false, ms)
        else (true, AddImports(ms, name, [SymbolInfo(GetSymbolType(ms, target, path[1]), path[1], target)]))
      else (true, AddImports(ms, name, WholeModule(ms[target], target, order)))
  }

  /** The paths of one import node from the `j`-th on, stopping at the first failure. */
  function ImportPaths(modules: map<string, ModuleContext>, name: string, paths: seq<(seq<string>, string)>, j: nat,
                       order: set<string> -> seq<string>): (r: (bool, map<string, ModuleContext>))
    requires name in modules && j <= |paths|
    ensures r.1.Keys == modules.Keys
    decreases |paths| - j
  {
    if j == |paths| then (true, modules)
    else
      var step := ImportPath(modules, name, paths[j].0, order);
      if !step.0 then step else ImportPaths(step.1, name, paths, j + 1, order)
  }

  /** The import nodes among `body[i..]`, stopping at the first failure. */
  function ImportsFrom(modules: map<string, ModuleContext>, name: string, body: seq<Node>, i: nat,
                       order: set<string> -> seq<string>): (r: (bool, map<string, ModuleContext>))
    requires name in modules && i <= |body|
    ensures r.1.Keys == modules.Keys
    decreases |body| - i
  {
    if i == |body| then (true, modules)
    else if body[i].kind.ImportNode? then
      var step := ImportPaths(modules, name, body[i].kind.paths, 0, order);
      if !step.0 then step else ImportsFrom(step.1, name, body, i + 1, order)
    else ImportsFrom(modules, name, body, i + 1, order)
  }

  /** `processImports` of module `name`. */
  function ProcessImportsOf(modules: map<string, ModuleContext>, name: string, order: set<string> -> seq<string>): (r: (bool, map<string, ModuleContext>))
    requires name in modules
    ensures r.1.Keys == modules.Keys
  {
    ImportsFrom(modules, name, Body(modules[name].ast), 0, order)
  }

  // ---------------------------------------------------------------------------------
  // Which imports succeed
  // ---------------------------------------------------------------------------------

  /** A module's declarations as collection leaves them, without its imports. */
  function Defs(m: ModuleContext): ModuleContext
  {
    Collected(m).(imports := [])
  }

  /** Two module maps with the same names and the same declarations (imports and collection state may differ). */
  predicate Stable(before: map<string, ModuleContext>, after: map<string, ModuleContext>)
  {
    after.Keys == before.Keys && forall k :: k in after ==> Defs(after[k]) == Defs(before[k])
  }

  /** An import path succeeds: it is empty, or it names a known module and, if it names a symbol, the module declares it. */
  predicate PathOk(modules: map<string, ModuleContext>, path: seq<string>)
  {
    path == [] || (path[0] in modules && (|path| > 1 ==> HasSymbol(Defs(modules[path[0]]), path[1])))
  }

  /** Every path of every import node in `body[i..]` succeeds. */
  predicate ImportsOk(modules: map<string, ModuleContext>, body: seq<Node>, i: nat)
  {
    forall k, j :: i <= k < |body| && body[k].kind.ImportNode? && 0 <= j < |body[k].kind.paths| ==>
      PathOk(modules, body[k].kind.paths[j].0)
  }

  lemma CollectedDefs(m: ModuleContext)
    ensures Defs(Collected(m)) == Defs(m)
  {
  }

  lemma ImportsDefs(m: ModuleContext, imports: seq<SymbolInfo>)
    ensures Defs(m.(imports := imports)) == Defs(m)
  {
    if !m.processed {
      var body := Body(m.ast);
      FileFirstIgnoresImports(m, body, |body|, imports);
    }
  }

  lemma StableTransitive(a: map<string, ModuleContext>, b: map<string, ModuleContext>, c: map<string, ModuleContext>)
    requires Stable(a, b) && Stable(b, c)
    ensures Stable(a, c)
  {
  }

  /** Success of a path depends only on the declarations. */
  lemma PathOkStable(a: map<string, ModuleContext>, b: map<string, ModuleContext>, path: seq<string>)
    requires Stable(a, b)
    ensures PathOk(a, path) <==> PathOk(b, path)
  {
  }

  /** One path succeeds exactly when `PathOk` holds, and changes no declarations. */
  lemma ImportPathSpec(modules: map<string, ModuleContext>, name: string, path: seq<string>, order: set<string> -> seq<string>)
    requires name in modules
    ensures ImportPath(modules, name, path, order).0 <==> PathOk(modules, path)
    ensures Stable(modules, ImportPath(modules, name, path, order).1)
  {
    if path != [] && path[0] in modules {
      var target := path[0];
      var ms := modules[target := Collected(modules[target])];
      CollectedDefs(modules[target]);
      assert Stable(modules, ms);
      var m := ms[name];
      var r := ImportPath(modules, name, path, order);
      if |path| > 1 {
        assert SymbolExists(ms, target, path[1]) <==> HasSymbol(Defs(modules[target]), path[1]);
        if SymbolExists(ms, target, path[1]) {
          ImportsDefs(m, m.imports + [SymbolInfo(GetSymbolType(ms, target, path[1]), path[1], target)]);
        }
      } else {
        ImportsDefs(m, m.imports + WholeModule(ms[target], target, order));
      }
    }
  }

  /** The paths from the `j`-th succeed exactly when each of them is `PathOk`. */
  lemma {:induction false} ImportPathsSpec(modules: map<string, ModuleContext>, name: string, paths: seq<(seq<string>, string)>, j: nat,
                                           order: set<string> -> seq<string>)
    requires name in modules && j <= |paths|
    ensures ImportPaths(modules, name, paths, j, order).0 <==> forall q :: j <= q < |paths| ==> PathOk(modules, paths[q].0)
    ensures Stable(modules, ImportPaths(modules, name, paths, j, order).1)
    decreases |paths| - j
  {
    if j < |paths| {
      ImportPathSpec(modules, name, paths[j].0, order);
      var step := ImportPath(modules, name, paths[j].0, order);
      if step.0 {
        ImportPathsSpec(step.1, name, paths, j + 1, order);
        StableTransitive(modules, step.1, ImportPaths(step.1, name, paths, j + 1, order).1);
        forall q | j + 1 <= q < |paths|
          ensures PathOk(modules, paths[q].0) <==> PathOk(step.1, paths[q].0)
        {
          PathOkStable(modules, step.1, paths[q].0);
        }
      }
    }
  }

  /** The import nodes of `body[i..]` all succeed exactly when `ImportsOk` holds. */
  lemma {:induction false} ImportsFromSpec(modules: map<string, ModuleContext>, name: string, body: seq<Node>, i: nat,
                                           order: set<string> -> seq<string>)
    requires name in modules && i <= |body|
    ensures ImportsFrom(modules, name, body, i, order).0 <==> ImportsOk(modules, body, i)
    ensures Stable(modules, ImportsFrom(modules, name, body, i, order).1)
    decreases |body| - i
  {
    if i < |body| {
      if body[i].kind.ImportNode? {
        var paths := body[i].kind.paths;
        ImportPathsSpec(modules, name, paths, 0, order);
        var step := ImportPaths(modules, name, paths, 0, order);
        if step.0 {
          ImportsFromSpec(step.1, name, body, i + 1, order);
          StableTransitive(modules, step.1, ImportsFrom(step.1, name, body, i + 1, order).1);
          ImportsOkStable(modules, step.1, body, i + 1);
        }
      } else {
        ImportsFromSpec(modules, name, body, i + 1, order);
      }
    }
  }

  lemma ImportsOkStable(a: map<string, ModuleContext>, b: map<string, ModuleContext>, body: seq<Node>, i: nat)
    requires Stable(a, b)
    ensures ImportsOk(a, body, i) <==> ImportsOk(b, body, i)
  {
    forall k, j | i <= k < |body| && body[k].kind.ImportNode? && 0 <= j < |body[k].kind.paths|
      ensures PathOk(a, body[k].kind.paths[j].0) <==> PathOk(b, body[k].kind.paths[j].0)
    {
      PathOkStable(a, b, body[k].kind.paths[j].0);
    }
  }

  /**
   * `processImports` succeeds exactly when every path of every import node names a
   * known module and, where it names a symbol, a symbol that module declares; either
   * way no declarations change.
   */
  lemma ProcessImportsSucceedsIff(modules: map<string, ModuleContext>, name: string, order: set<string> -> seq<string>)
    requires name in modules
    ensures ProcessImportsOf(modules, name, order).0 <==> ImportsOk(modules, Body(modules[name].ast), 0)
    ensures Stable(modules, ProcessImportsOf(modules, name, order).1)
  {
    ImportsFromSpec(modules, name, Body(modules[name].ast), 0, order);
  }

  /**
   * A whole-module import adds one symbol per function, global and struct of the
   * (collected) target, all naming the target; a module may import itself.
   */
  lemma WholeModuleImportCount(modules: map<string, ModuleContext>, name: string, target: string, order: set<string> -> seq<string>)
    requires name in modules && target in modules
    requires var t := Collected(modules[target]);
      Enumerates(order(t.functions.Keys), t.functions.Keys) &&
      Enumerates(order(t.globals.Keys), t.globals.Keys) &&
      Enumerates(order(t.structs.Keys), t.structs.Keys)
    ensures var r := ImportPath(modules, name, [target], order);
      var t := Collected(modules[target]);
      var added := r.1[name].imports[|modules[name].imports|..];
      && r.0
      && |r.1[name].imports| == |modules[name].imports| + |t.functions| + |t.globals| + |t.structs|
      && r.1[name].imports[..|modules[name].imports|] == modules[name].imports
      && (forall s :: s in added ==> s.moduleName == target)
      && (forall f :: f in t.functions ==> SymbolInfo(FunctionSymbol, f, target) in added)
      && (forall g :: g in t.globals ==> SymbolInfo(VariableSymbol, g, target) in added)
      && (forall x :: x in t.structs ==> SymbolInfo(StructSymbol, x, target) in added)
  {
    var t := Collected(modules[target]);
    var r := ImportPath(modules, name, [target], order);
    var ms := modules[target := t];
    assert ms[target] == t;
    assert ms[name].imports == modules[name].imports;
    var w := WholeModule(t, target, order);
    assert r.1[name].imports == modules[name].imports + w;
    WholeModuleShape(t, target, order);
  }

  /** The symbols of a whole-module import: one per function, global and struct, all naming the module. */
  lemma WholeModuleShape(t: ModuleContext, target: string, order: set<string> -> seq<string>)
    requires Enumerates(order(t.functions.Keys), t.functions.Keys)
    requires Enumerates(order(t.globals.Keys), t.globals.Keys)
    requires Enumerates(order(t.structs.Keys), t.structs.Keys)
    ensures var w := WholeModule(t, target, order);
      && |w| == |t.functions| + |t.globals| + |t.structs|
      && (forall s :: s in w ==> s.moduleName == target)
      && (forall f :: f in t.functions ==> SymbolInfo(FunctionSymbol, f, target) in w)
      && (forall g :: g in t.globals ==> SymbolInfo(VariableSymbol, g, target) in w)
      && (forall x :: x in t.structs ==> SymbolInfo(StructSymbol, x, target) in w)
  {
    var a := Symbols(order(t.functions.Keys), FunctionSymbol, target);
    var b := Symbols(order(t.globals.Keys), VariableSymbol, target);
    var c := Symbols(order(t.structs.Keys), StructSymbol, target);
    assert WholeModule(t, target, order) == a + b + c;
    SymbolsNameModule(order(t.functions.Keys), FunctionSymbol, target);
    SymbolsNameModule(order(t.globals.Keys), VariableSymbol, target);
    SymbolsNameModule(order(t.structs.Keys), StructSymbol, target);
    SymbolsListAll(order(t.functions.Keys), t.functions.Keys, FunctionSymbol, target);
    SymbolsListAll(order(t.globals.Keys), t.globals.Keys, VariableSymbol, target);
    SymbolsListAll(order(t.structs.Keys), t.structs.Keys, StructSymbol, target);
  }

  /** Every listed symbol names the module it was listed for. */
  lemma SymbolsNameModule(names: seq<string>, kind: SymbolType, moduleName: string)
    ensures forall s :: s in Symbols(names, kind, moduleName) ==> s.moduleName == moduleName && s.symbolType == kind
  {
  }

  /** Listing an enumeration of a key set gives one symbol for every key. */
  lemma SymbolsListAll(names: seq<string>, keys: set<string>, kind: SymbolType, moduleName: string)
    requires Enumerates(names, keys)
    ensures forall x :: x in keys ==> SymbolInfo(kind, x, moduleName) in Symbols(names, kind, moduleName)
  {
    forall x | x in keys
      ensures SymbolInfo(kind, x, moduleName) in Symbols(names, kind, moduleName)
    {
      var k :| 0 <= k < |names| && names[k] == x;
      assert Symbols(names, kind, moduleName)[k] == SymbolInfo(kind, x, moduleName);
    }
  }



  // ---------------------------------------------------------------------------------
  // Linking all modules
  // ---------------------------------------------------------------------------------

  /** `validateImports` over the modules named `names[i..]`, stopping at the first failure. */
  function ValidateFrom(modules: map<string, ModuleContext>, names: seq<string>, i: nat,
                        order: set<string> -> seq<string>): (r: (bool, map<string, ModuleContext>))
    requires i <= |names| && forall k :: 0 <= k < |names| ==> names[k] in modules
    ensures r.1.Keys == modules.Keys
    decreases |names| - i
  {
    if i == |names| then (true, modules)
    else
      var step := ProcessImportsOf(modules, names[i], order);
      if !step.0 then step else ValidateFrom(step.1, names, i + 1, order)
  }

  /** The first loop of `linkModules` over `names[i..]`: collect, then process imports, ignoring failures. */
  function FirstPass(modules: map<string, ModuleContext>, names: seq<string>, i: nat,
                     order: set<string> -> seq<string>): (r: map<string, ModuleContext>)
    requires i <= |names| && forall k :: 0 <= k < |names| ==> names[k] in modules
    ensures r.Keys == modules.Keys
    decreases |names| - i
  {
    if i == |names| then modules
    else
      var collected := modules[names[i] := Collected(modules[names[i]])];
      FirstPass(ProcessImportsOf(collected, names[i], order).1, names, i + 1, order)
  }

  lemma {:induction false} FirstPassStable(modules: map<string, ModuleContext>, names: seq<string>, i: nat,
                                           order: set<string> -> seq<string>)
    requires i <= |names| && forall k :: 0 <= k < |names| ==> names[k] in modules
    ensures Stable(modules, FirstPass(modules, names, i, order))
    decreases |names| - i
  {
    if i < |names| {
      var collected := modules[names[i] := Collected(modules[names[i]])];
      CollectedDefs(modules[names[i]]);
      ProcessImportsSucceedsIff(collected, names[i], order);
      var next := ProcessImportsOf(collected, names[i], order).1;
      FirstPassStable(next, names, i + 1, order);
      StableTransitive(modules, collected, next);
      StableTransitive(modules, next, FirstPass(next, names, i + 1, order));
    }
  }

  /** Every module named in `names[i..]` has only successful imports. */
  predicate AllImportsOk(modules: map<string, ModuleContext>, names: seq<string>, i: nat)
    requires forall k :: 0 <= k < |names| ==> names[k] in modules
  {
    forall k :: i <= k < |names| ==> ImportsOk(modules, Body(modules[names[k]].ast), 0)
  }

  lemma {:induction false} ValidateFromSpec(modules: map<string, ModuleContext>, names: seq<string>, i: nat,
                                            order: set<string> -> seq<string>)
    requires i <= |names| && forall k :: 0 <= k < |names| ==> names[k] in modules
    ensures ValidateFrom(modules, names, i, order).0 <==> AllImportsOk(modules, names, i)
    ensures Stable(modules, ValidateFrom(modules, names, i, order).1)
    decreases |names| - i
  {
    if i < |names| {
      ProcessImportsSucceedsIff(modules, names[i], order);
      var step := ProcessImportsOf(modules, names[i], order);
      if step.0 {
        ValidateFromSpec(step.1, names, i + 1, order);
        StableTransitive(modules, step.1, ValidateFrom(step.1, names, i + 1, order).1);
        AllImportsOkStable(modules, step.1, names, i + 1);
      }
    }
  }

  lemma AllImportsOkStable(a: map<string, ModuleContext>, b: map<string, ModuleContext>, names: seq<string>, i: nat)
    requires Stable(a, b) && forall k :: 0 <= k < |names| ==> names[k] in a
    ensures AllImportsOk(a, names, i) <==> AllImportsOk(b, names, i)
  {
    forall k | i <= k < |names|
      ensures ImportsOk(a, Body(a[names[k]].ast), 0) <==> ImportsOk(b, Body(b[names[k]].ast), 0)
    {
      assert Defs(a[names[k]]).ast == Defs(b[names[k]]).ast;
      ImportsOkStable(a, b, Body(a[names[k]].ast), 0);
    }
  }

  /** `linkModules`: the first pass, then `validateImports`, both over the modules in iteration order. */
  function Link(modules: map<string, ModuleContext>, order: set<string> -> seq<string>): (r: (bool, map<string, ModuleContext>))
    requires Enumerates(order(modules.Keys), modules.Keys)
    ensures r.1.Keys == modules.Keys
  {
    var names := order(modules.Keys);
    ValidateFrom(FirstPass(modules, names, 0, order), names, 0, order)
  }

  /**
   * Linking succeeds exactly when every import of every module names a known module
   * and, where it names a symbol, one that module declares.
   */
  lemma LinkSucceedsIff(modules: map<string, ModuleContext>, order: set<string> -> seq<string>)
    requires Enumerates(order(modules.Keys), modules.Keys)
    ensures Link(modules, order).0 <==>
      forall name :: name in modules ==> ImportsOk(modules, Body(modules[name].ast), 0)
  {
    var names := order(modules.Keys);
    var first := FirstPass(modules, names, 0, order);
    FirstPassStable(modules, names, 0, order);
    ValidateFromSpec(first, names, 0, order);
    AllImportsOkStable(modules, first, names, 0);
  }

  /** With a single module, linking succeeds exactly when that module's imports do. */
  lemma LinkAlone(modules: map<string, ModuleContext>, name: string, order: set<string> -> seq<string>)
    requires modules.Keys == {name} && Enumerates(order({name}), {name})
    ensures Link(modules, order).0 <==> ImportsOk(modules, Body(modules[name].ast), 0)
  {
    LinkSucceedsIff(modules, order);
  }

  /** Linking, whether it succeeds or not, changes no module's declarations. */
  lemma LinkKeepsDeclarations(modules: map<string, ModuleContext>, order: set<string> -> seq<string>)
    requires Enumerates(order(modules.Keys), modules.Keys)
    ensures Stable(modules, Link(modules, order).1)
  {
    var names := order(modules.Keys);
    var first := FirstPass(modules, names, 0, order);
    FirstPassStable(modules, names, 0, order);
    ValidateFromSpec(first, names, 0, order);
    StableTransitive(modules, first, ValidateFrom(first, names, 0, order).1);
  }

  /** A module whose only statement imports one existing symbol gains exactly that symbol. */
  lemma SymbolImport(modules: map<string, ModuleContext>, name: string, target: string, symbol: string, alias: string,
                     order: set<string> -> seq<string>)
    requires name in modules && target in modules
    requires Body(modules[name].ast) == [Plain(ImportNode([([target, symbol], alias)]))]
    requires HasSymbol(Defs(modules[target]), symbol)
    ensures var ms := modules[target := Collected(modules[target])];
      ProcessImportsOf(modules, name, order) ==
        (true, AddImports(ms, name, [SymbolInfo(GetSymbolType(ms, target, symbol), symbol, target)]))
  {
    var ms := modules[target := Collected(modules[target])];
    var after := AddImports(ms, name, [SymbolInfo(GetSymbolType(ms, target, symbol), symbol, target)]);
    var body := Body(modules[name].ast);
    var paths := body[0].kind.paths;
    assert ImportPath(modules, name, paths[0].0, order) == (true, after);
    assert ImportPaths(after, name, paths, 1, order) == (true, after);
    assert ImportPaths(modules, name, paths, 0, order) == (true, after);
    assert ImportsFrom(after, name, body, 1, order) == (true, after);
  }

  /**
   * Imports are never deduplicated: processing a module twice, as `linkModules` does,
   * records a symbol import twice.
   */
  lemma ImportedTwice(modules: map<string, ModuleContext>, name: string, target: string, symbol: string, alias: string,
                      order: set<string> -> seq<string>)
    requires name in modules && target in modules && name != target
    requires Body(modules[name].ast) == [Plain(ImportNode([([target, symbol], alias)]))]
    requires HasSymbol(Defs(modules[target]), symbol)
    ensures var once := ProcessImportsOf(modules, name, order).1;
      var twice := ProcessImportsOf(once, name, order).1;
      var s := SymbolInfo(GetSymbolType(modules[target := Collected(modules[target])], target, symbol), symbol, target);
      twice[name].imports == modules[name].imports + [s, s]
  {
    var ms := modules[target := Collected(modules[target])];
    var s := SymbolInfo(GetSymbolType(ms, target, symbol), symbol, target);
    SymbolImport(modules, name, target, symbol, alias, order);
    var once := AddImports(ms, name, [s]);
    assert once[target] == ms[target] && once[target].processed;
    assert once[target := Collected(once[target])] == once;
    CollectedDefs(modules[target]);
    SymbolImport(once, name, target, symbol, alias, order);
    assert GetSymbolType(once, target, symbol) == GetSymbolType(ms, target, symbol);
  }

  class Linker {
    /** Where the standard library would be searched; only module loading reads it. */
    const stdLibPath: string
    var modules: map<string, ModuleContext>

    constructor (stdLibPath: string)
      ensures this.stdLibPath == stdLibPath && modules == map[]
    {
      this.stdLibPath := stdLibPath;
      modules := map[];
    }

    /** `addModule`: fails and changes nothing when the name is taken; otherwise registers a fresh module. */
    method AddModule(name: string, path: string, ast: Node) returns (ok: bool)
      modifies this
      ensures ok <==> name !in old(modules)
      ensures modules == if ok then old(modules)[name := NewModule(name, path, ast)] else old(modules)
    {
      if name in modules {
        return false;
      }
      modules := modules[name := NewModule(name, path, ast)];
      return true;
    }

    /** `collectModuleInfo` on the module registered under `name`. */
    method CollectModuleInfo(name: string)
      requires name in modules
      modifies this
      ensures modules == old(modules)[name := Collected(old(modules)[name])]
    {
      var m := modules[name];
      if m.processed {
        return;
      }
      var body := Body(m.ast);
      var i := 0;
      while i < |body|
        invariant 0 <= i <= |body|
        invariant m == FileFirst(modules[name], body, i)
      {
        var node := body[i];
        match node.kind {
          case VariableAssignNode(n, isConst, vt, _) =>
            m := m.(globals := m.globals[n := VariableInfo(node, TypeToString(vt), isConst, true)]);
          case FunctionNode(n, _, rt, ps, _, _) =>
            var params: seq<(string, string)> := [];
            for k := 0 to |ps|
              invariant params == ParamStrings(ps[..k])
            {
              params := params + [(TypeToString(ps[k].paramType), ps[k].paramName)];
            }
            assert ps[..|ps|] == ps;
            m := m.(functions := m.functions[n := FunctionInfo(node, TypeToString(rt), params, true)]);
          case StructNode(n, _) =>
            m := m.(structs := m.structs[n := StructInfo(node, true)]);
          case _ =>
        }
        i := i + 1;
      }
      modules := modules[name := m.(processed := true)];
    }

    /** Appends one symbol of kind `t` from `target` per name, in order, to the imports of `name`. */
    method AppendSymbols(name: string, names: seq<string>, t: SymbolType, target: string)
      requires name in modules
      modifies this
      ensures modules == AddImports(old(modules), name, Symbols(names, t, target))
    {
      ghost var m0 := modules;
      assert m0[name].imports + Symbols(names[..0], t, target) == m0[name].imports;
      assert AddImports(m0, name, Symbols(names[..0], t, target)) == m0;
      for k := 0 to |names|
        invariant name in modules
        invariant modules == AddImports(m0, name, Symbols(names[..k], t, target))
      {
        var symbol := SymbolInfo(t, names[k], target);
        modules := modules[name := modules[name].(imports := modules[name].imports + [symbol])];
        assert Symbols(names[..k + 1], t, target) == Symbols(names[..k], t, target) + [symbol];
        assert m0[name].imports + Symbols(names[..k + 1], t, target) ==
          (m0[name].imports + Symbols(names[..k], t, target)) + [symbol];
      }
      assert names[..|names|] == names;
    }

    /** `processImports` of the module registered under `name`. */
    method ProcessImports(name: string, order: set<string> -> seq<string>) returns (ok: bool)
      requires name in modules
      modifies this
      ensures (ok, modules) == ProcessImportsOf(old(modules), name, order)
    {
      var body := Body(modules[name].ast);
      var i := 0;
      while i < |body|
        invariant 0 <= i <= |body| && name in modules
        invariant ImportsFrom(modules, name, body, i, order) == ProcessImportsOf(old(modules), name, order)
      {
        if body[i].kind.ImportNode? {
          var paths := body[i].kind.paths;
          var j := 0;
          while j < |paths|
            invariant 0 <= j <= |paths| && name in modules
            invariant ContinueImports(ImportPaths(modules, name, paths, j, order), name, body, i, order)
                      == ProcessImportsOf(old(modules), name, order)
          {
            ok := ImportOnePath(name, paths[j].0, order);
            if !ok {
              return;
            }
            j := j + 1;
          }
        }
        i := i + 1;
      }
      return true;
    }

    /** The body of the path loop of `processImports` for one path. */
    method ImportOnePath(name: string, path: seq<string>, order: set<string> -> seq<string>) returns (ok: bool)
      requires name in modules
      modifies this
      ensures (ok, modules) == ImportPath(old(modules), name, path, order)
    {
      if path == [] {
        return true;
      }
      var target := path[0];
      if target !in modules {
        // Module loading from the file system is not part of this model: it fails.
        return false;
      }
      CollectModuleInfo(target);
      if |path| > 1 {
        var symbolName := path[1];
        if !SymbolExists(modules, target, symbolName) {
          return false;
        }
        var symbol := SymbolInfo(GetSymbolType(modules, target, symbolName), symbolName, target);
        modules := modules[name := modules[name].(imports := modules[name].imports + [symbol])];
      } else {
        var t := modules[target];
        ghost var ms := modules;
        var fs := Symbols(order(t.functions.Keys), FunctionSymbol, target);
        var gs := Symbols(order(t.globals.Keys), VariableSymbol, target);
        AppendSymbols(name, order(t.functions.Keys), FunctionSymbol, target);
        AppendSymbols(name, order(t.globals.Keys), VariableSymbol, target);
        AddImportsTwice(ms, name, fs, gs);
        AppendSymbols(name, order(t.structs.Keys), StructSymbol, target);
        AddImportsTwice(ms, name, fs + gs, Symbols(order(t.structs.Keys), StructSymbol, target));
      }
      return true;
    }

    /** `validateImports`: processes every module's imports in iteration order, stopping at the first failure. */
    method ValidateImports(order: set<string> -> seq<string>) returns (ok: bool)
      requires Enumerates(order(modules.Keys), modules.Keys)
      modifies this
      ensures (ok, modules) == ValidateFrom(old(modules), order(old(modules).Keys), 0, order)
    {
      var names := order(modules.Keys);
      EnumeratedKeys(names, modules);
      var i := 0;
      while i < |names|
        invariant 0 <= i <= |names| && modules.Keys == old(modules).Keys
        invariant forall k :: 0 <= k < |names| ==> names[k] in modules
        invariant ValidateFrom(modules, names, i, order) == ValidateFrom(old(modules), names, 0, order)
      {
        ok := ValidateStep(names, i, order);
        if !ok {
          return;
        }
        i := i + 1;
      }
      return true;
    }

    /** One round of `validateImports`: the imports of `names[i]`, after which the walk stops or goes on with the rest. */
    method ValidateStep(names: seq<string>, i: nat, order: set<string> -> seq<string>) returns (ok: bool)
      requires i < |names| && forall k :: 0 <= k < |names| ==> names[k] in modules
      modifies this
      ensures modules.Keys == old(modules).Keys
      ensures forall k :: 0 <= k < |names| ==> names[k] in modules
      ensures !ok ==> (ok, modules) == ValidateFrom(old(modules), names, i, order)
      ensures ok ==> ValidateFrom(modules, names, i + 1, order) == ValidateFrom(old(modules), names, i, order)
    {
      ghost var before := modules;
      ok := ProcessImports(names[i], order);
      SameKeys(names, before, modules);
    }

    /** `linkModules`: collects and processes every module, then validates all imports. */
    method LinkModules(order: set<string> -> seq<string>) returns (ok: bool)
      requires Enumerates(order(modules.Keys), modules.Keys)
      modifies this
      ensures (ok, modules) == Link(old(modules), order)
    {
      var names := order(modules.Keys);
      EnumeratedKeys(names, modules);
      var i := 0;
      while i < |names|
        invariant 0 <= i <= |names| && modules.Keys == old(modules).Keys
        invariant forall k :: 0 <= k < |names| ==> names[k] in modules
        invariant FirstPass(modules, names, i, order) == FirstPass(old(modules), names, 0, order)
      {
        CollectModuleInfo(names[i]);
        var _ := ProcessImports(names[i], order);
        i := i + 1;
      }
      ok := ValidateImports(order);
    }

    /** `getLinkedASTs`: every module's program, in iteration order. */
    method GetLinkedASTs(order: set<string> -> seq<string>) returns (asts: seq<Node>)
      requires Enumerates(order(modules.Keys), modules.Keys)
      ensures |asts| == |modules|
      ensures forall k :: 0 <= k < |asts| ==> asts[k] == modules[order(modules.Keys)[k]].ast
    {
      var names := order(modules.Keys);
      asts := [];
      for i := 0 to |names|
        invariant |asts| == i
        invariant forall k :: 0 <= k < i ==> asts[k] == modules[names[k]].ast
      {
        asts := asts + [modules[names[i]].ast];
      }
    }
  }

  /** What remains of `processImports` after the paths of the import node at `body[i]` yield `step`. */
  function ContinueImports(step: (bool, map<string, ModuleContext>), name: string, body: seq<Node>, i: nat,
                           order: set<string> -> seq<string>): (bool, map<string, ModuleContext>)
    requires name in step.1 && i < |body|
  {
    if !step.0 then step else ImportsFrom(step.1, name, body, i + 1, order)
  }
}
