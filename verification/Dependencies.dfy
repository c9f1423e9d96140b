/** The order in which the diagnosis lists the tools a project needs, dependencies first. */
module Dependencies {

  datatype Tool =
    | Cargo | CargoComponent | ComponentizeJs | ComponentizePy | Go | GolemSdkGo | GolemSdkRust
    | GolemSdkTypeScript | Jco | Node | Npm | Pip | Python | Rustc | Rustup | RustTargetWasm32WasiP1
    | TinyGo | WasiSdk | WasmTools | WitBindgen | Zig

  type Relation = Tool -> seq<Tool>

  function DirectDependencies(tool: Tool): seq<Tool> {
    match tool
    case Cargo => [Rustup]
    case CargoComponent => [Cargo]
    case ComponentizeJs => [Npm]
    case ComponentizePy => [Pip]
    case Go => []
    case GolemSdkGo => [Go]
    case GolemSdkRust => [Cargo]
    case GolemSdkTypeScript => [Npm]
    case Jco => [Npm]
    case Node => []
    case Npm => [Node]
    case Pip => [Python]
    case Python => []
    case Rustc => [Rustup]
    case Rustup => []
    case RustTargetWasm32WasiP1 => [Rustc]
    case TinyGo => [Go]
    case WasiSdk => []
    case WasmTools => [Cargo]
    case WitBindgen => [Cargo]
    case Zig => []
  }

  // ---------------------------------------------------------------- paths

  /** From a to b in n steps, each from a tool to one it directly depends on. */
  ghost predicate Path(deps: Relation, a: Tool, b: Tool, n: nat)
    decreases n
  {
    if n == 0 then a == b else exists c :: c in deps(a) && Path(deps, c, b, n - 1)
  }

  ghost predicate Needs(deps: Relation, a: Tool, b: Tool) {
    exists n: nat :: n > 0 && Path(deps, a, b, n)
  }

  /** What the listed tools need, themselves included. */
  ghost predicate InClosure(deps: Relation, tools: seq<Tool>, b: Tool) {
    exists a, n: nat :: a in tools && Path(deps, a, b, n)
  }

  lemma PathFrom(deps: Relation, a: Tool, d: Tool, b: Tool, n: nat)
    requires d in deps(a) && Path(deps, d, b, n)
    ensures Path(deps, a, b, n + 1)
  {
  }

  lemma {:induction false} PathExtends(deps: Relation, a: Tool, b: Tool, c: Tool, n: nat)
    requires Path(deps, a, b, n) && c in deps(b)
    ensures Path(deps, a, c, n + 1)
    decreases n
  {
    if n == 0 {
      assert Path(deps, c, c, 0);
    } else {
      var d :| d in deps(a) && Path(deps, d, b, n - 1);
      PathExtends(deps, d, b, c, n - 1);
      PathFrom(deps, a, d, c, n);
    }
  }

  lemma NeedsDirectly(deps: Relation, a: Tool, b: Tool)
    requires b in deps(a)
    ensures Needs(deps, a, b)
  {
    assert Path(deps, b, b, 0);
    assert Path(deps, a, b, 1);
  }

  lemma NeedsMore(deps: Relation, a: Tool, b: Tool, c: Tool)
    requires Needs(deps, a, b) && c in deps(b)
    ensures Needs(deps, a, c)
  {
    var n: nat :| n > 0 && Path(deps, a, b, n);
    PathExtends(deps, a, b, c, n);
  }

  // ---------------------------------------------------------------- collecting

  const ALL_TOOLS: set<Tool> :=
    {Cargo, CargoComponent, ComponentizeJs, ComponentizePy, Go, GolemSdkGo, GolemSdkRust, GolemSdkTypeScript, Jco, Node,
     Npm, Pip, Python, Rustc, Rustup, RustTargetWasm32WasiP1, TinyGo, WasiSdk, WasmTools, WitBindgen, Zig}

  lemma IsListed(t: Tool)
    ensures t in ALL_TOOLS
  {
    match t case Cargo => case CargoComponent => case ComponentizeJs => case ComponentizePy => case Go => case GolemSdkGo =>
    case GolemSdkRust => case GolemSdkTypeScript => case Jco => case Node => case Npm => case Pip => case Python =>
    case Rustc => case Rustup => case RustTargetWasm32WasiP1 => case TinyGo => case WasiSdk => case WasmTools =>
    case WitBindgen => case Zig =>
  }

  ghost predicate NoDuplicates(xs: seq<Tool>) {
    forall i, j :: 0 <= i < j < |xs| ==> xs[i] != xs[j]
  }

  /** Every tool comes after what it depends on, except that a dependency that needs the tool itself may be missing. */
  ghost predicate OrderedUpToCycles(deps: Relation, xs: seq<Tool>) {
    forall i, d :: 0 <= i < |xs| && d in deps(xs[i]) ==> d in xs[..i] || Needs(deps, d, xs[i])
  }

  /** What holds between calls: visited tools are collected or on the way, and collected ones have visited dependencies. */
  ghost predicate Consistent(deps: Relation, visited: set<Tool>, collected: seq<Tool>, open: set<Tool>) {
    && visited == (set t | t in collected) + open
    && NoDuplicates(collected) && (forall t :: t in open ==> t !in collected)
    && OrderedUpToCycles(deps, collected)
    && (forall t, d :: t in collected && d in deps(t) ==> d in visited)
  }

  /** The first m collected tools are what the first k listed ones need, as far as it was not visited before. */
  ghost predicate CutAt(deps: Relation, tools: seq<Tool>, visited0: set<Tool>, collected: seq<Tool>, open: set<Tool>, k: nat, m: nat)
  {
    && k <= |tools| && m <= |collected|
    && (forall t :: t in tools[..k] ==> t in collected[..m] || t in open)
    && (forall t :: t in collected[..m] ==> t in visited0 || InClosure(deps, tools[..k], t))
    && (forall t, d :: t in collected[..m] && d in deps(t) ==> d in collected[..m] || d in open)
  }

  ghost predicate CutsUpTo(deps: Relation, tools: seq<Tool>, visited0: set<Tool>, collected: seq<Tool>, open: set<Tool>,
                           k: nat, cuts: seq<nat>) {
    |cuts| == k + 1 && forall i :: 0 <= i <= k ==> CutAt(deps, tools, visited0, collected, open, i, cuts[i])
  }

  /** What the first k listed tools led to. */
  ghost predicate VisitedFor(deps: Relation, tools: seq<Tool>, visited0: set<Tool>, visited: set<Tool>, k: nat) {
    && k <= |tools| && visited0 <= visited
    && (forall t :: t in tools[..k] ==> t in visited)
    && (forall t :: t in visited && t !in visited0 ==> InClosure(deps, tools[..k], t))
  }

  lemma CutNow(deps: Relation, tools: seq<Tool>, visited0: set<Tool>, visited: set<Tool>, collected: seq<Tool>,
               open: set<Tool>, k: nat)
    requires Consistent(deps, visited, collected, open) && VisitedFor(deps, tools, visited0, visited, k)
    ensures CutAt(deps, tools, visited0, collected, open, k, |collected|)
  {
    assert collected[..|collected|] == collected;
  }

  lemma NextCut(deps: Relation, tools: seq<Tool>, visited0: set<Tool>, visited: set<Tool>, before: seq<Tool>,
                collected: seq<Tool>, open: set<Tool>, k: nat, cuts: seq<nat>)
    requires before <= collected && CutsUpTo(deps, tools, visited0, before, open, k, cuts)
    requires Consistent(deps, visited, collected, open) && VisitedFor(deps, tools, visited0, visited, k + 1)
    ensures CutsUpTo(deps, tools, visited0, collected, open, k + 1, cuts + [|collected|])
  {
    CutNow(deps, tools, visited0, visited, collected, open, k + 1);
    forall i | 0 <= i <= k ensures CutAt(deps, tools, visited0, collected, open, i, cuts[i]) {
      assert CutAt(deps, tools, visited0, before, open, i, cuts[i]);
      assert collected[..cuts[i]] == before[..cuts[i]];
    }
  }

  lemma ClosureGrows(deps: Relation, tools: seq<Tool>, k: nat, t: Tool)
    requires k < |tools| && InClosure(deps, tools[..k], t)
    ensures InClosure(deps, tools[..k + 1], t)
  {
    var a, n: nat :| a in tools[..k] && Path(deps, a, t, n);
    assert a in tools[..k + 1];
  }

  lemma VisitedNext(deps: Relation, tools: seq<Tool>, visited0: set<Tool>, before: set<Tool>, visited: set<Tool>, k: nat)
    requires k < |tools| && VisitedFor(deps, tools, visited0, before, k) && before <= visited && tools[k] in visited
    requires forall t :: t in visited && t !in before ==> t == tools[k] || InClosure(deps, deps(tools[k]), t)
    ensures VisitedFor(deps, tools, visited0, visited, k + 1)
  {
    assert tools[..k + 1] == tools[..k] + [tools[k]];
    forall t | t in visited && t !in visited0 ensures InClosure(deps, tools[..k + 1], t) {
      if t in before {
        ClosureGrows(deps, tools, k, t);
      } else {
        ClosureOfDependencies(deps, tools[..k + 1], tools[k], t);
      }
    }
  }

  lemma NeedsNext(deps: Relation, open: set<Tool>, tool: Tool)
    requires forall a :: a in open ==> Needs(deps, a, tool)
    ensures forall a, d :: a in open + {tool} && d in deps(tool) ==> Needs(deps, a, d)
  {
    forall a, d | a in open + {tool} && d in deps(tool) ensures Needs(deps, a, d) {
      if a == tool { NeedsDirectly(deps, tool, d); } else { NeedsMore(deps, a, tool, d); }
    }
  }

  method CollectDeps(deps: Relation, tools: seq<Tool>, visited0: set<Tool>, collected0: seq<Tool>, ghost open: set<Tool>)
    returns (visited: set<Tool>, collected: seq<Tool>, ghost cuts: seq<nat>)
    requires Consistent(deps, visited0, collected0, open)
    requires forall a, t :: a in open && t in tools ==> Needs(deps, a, t)
    ensures Consistent(deps, visited, collected, open) && collected0 <= collected
    ensures VisitedFor(deps, tools, visited0, visited, |tools|)
    ensures CutsUpTo(deps, tools, visited0, collected, open, |tools|, cuts)
    decreases ALL_TOOLS - visited0
  {
    visited, collected, cuts := visited0, collected0, [|collected0|];
    CutNow(deps, tools, visited0, visited0, collected0, open, 0);
    for k := 0 to |tools|
      invariant Consistent(deps, visited, collected, open) && collected0 <= collected
      invariant VisitedFor(deps, tools, visited0, visited, k)
      invariant CutsUpTo(deps, tools, visited0, collected, open, k, cuts)
    {
      var tool := tools[k];
      ghost var before, had := visited, collected;
      if tool !in visited {
        IsListed(tool);
        NeedsNext(deps, open, tool);
        ghost var inner;
        visited, collected, inner := CollectDeps(deps, deps(tool), visited + {tool}, collected, open + {tool});
        CollectedNext(deps, visited, collected, open, tool);
        collected := collected + [tool];
        assert deps(tool)[..|deps(tool)|] == deps(tool);
      }
      VisitedNext(deps, tools, visited0, before, visited, k);
      NextCut(deps, tools, visited0, visited, had, collected, open, k, cuts);
      cuts := cuts + [|collected|];
    }
  }

  lemma ClosureOfDependencies(deps: Relation, tools: seq<Tool>, tool: Tool, t: Tool)
    requires tool in tools && (t == tool || InClosure(deps, deps(tool), t))
    ensures InClosure(deps, tools, t)
  {
    if t == tool {
      assert Path(deps, tool, t, 0);
    } else {
      var a, n: nat :| a in deps(tool) && Path(deps, a, t, n);
      PathFrom(deps, tool, a, t, n);
    }
  }

  /** A tool whose dependencies are all visited can be collected: those on the way need the tool. */
  lemma CollectedNext(deps: Relation, visited: set<Tool>, collected: seq<Tool>, open: set<Tool>, tool: Tool)
    requires Consistent(deps, visited, collected, open + {tool}) && tool !in open
    requires forall a :: a in open ==> Needs(deps, a, tool)
    requires forall d :: d in deps(tool) ==> d in visited
    ensures Consistent(deps, visited, collected + [tool], open)
  {
    var now := collected + [tool];
    forall i, d | 0 <= i < |now| && d in deps(now[i]) ensures d in now[..i] || Needs(deps, d, now[i]) {
      if i < |collected| {
        assert now[..i] == collected[..i] && now[i] == collected[i];
      } else {
        assert now[..i] == collected;
        if d == tool { NeedsDirectly(deps, tool, tool); }
      }
    }
  }

  /** What the first k listed tools need, themselves included, comes first. */
  ghost predicate KeepsListOrder(deps: Relation, tools: seq<Tool>, allTools: seq<Tool>) {
    forall k :: 0 <= k <= |tools| ==> ListedFirst(deps, tools[..k], allTools)
  }

  ghost predicate ListedFirst(deps: Relation, first: seq<Tool>, allTools: seq<Tool>) {
    exists m :: 0 <= m <= |allTools| && forall t :: t in allTools[..m] <==> InClosure(deps, first, t)
  }

  lemma CutIsClosure(deps: Relation, tools: seq<Tool>, collected: seq<Tool>, k: nat, m: nat)
    requires CutAt(deps, tools, {}, collected, {}, k, m)
    ensures ListedFirst(deps, tools[..k], collected)
  {
    forall t | InClosure(deps, tools[..k], t) ensures t in collected[..m] {
      var a, n: nat :| a in tools[..k] && Path(deps, a, t, n);
      ClosedUnderPaths(deps, collected[..m], a, t, n);
    }
  }

  method WithAllDependencies(deps: Relation, tools: seq<Tool>) returns (allTools: seq<Tool>)
    ensures NoDuplicates(allTools)
    ensures forall t :: t in allTools <==> InClosure(deps, tools, t)
    ensures OrderedUpToCycles(deps, allTools) && KeepsListOrder(deps, tools, allTools)
  {
    var visited;
    ghost var cuts;
    visited, allTools, cuts := CollectDeps(deps, tools, {}, [], {});
    AllCutsAreClosures(deps, tools, allTools, cuts);
    CollectedIsClosure(deps, tools, visited, allTools);
  }

  lemma AllCutsAreClosures(deps: Relation, tools: seq<Tool>, collected: seq<Tool>, cuts: seq<nat>)
    requires CutsUpTo(deps, tools, {}, collected, {}, |tools|, cuts)
    ensures KeepsListOrder(deps, tools, collected)
  {
    forall k | 0 <= k <= |tools| ensures ListedFirst(deps, tools[..k], collected) {
      CutIsClosure(deps, tools, collected, k, cuts[k]);
    }
  }

  lemma CollectedIsClosure(deps: Relation, tools: seq<Tool>, visited: set<Tool>, collected: seq<Tool>)
    requires Consistent(deps, visited, collected, {}) && VisitedFor(deps, tools, {}, visited, |tools|)
    ensures forall t :: t in collected <==> InClosure(deps, tools, t)
  {
    assert tools[..|tools|] == tools;
    assert forall t :: t in visited <==> t in collected;
    forall t | InClosure(deps, tools, t) ensures t in collected {
      var a, n: nat :| a in tools && Path(deps, a, t, n);
      ClosedUnderPaths(deps, collected, a, t, n);
    }
  }

  lemma {:induction false} ClosedUnderPaths(deps: Relation, xs: seq<Tool>, a: Tool, b: Tool, n: nat)
    requires a in xs && Path(deps, a, b, n)
    requires forall t, d :: t in xs && d in deps(t) ==> d in xs
    ensures b in xs
    decreases n
  {
    if n > 0 {
      var c :| c in deps(a) && Path(deps, c, b, n - 1);
      ClosedUnderPaths(deps, xs, c, b, n - 1);
    }
  }

  // ---------------------------------------------------------------- dependencies first

  /** Every tool comes after all it depends on. */
  ghost predicate DependenciesFirst(deps: Relation, xs: seq<Tool>) {
    forall i, d :: 0 <= i < |xs| && d in deps(xs[i]) ==> d in xs[..i]
  }

  /** The collected list puts dependencies first exactly when no listed tool needs itself. */
  lemma DependenciesFirstIffAcyclic(deps: Relation, xs: seq<Tool>)
    requires OrderedUpToCycles(deps, xs) && NoDuplicates(xs)
    ensures DependenciesFirst(deps, xs) <==> forall t :: t in xs ==> !Needs(deps, t, t)
  {
    if DependenciesFirst(deps, xs) {
      forall t | t in xs ensures !Needs(deps, t, t) {
        var i :| 0 <= i < |xs| && xs[i] == t;
        if Needs(deps, t, t) {
          var n: nat :| n > 0 && Path(deps, t, t, n);
          var j := PathGoesDown(deps, xs, i, t, n);
        }
      }
    }
    if forall t :: t in xs ==> !Needs(deps, t, t) {
      forall i, d | 0 <= i < |xs| && d in deps(xs[i]) ensures d in xs[..i] {
        if Needs(deps, d, xs[i]) {
          var n: nat :| n > 0 && Path(deps, d, xs[i], n);
          PathFrom(deps, xs[i], d, xs[i], n);
          assert xs[i] in xs && Needs(deps, xs[i], xs[i]);
        }
      }
    }
  }

  /** With dependencies first, every step leads to an earlier position. */
  lemma {:induction false} PathGoesDown(deps: Relation, xs: seq<Tool>, i: nat, b: Tool, n: nat) returns (j: nat)
    requires DependenciesFirst(deps, xs) && i < |xs| && Path(deps, xs[i], b, n)
    ensures j <= i && xs[j] == b && (n > 0 ==> j < i)
    decreases n
  {
    if n == 0 {
      j := i;
    } else {
      var c :| c in deps(xs[i]) && Path(deps, c, b, n - 1);
      assert c in xs[..i];
      var k :| 0 <= k < i && xs[k] == c;
      j := PathGoesDown(deps, xs, k, b, n - 1);
    }
  }

  // ---------------------------------------------------------------- the actual tools

  /** The longest chain of dependencies below a tool. */
  function Height(tool: Tool): nat {
    match tool
    case Go => 0 case Node => 0 case Python => 0 case Rustup => 0 case WasiSdk => 0 case Zig => 0
    case Cargo => 1 case Npm => 1 case Pip => 1 case Rustc => 1 case GolemSdkGo => 1 case TinyGo => 1
    case CargoComponent => 2 case ComponentizeJs => 2 case ComponentizePy => 2 case GolemSdkRust => 2
    case GolemSdkTypeScript => 2 case Jco => 2 case RustTargetWasm32WasiP1 => 2 case WasmTools => 2 case WitBindgen => 2
  }

  lemma HeightDrops(a: Tool, c: Tool)
    requires c in DirectDependencies(a)
    ensures Height(c) < Height(a)
  {
  }

  ghost predicate Ranks(height: Tool -> nat, deps: Relation) {
    forall a, c :: c in deps(a) ==> height(c) < height(a)
  }

  lemma {:induction false} PathLowers(deps: Relation, height: Tool -> nat, a: Tool, b: Tool, n: nat)
    requires Ranks(height, deps) && Path(deps, a, b, n)
    ensures height(b) + n <= height(a)
    decreases n
  {
    if n > 0 {
      var c :| c in deps(a) && Path(deps, c, b, n - 1);
      PathLowers(deps, height, c, b, n - 1);
    }
  }

  lemma RankedIsAcyclic(deps: Relation, height: Tool -> nat, t: Tool)
    requires Ranks(height, deps)
    ensures !Needs(deps, t, t)
  {
    if Needs(deps, t, t) {
      var n: nat :| n > 0 && Path(deps, t, t, n);
      PathLowers(deps, height, t, t, n);
    }
  }

  /** For the tools as they are, the list is the closure without duplicates and dependencies come first. */
  method ToolsToCheck(tools: seq<Tool>) returns (allTools: seq<Tool>)
    ensures NoDuplicates(allTools)
    ensures forall t :: t in allTools <==> InClosure(DirectDependencies, tools, t)
    ensures DependenciesFirst(DirectDependencies, allTools) && KeepsListOrder(DirectDependencies, tools, allTools)
  {
    allTools := WithAllDependencies(DirectDependencies, tools);
    assert Ranks(Height, DirectDependencies) by {
      forall a, c | c in DirectDependencies(a) ensures Height(c) < Height(a) { HeightDrops(a, c); }
    }
    forall t | t in allTools ensures !Needs(DirectDependencies, t, t) {
      RankedIsAcyclic(DirectDependencies, Height, t);
    }
    DependenciesFirstIffAcyclic(DirectDependencies, allTools);
  }

  /** What the check of a tool comes to, the tool included. */
  function Checked(tool: Tool): set<Tool> {
    match tool
    case Cargo => {Cargo, Rustup}
    case CargoComponent => {CargoComponent, Cargo, Rustup}
    case ComponentizeJs => {ComponentizeJs, Npm, Node}
    case ComponentizePy => {ComponentizePy, Pip, Python}
    case Go => {Go}
    case GolemSdkGo => {GolemSdkGo, Go}
    case GolemSdkRust => {GolemSdkRust, Cargo, Rustup}
    case GolemSdkTypeScript => {GolemSdkTypeScript, Npm, Node}
    case Jco => {Jco, Npm, Node}
    case Node => {Node}
    case Npm => {Npm, Node}
    case Pip => {Pip, Python}
    case Python => {Python}
    case Rustc => {Rustc, Rustup}
    case Rustup => {Rustup}
    case RustTargetWasm32WasiP1 => {RustTargetWasm32WasiP1, Rustc, Rustup}
    case TinyGo => {TinyGo, Go}
    case WasiSdk => {WasiSdk}
    case WasmTools => {WasmTools, Cargo, Rustup}
    case WitBindgen => {WitBindgen, Cargo, Rustup}
    case Zig => {Zig}
  }

  lemma CheckedItself(a: Tool)
    ensures a in Checked(a)
  {
  }

  lemma CheckedWithin(a: Tool, c: Tool)
    requires c in DirectDependencies(a)
    ensures Checked(c) <= Checked(a)
  {
  }

  lemma {:induction false} PathIsChecked(a: Tool, b: Tool, n: nat)
    requires Path(DirectDependencies, a, b, n)
    ensures b in Checked(a)
    decreases n
  {
    if n == 0 {
      CheckedItself(a);
    } else {
      var c :| c in DirectDependencies(a) && Path(DirectDependencies, c, b, n - 1);
      PathIsChecked(c, b, n - 1);
      CheckedWithin(a, c);
    }
  }

  lemma CheckedFurther(a: Tool, b: Tool) returns (c: Tool)
    requires b in Checked(a) && b != a
    ensures c in DirectDependencies(a) && b in Checked(c) && Height(c) < Height(a)
  {
    c := DirectDependencies(a)[0];
  }

  lemma {:induction false} CheckedHasPath(a: Tool, b: Tool) returns (n: nat)
    requires b in Checked(a)
    ensures Path(DirectDependencies, a, b, n)
    decreases Height(a)
  {
    if a == b {
      n := 0;
    } else {
      var c := CheckedFurther(a, b);
      n := CheckedHasPath(c, b);
      PathFrom(DirectDependencies, a, c, b, n);
      n := n + 1;
    }
  }

  /** The closure of each tool as it is listed. */
  lemma ClosureIs(tool: Tool, b: Tool)
    ensures InClosure(DirectDependencies, [tool], b) <==> b in Checked(tool)
  {
    if InClosure(DirectDependencies, [tool], b) {
      var a, n: nat :| a in [tool] && Path(DirectDependencies, a, b, n);
      PathIsChecked(tool, b, n);
    }
    if b in Checked(tool) {
      var n := CheckedHasPath(tool, b);
      assert tool in [tool];
    }
  }
}
