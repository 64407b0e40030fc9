// The memoised depth-first search behind the stack gate, the census of
// reachable edges beside it, and the gate (tools/check_stack_budget.py).

module StackBudget {
  import opened Wrappers
  import opened CallGraph

  datatype Error =
    | RecursiveCycle(cycle: seq<Node>)
    | UnboundedFrame(node: Node)
    | RootDefinitions(count: nat)
    | InvalidRootSpec
    | NegativeSize
    | NothingUsable
    | OverBudget

  datatype Result<+T> = Ok(value: T) | Err(error: Error)

  datatype Best = Best(size: nat, path: seq<Node>)

  // What a failed search reports is really there, and reachable.
  ghost predicate Evidence(g: Graph, root: Node, e: Error) {
    match e
    case RecursiveCycle(c) => ClosedWalk(g, c) && Reaches(g, root, c[0])
    case UnboundedFrame(n) => n in g.frames && Unbounded(g.frames[n]) && Reaches(g, root, n)
    case _ => false
  }

  ghost predicate Settled(g: Graph, n: Node, b: Best) {
    n in g.frames && Sound(g, n) && Heaviest(g, n, b.size, b.path)
  }

  // b is the largest result among the callees already visited, or nothing.
  ghost predicate BestOf(g: Graph, n: Node, done: set<Node>, b: Best) {
    && (forall c | c in Known(g, n) && c in done :: Sound(g, c) && Bounds(g, c, b.size))
    && (b == Best(0, []) || exists c | c in Known(g, n) :: Settled(g, c, b))
  }

  ghost predicate Bounds(g: Graph, n: Node, size: nat) {
    forall p | WalkFrom(g, n, p) :: WalkNodes(g, p) && TotalSize(g, p) <= size
  }

  // The frames of visit still open: a known walk whose last frame calls node.
  ghost predicate Entering(g: Graph, active: seq<Node>, node: Node) {
    && node in g.frames
    && (active != [] ==> Walk(g, active) && node in Known(g, active[|active| - 1]))
  }

  lemma EnteringWalk(g: Graph, active: seq<Node>, node: Node)
    requires Entering(g, active, node)
    ensures Walk(g, active + [node])
    ensures Reaches(g, (active + [node])[0], node)
  {
    var p := active + [node];
    forall i | 0 < i < |p| ensures p[i] in Known(g, p[i - 1]) {}
    WalkReaches(g, p, |active|);
  }

  lemma ActiveCycle(g: Graph, active: seq<Node>, node: Node, i: nat)
    requires Entering(g, active, node) && i < |active| && active[i] == node
    ensures Evidence(g, active[0], RecursiveCycle(active[i..] + [node]))
  {
    EnteringWalk(g, active, node);
    var p := active + [node];
    WalkSlice(g, p, i, |p|);
    assert p[i..|p|] == active[i..] + [node];
    WalkReaches(g, p, i);
  }

  // Prepending node to the best callee result settles node.
  lemma SettleNode(g: Graph, node: Node, b: Best)
    requires node in g.frames && !Unbounded(g.frames[node])
    requires BestOf(g, node, Callees(g, node), b)
    ensures Settled(g, node, Best(g.frames[node].size + b.size, [node] + b.path))
  {
    SoundFromCallees(g, node);
    var path := [node] + b.path;
    if b.path != [] {
      WalkCons(g, node, b.path);
      assert path[1..] == b.path;
    }
    WalkHasFrames(g, path);
    forall p | WalkFrom(g, node, p)
      ensures WalkNodes(g, p) && TotalSize(g, p) <= g.frames[node].size + b.size
    {
      WalkHasFrames(g, p);
      if |p| > 1 {
        WalkTail(g, p);
        assert WalkFrom(g, p[1], p[1..]) && Bounds(g, p[1], b.size);
      }
    }
  }

  lemma BestImproves(g: Graph, node: Node, done: set<Node>, b: Best, c: Node, sub: Best)
    requires BestOf(g, node, done, b) && c in Known(g, node) && Settled(g, c, sub)
    ensures BestOf(g, node, done + {c}, if sub.size > b.size then sub else b)
  {
    var r := if sub.size > b.size then sub else b;
    forall d | d in Known(g, node) && d in done + {c} ensures Sound(g, d) && Bounds(g, d, r.size) {
      if d == c {
        assert Bounds(g, c, sub.size);
      } else {
        assert Bounds(g, d, b.size);
      }
    }
  }

  lemma SkipCallee(g: Graph, node: Node, done: set<Node>, b: Best, c: Node)
    requires BestOf(g, node, done, b) && c !in Known(g, node)
    ensures BestOf(g, node, done + {c}, b)
  {}

  // Python's list.index.
  method IndexOf(s: seq<Node>, n: Node) returns (i: nat)
    requires n in s
    ensures i < |s| && s[i] == n && n !in s[..i]
  {
    i := 0;
    while s[i] != n
      invariant i < |s| && n !in s[..i]
      decreases |s| - i
    {
      i := i + 1;
    }
  }

  // The nested function visit and the two locals it closes over.
  class Search {
    const g: Graph
    var memo: map<Node, Best>
    var active: seq<Node>

    constructor (g: Graph)
      ensures this.g == g && memo == map[] && active == []
    {
      this.g := g;
      memo := map[];
      active := [];
    }

    ghost predicate MemoValid()
      reads this
    {
      forall n | n in memo :: Settled(g, n, memo[n])
    }

    ghost function ActiveSet(): set<Node>
      reads this
    {
      set n | n in active
    }

    method Visit(node: Node) returns (r: Result<Best>)
      requires MemoValid() && Entering(g, active, node)
      modifies this
      ensures MemoValid()
      ensures r.Ok? ==> active == old(active) && Settled(g, node, r.value)
      ensures r.Err? ==>
        Evidence(g, if old(active) == [] then node else old(active)[0], r.error)
      decreases g.frames.Keys - ActiveSet(), 0
    {
      EnteringWalk(g, active, node);
      if node in active {
        var i := IndexOf(active, node);
        ActiveCycle(g, active, node, i);
        return Err(RecursiveCycle(active[i..] + [node]));
      }
      if node in memo {
        return Ok(memo[node]);
      }
      var frame := g.frames[node];
      if Unbounded(frame) {
        return Err(UnboundedFrame(node));
      }
      ghost var openSet := ActiveSet();
      active := active + [node];
      assert ActiveSet() == openSet + {node};
      var found := VisitCallees(node);
      if found.Err? {
        return found;
      }
      var best := found.value;
      active := active[..|active| - 1];
      SettleNode(g, node, best);
      var result := Best(frame.size + best.size, [node] + best.path);
      memo := memo[node := result];
      r := Ok(result);
    }

    // The loop of visit: the best result among the callees of the open frame.
    method VisitCallees(node: Node) returns (r: Result<Best>)
      requires MemoValid() && active != [] && active[|active| - 1] == node && Walk(g, active)
      modifies this
      ensures MemoValid()
      ensures r.Ok? ==> active == old(active) && BestOf(g, node, Callees(g, node), r.value)
      ensures r.Err? ==> Evidence(g, old(active)[0], r.error)
      decreases g.frames.Keys - ActiveSet(), 1
    {
      var best := Best(0, []);
      var pending := Callees(g, node);
      ghost var done: set<Node> := {};
      while pending != {}
        invariant MemoValid() && active == old(active)
        invariant pending + done == Callees(g, node)
        invariant BestOf(g, node, done, best)
        decreases |pending|
      {
        var callee :| callee in pending;
        pending := pending - {callee};
        if callee == INDIRECT_NODE || callee !in g.frames {
          SkipCallee(g, node, done, best, callee);
        } else {
          var sub := Visit(callee);
          if sub.Err? {
            return sub;
          }
          BestImproves(g, node, done, best, callee, sub.value);
          if sub.value.size > best.size {
            best := sub.value;
          }
        }
        done := done + {callee};
      }
      r := Ok(best);
    }
  }

  // The largest total frame size of any direct call chain from root.
  method MaximumPath(g: Graph, root: Node) returns (r: Result<Best>)
    requires root in g.frames
    ensures r.Ok? <==> Sound(g, root)
    ensures r.Ok? ==> Heaviest(g, root, r.value.size, r.value.path) && Simple(r.value.path)
    ensures r.Err? ==> Evidence(g, root, r.error)
  {
    var search := new Search(g);
    r := search.Visit(root);
    if r.Ok? {
      SoundWalksAreSimple(g, root, r.value.path);
    }
  }

  // Soundness is exactly the absence of reportable evidence.
  lemma UnsoundHasEvidence(g: Graph, root: Node)
    requires root in g.frames && !Sound(g, root)
    ensures exists e :: Evidence(g, root, e)
  {
    var m :| Reaches(g, root, m) &&
             !(m in g.frames && !Unbounded(g.frames[m]) && !Recursive(g, m));
    var p :| WalkFrom(g, root, p) && p[|p| - 1] == m;
    WalkHasFrames(g, p);
    if Recursive(g, m) {
      var q :| ClosedWalk(g, q) && q[0] == m;
      assert Evidence(g, root, RecursiveCycle(q));
    } else {
      assert Evidence(g, root, UnboundedFrame(m));
    }
  }

  ghost predicate ReachableSet(g: Graph, root: Node, s: set<Node>) {
    forall n :: n in s <==> Reaches(g, root, n)
  }

  function IndirectCallers(g: Graph, s: set<Node>): set<Node> {
    set n | n in s && INDIRECT_NODE in Callees(g, n)
  }

  ghost predicate UnknownEdge(g: Graph, n: Node, c: Node) {
    c in Callees(g, n) && c != INDIRECT_NODE && c !in g.frames
  }

  ghost predicate UnknownEdges(g: Graph, s: set<Node>, e: set<(Node, Node)>) {
    forall n, c :: (n, c) in e <==> n in s && UnknownEdge(g, n, c)
  }

  lemma ClosedContainsWalk(g: Graph, s: set<Node>, p: seq<Node>)
    requires Walk(g, p) && p[0] in s
    requires forall n | n in s :: Known(g, n) <= s
    ensures p[|p| - 1] in s
  {
    var i := 0;
    while i + 1 < |p|
      invariant i < |p| && p[i] in s
    {
      i := i + 1;
      assert p[i] in Known(g, p[i - 1]);
    }
  }

  lemma ReachesKnown(g: Graph, root: Node, n: Node, c: Node)
    requires Reaches(g, root, n) && c in Known(g, n)
    ensures Reaches(g, root, c)
  {
    var p :| WalkFrom(g, root, p) && p[|p| - 1] == n;
    var q := p + [c];
    forall i | 0 < i < |q| ensures q[i] in Known(g, q[i - 1]) {}
    assert WalkFrom(g, root, q);
  }

  // indirect and unknown count exactly what is reachable from root.
  ghost predicate Census(g: Graph, root: Node, indirect: nat, unknown: nat) {
    exists s, e :: ReachableSet(g, root, s) && UnknownEdges(g, s, e)
                   && indirect == |IndirectCallers(g, s)| && unknown == |e|
  }

  // The inner loop: unknown callees of node are counted, new known ones stacked.
  method ScanCallees(g: Graph, node: Node, seen: set<Node>, pending: seq<Node>)
    returns (unknown: nat, stack: seq<Node>, ghost edges: set<(Node, Node)>)
    ensures forall n, c :: (n, c) in edges <==> n == node && UnknownEdge(g, n, c)
    ensures unknown == |edges|
    ensures forall n | n in stack :: n in pending || n in Known(g, node)
    ensures forall n | n in pending :: n in stack
    ensures forall c | c in Known(g, node) :: c in seen || c in stack
  {
    unknown, stack, edges := 0, pending, {};
    var callees := Callees(g, node);
    while callees != {}
      invariant callees <= Callees(g, node)
      invariant forall n, c :: (n, c) in edges <==> n == node && c !in callees && UnknownEdge(g, n, c)
      invariant unknown == |edges|
      invariant forall n | n in stack :: n in pending || n in Known(g, node)
      invariant forall n | n in pending :: n in stack
      invariant forall c | c in Known(g, node) - callees :: c in seen || c in stack
    {
      var callee :| callee in callees;
      callees := callees - {callee};
      if callee == INDIRECT_NODE {
        continue;
      }
      if callee !in g.frames {
        unknown, edges := unknown + 1, edges + {(node, callee)};
      } else if callee !in seen {
        stack := stack + [callee];
      }
    }
  }

  // What the worklist loop keeps: everything seen or pending is reachable, and a
  // seen function's known callees are seen or pending.
  ghost predicate Frontier(g: Graph, root: Node, seen: set<Node>, pending: seq<Node>) {
    && (forall n | n in pending :: Reaches(g, root, n) && n in g.frames)
    && (forall n | n in seen :: Reaches(g, root, n) && n in g.frames)
    && (root in seen || root in pending)
    && forall n, c | n in seen && c in Known(g, n) :: c in seen || c in pending
  }

  lemma FrontierDone(g: Graph, root: Node, seen: set<Node>)
    requires Frontier(g, root, seen, [])
    ensures ReachableSet(g, root, seen)
  {
    forall n | Reaches(g, root, n) ensures n in seen {
      var p :| WalkFrom(g, root, p) && p[|p| - 1] == n;
      ClosedContainsWalk(g, seen, p);
    }
  }

  lemma FrontierVisit(g: Graph, root: Node, seen: set<Node>, pending: seq<Node>, stack: seq<Node>)
    requires Frontier(g, root, seen, pending) && pending != []
    requires var node, rest := pending[|pending| - 1], pending[..|pending| - 1];
      && (forall n | n in stack :: n in rest || n in Known(g, node))
      && (forall n | n in rest :: n in stack)
      && forall c | c in Known(g, node) :: c in seen + {node} || c in stack
    ensures Frontier(g, root, seen + {pending[|pending| - 1]}, stack)
  {
    var node, rest := pending[|pending| - 1], pending[..|pending| - 1];
    assert pending == rest + [node];
    forall n | n in stack ensures Reaches(g, root, n) && n in g.frames {
      if n !in rest {
        ReachesKnown(g, root, node, n);
      }
    }
  }

  lemma IndirectAdd(g: Graph, seen: set<Node>, node: Node)
    requires node !in seen
    ensures |IndirectCallers(g, seen + {node})| ==
      |IndirectCallers(g, seen)| + if INDIRECT_NODE in Callees(g, node) then 1 else 0
  {
    var here: set<Node> := if INDIRECT_NODE in Callees(g, node) then {node} else {};
    assert IndirectCallers(g, seen + {node}) == IndirectCallers(g, seen) + here;
  }

  lemma UnknownEdgesAdd(g: Graph, seen: set<Node>, edges: set<(Node, Node)>, node: Node, more: set<(Node, Node)>)
    requires UnknownEdges(g, seen, edges) && node !in seen
    requires forall n, c :: (n, c) in more <==> n == node && UnknownEdge(g, n, c)
    ensures UnknownEdges(g, seen + {node}, edges + more) && |edges + more| == |edges| + |more|
  {
    assert edges !! more by {
      forall e | e in edges ensures e !in more {
        assert e == (e.0, e.1);
      }
    }
  }

  // Counts the reachable functions that make indirect calls, and the reachable
  // edges to functions without a frame record.
  method ReachableEdgeCounts(g: Graph, root: Node) returns (indirect: nat, unknown: nat)
    requires root in g.frames
    ensures Census(g, root, indirect, unknown)
  {
    var seen: set<Node> := {};
    var pending := [root];
    indirect, unknown := 0, 0;
    ghost var edges: set<(Node, Node)> := {};
    ReachesSelf(g, root);
    while pending != []
      invariant Frontier(g, root, seen, pending)
      invariant indirect == |IndirectCallers(g, seen)|
      invariant UnknownEdges(g, seen, edges) && unknown == |edges|
      decreases g.frames.Keys - seen, |pending|
    {
      var node := pending[|pending| - 1];
      var rest := pending[..|pending| - 1];
      assert pending == rest + [node];
      if node in seen {
        pending := rest;
        continue;
      }
      ghost var before := seen;
      IndirectAdd(g, seen, node);
      seen := seen + {node};
      if INDIRECT_NODE in Callees(g, node) {
        indirect := indirect + 1;
      }
      var more, stack, newEdges := ScanCallees(g, node, seen, rest);
      UnknownEdgesAdd(g, before, edges, node, newEdges);
      unknown, edges := unknown + more, edges + newEdges;
      FrontierVisit(g, root, before, pending, stack);
      pending := stack;
    }
    FrontierDone(g, root, seen);
  }

  // The titles whose frame carries this function name.
  function Definitions(g: Graph, name: string): set<Node> {
    set n | n in g.frames && g.frames[n].name == name
  }

  method ResolveRoot(g: Graph, name: string) returns (r: Result<Node>)
    ensures r.Ok? ==> Definitions(g, name) == {r.value}
    ensures r.Err? ==> r.error == RootDefinitions(|Definitions(g, name)|) && |Definitions(g, name)| != 1
  {
    var matches := Definitions(g, name);
    if |matches| != 1 {
      return Err(RootDefinitions(|matches|));
    }
    var title :| title in matches;
    assert |matches - {title}| == 0;
    r := Ok(title);
  }

  // LABEL=FUNCTION, split at the first equals sign.
  function SplitRoot(spec: string): Option<(string, string)> {
    if spec == "" then None
    else if spec[0] == '=' then Some(("", spec[1..]))
    else match SplitRoot(spec[1..])
      case None => None
      case Some((tag, name)) => Some(([spec[0]] + tag, name))
  }

  lemma {:induction false} SplitRootMeaning(spec: string)
    ensures SplitRoot(spec).None? <==> '=' !in spec
    ensures SplitRoot(spec).Some? ==>
      var (tag, name) := SplitRoot(spec).value;
      '=' !in tag && spec == tag + "=" + name
  {
    if spec != "" && spec[0] != '=' {
      SplitRootMeaning(spec[1..]);
    }
  }

  datatype RootReport = RootReport(tag: string, root: Node, usage: nat, path: seq<Node>,
                                   margin: int, indirect: nat, unknown: nat)

  ghost predicate RootFits(g: Graph, spec: string, usable: int) {
    && SplitRoot(spec).Some?
    && var defs := Definitions(g, SplitRoot(spec).value.1);
    && |defs| == 1
    && forall root | root in defs :: Sound(g, root) && (usable >= 0 && Bounds(g, root, usable))
  }

  ghost predicate Reported(g: Graph, spec: string, usable: int, rep: RootReport) {
    && SplitRoot(spec).Some? && rep.tag == SplitRoot(spec).value.0
    && Definitions(g, SplitRoot(spec).value.1) == {rep.root}
    && Heaviest(g, rep.root, rep.usage, rep.path)
    && rep.margin == usable - rep.usage
    && Census(g, rep.root, rep.indirect, rep.unknown)
  }

  // One round of the loop over --root arguments.
  method CheckRoot(g: Graph, spec: string, usable: int) returns (r: Result<RootReport>)
    ensures r.Ok? ==> Reported(g, spec, usable, r.value)
    ensures r.Ok? ==> (RootFits(g, spec, usable) <==> r.value.margin >= 0)
    ensures r.Err? ==> !RootFits(g, spec, usable)
  {
    var split := SplitRoot(spec);
    if split.None? {
      return Err(InvalidRootSpec);
    }
    var (tag, name) := split.value;
    var resolved := ResolveRoot(g, name);
    if resolved.Err? {
      return Err(resolved.error);
    }
    var root := resolved.value;
    assert root in Definitions(g, name);
    var found := MaximumPath(g, root);
    if found.Err? {
      return Err(found.error);
    }
    var Best(usage, path) := found.value;
    var indirect, unknown := ReachableEdgeCounts(g, root);
    r := Ok(RootReport(tag, root, usage, path, usable - usage, indirect, unknown));
    if RootFits(g, spec, usable) {
      assert Bounds(g, root, usable);
    }
  }

  ghost predicate AllFit(g: Graph, roots: seq<string>, usable: int) {
    forall i | 0 <= i < |roots| :: RootFits(g, roots[i], usable)
  }

  ghost predicate AllReported(g: Graph, roots: seq<string>, usable: int, reports: seq<RootReport>) {
    && |reports| == |roots|
    && forall i | 0 <= i < |roots| :: Reported(g, roots[i], usable, reports[i])
  }

  lemma AllFitAppend(g: Graph, roots: seq<string>, spec: string, usable: int)
    ensures AllFit(g, roots + [spec], usable) <==> AllFit(g, roots, usable) && RootFits(g, spec, usable)
  {
    var longer := roots + [spec];
    if AllFit(g, longer, usable) {
      forall i | 0 <= i < |roots| ensures RootFits(g, roots[i], usable) {
        assert longer[i] == roots[i];
      }
      assert longer[|roots|] == spec;
    }
  }

  lemma AllFitPrefix(g: Graph, roots: seq<string>, n: nat, usable: int)
    requires n <= |roots|
    ensures AllFit(g, roots, usable) ==> AllFit(g, roots[..n], usable)
  {}

  lemma AllReportedAppend(g: Graph, roots: seq<string>, spec: string, usable: int,
                          reports: seq<RootReport>, rep: RootReport)
    requires AllReported(g, roots, usable, reports) && Reported(g, spec, usable, rep)
    ensures AllReported(g, roots + [spec], usable, reports + [rep])
  {}

  // The loop over --root arguments; failed says some chain exceeds the budget.
  method CheckRoots(g: Graph, roots: seq<string>, usable: int)
    returns (r: Result<seq<RootReport>>, failed: bool)
    ensures r.Ok? && !failed <==> AllFit(g, roots, usable)
    ensures r.Ok? ==> AllReported(g, roots, usable, r.value)
  {
    var reports: seq<RootReport> := [];
    failed := false;
    for i := 0 to |roots|
      invariant AllReported(g, roots[..i], usable, reports)
      invariant failed <==> !AllFit(g, roots[..i], usable)
    {
      assert roots[..i + 1] == roots[..i] + [roots[i]];
      AllFitAppend(g, roots[..i], roots[i], usable);
      var checked := CheckRoot(g, roots[i], usable);
      if checked.Err? {
        AllFitPrefix(g, roots, i + 1, usable);
        return Err(checked.error), failed;
      }
      AllReportedAppend(g, roots[..i], roots[i], usable, reports, checked.value);
      reports := reports + [checked.value];
      if checked.value.margin < 0 {
        failed := true;
      }
    }
    assert roots[..|roots|] == roots;
    r := Ok(reports);
  }

  // The body of main between argument parsing and output.
  method Gate(g: Graph, roots: seq<string>, stackSize: int, irqReserve: int, uncertainty: int)
    returns (r: Result<seq<RootReport>>)
    ensures r.Ok? <==>
      && stackSize >= 0 && irqReserve >= 0 && uncertainty >= 0
      && stackSize - irqReserve - uncertainty > 0
      && AllFit(g, roots, stackSize - irqReserve - uncertainty)
    ensures r.Ok? ==> AllReported(g, roots, stackSize - irqReserve - uncertainty, r.value)
  {
    if stackSize < 0 || irqReserve < 0 || uncertainty < 0 {
      return Err(NegativeSize);
    }
    var usable := stackSize - irqReserve - uncertainty;
    if usable <= 0 {
      return Err(NothingUsable);
    }
    var failed;
    r, failed := CheckRoots(g, roots, usable);
    if r.Ok? && failed {
      return Err(OverBudget);
    }
  }

  // What a passing gate buys: every direct call chain from every root, plus both
  // reserves, fits the stack.
  lemma PassingGateFitsStack(g: Graph, spec: string, root: Node, p: seq<Node>,
                             stackSize: int, irqReserve: int, uncertainty: int)
    requires RootFits(g, spec, stackSize - irqReserve - uncertainty)
    requires root in Definitions(g, SplitRoot(spec).value.1) && WalkFrom(g, root, p)
    ensures WalkNodes(g, p) && Simple(p)
    ensures TotalSize(g, p) + irqReserve + uncertainty <= stackSize
  {
    SoundWalksAreSimple(g, root, p);
    assert Bounds(g, root, stackSize - irqReserve - uncertainty);
  }
}
