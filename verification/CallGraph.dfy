// The call graph the stack gate works on, and what its questions mean: walks
// over known direct calls, their total frame size, and when a root is sound.

module CallGraph {
  // A GCC node title.
  type Node = string

  const INDIRECT_NODE: Node := "__indirect_call"

  datatype Frame = Frame(name: string, size: nat, qualifier: string)

  datatype Graph = Graph(frames: map<Node, Frame>, edges: map<Node, set<Node>>)

  predicate Mentions(text: string, word: string) {
    exists i | 0 <= i <= |text| :: word <= text[i..]
  }

  // A frame whose size GCC could not bound.
  predicate Unbounded(f: Frame) {
    Mentions(f.qualifier, "dynamic") && !Mentions(f.qualifier, "bounded")
  }

  function Callees(g: Graph, n: Node): set<Node> {
    if n in g.edges then g.edges[n] else {}
  }

  // The direct callees the traversal follows: not the indirect marker, and known.
  function Known(g: Graph, n: Node): set<Node> {
    set c | c in Callees(g, n) && c != INDIRECT_NODE && c in g.frames
  }

  // A nonempty chain of known direct calls.
  ghost predicate Walk(g: Graph, p: seq<Node>) {
    && p != []
    && p[0] in g.frames
    && forall i | 0 < i < |p| :: p[i] in Known(g, p[i - 1])
  }

  ghost predicate WalkFrom(g: Graph, n: Node, p: seq<Node>) {
    Walk(g, p) && p[0] == n
  }

  ghost predicate Reaches(g: Graph, a: Node, b: Node) {
    exists p :: WalkFrom(g, a, p) && p[|p| - 1] == b
  }

  // A walk that returns to where it began.
  ghost predicate ClosedWalk(g: Graph, p: seq<Node>) {
    Walk(g, p) && |p| > 1 && p[0] == p[|p| - 1]
  }

  ghost predicate Recursive(g: Graph, n: Node) {
    exists p :: ClosedWalk(g, p) && p[0] == n
  }

  // Nothing reachable from n is recursive or has an unbounded frame.
  ghost predicate Sound(g: Graph, n: Node) {
    forall m | Reaches(g, n, m) :: m in g.frames && !Unbounded(g.frames[m]) && !Recursive(g, m)
  }

  function TotalSize(g: Graph, p: seq<Node>): nat
    requires forall n | n in p :: n in g.frames
  {
    if p == [] then 0 else g.frames[p[0]].size + TotalSize(g, p[1..])
  }

  ghost predicate Simple(p: seq<Node>) {
    forall i, j | 0 <= i < j < |p| :: p[i] != p[j]
  }

  // path attains size, and no walk from n is larger.
  ghost predicate Heaviest(g: Graph, n: Node, size: nat, path: seq<Node>) {
    && WalkFrom(g, n, path)
    && WalkNodes(g, path) && TotalSize(g, path) == size
    && forall p | WalkFrom(g, n, p) :: WalkNodes(g, p) && TotalSize(g, p) <= size
  }

  // Every node of p has a frame record.
  ghost predicate WalkNodes(g: Graph, p: seq<Node>) {
    forall n | n in p :: n in g.frames
  }

  lemma WalkHasFrames(g: Graph, p: seq<Node>)
    requires Walk(g, p)
    ensures WalkNodes(g, p)
  {
    forall n | n in p ensures n in g.frames {
      var i :| 0 <= i < |p| && p[i] == n;
      if i > 0 { assert p[i] in Known(g, p[i - 1]); }
    }
  }

  lemma WalkTail(g: Graph, p: seq<Node>)
    requires Walk(g, p) && |p| > 1
    ensures Walk(g, p[1..]) && p[1] in Known(g, p[0])
  {
    var q := p[1..];
    forall i | 0 < i < |q| ensures q[i] in Known(g, q[i - 1]) {
      assert p[i + 1] in Known(g, p[i]);
    }
  }

  lemma WalkCons(g: Graph, n: Node, p: seq<Node>)
    requires Walk(g, p) && n in g.frames && p[0] in Known(g, n)
    ensures Walk(g, [n] + p)
  {
    var q := [n] + p;
    forall i | 0 < i < |q| ensures q[i] in Known(g, q[i - 1]) {
      if i > 1 { assert p[i - 1] in Known(g, p[i - 2]); }
    }
  }

  lemma WalkConcat(g: Graph, p: seq<Node>, q: seq<Node>)
    requires Walk(g, p) && Walk(g, q) && p[|p| - 1] == q[0]
    ensures Walk(g, p + q[1..])
  {
    var r := p + q[1..];
    forall i | 0 < i < |r| ensures r[i] in Known(g, r[i - 1]) {
      if i >= |p| { assert q[i - |p| + 1] in Known(g, q[i - |p|]); }
    }
  }

  lemma WalkSlice(g: Graph, p: seq<Node>, i: nat, j: nat)
    requires Walk(g, p) && i < j <= |p|
    ensures Walk(g, p[i..j])
  {
    WalkHasFrames(g, p);
    var q := p[i..j];
    forall k | 0 < k < |q| ensures q[k] in Known(g, q[k - 1]) {
      assert p[i + k] in Known(g, p[i + k - 1]);
    }
  }

  lemma ReachesSelf(g: Graph, n: Node)
    requires n in g.frames
    ensures Reaches(g, n, n)
  {
    assert WalkFrom(g, n, [n]);
  }

  // Soundness is inherited from the callees: a cycle through n is also a cycle
  // through the callee it enters first.
  lemma SoundFromCallees(g: Graph, n: Node)
    requires n in g.frames && !Unbounded(g.frames[n])
    requires forall c | c in Known(g, n) :: Sound(g, c)
    ensures Sound(g, n)
  {
    forall m | Reaches(g, n, m)
      ensures m in g.frames && !Unbounded(g.frames[m]) && !Recursive(g, m)
    {
      var p :| WalkFrom(g, n, p) && p[|p| - 1] == m;
      if |p| == 1 {
        if Recursive(g, n) {
          var q :| ClosedWalk(g, q) && q[0] == n;
          WalkTail(g, q);
          var c := q[1];
          WalkConcat(g, q[1..], q[..2]) by { WalkSlice(g, q, 0, 2); }
          assert ClosedWalk(g, q[1..] + q[..2][1..]);
          ReachesSelf(g, c);
          assert false;
        }
      } else {
        WalkTail(g, p);
        assert WalkFrom(g, p[1], p[1..]);
        assert Reaches(g, p[1], m);
      }
    }
  }

  lemma WalkReaches(g: Graph, p: seq<Node>, i: nat)
    requires Walk(g, p) && i < |p|
    ensures Reaches(g, p[0], p[i])
  {
    WalkSlice(g, p, 0, i + 1);
    assert WalkFrom(g, p[0], p[0..i + 1]);
  }

  lemma RepeatIsRecursive(g: Graph, p: seq<Node>, i: nat, j: nat)
    requires Walk(g, p) && i < j < |p| && p[i] == p[j]
    ensures Recursive(g, p[i])
  {
    WalkSlice(g, p, i, j + 1);
    var q := p[i..j + 1];
    assert q[0] == p[i] && q[|q| - 1] == p[j];
    assert ClosedWalk(g, q);
  }

  // From a sound root no walk can repeat a node.
  lemma SoundWalksAreSimple(g: Graph, n: Node, p: seq<Node>)
    requires Sound(g, n) && WalkFrom(g, n, p)
    ensures Simple(p)
  {
    forall i, j | 0 <= i < j < |p| ensures p[i] != p[j] {
      WalkReaches(g, p, i);
      if p[i] == p[j] {
        RepeatIsRecursive(g, p, i, j);
      }
    }
  }
}
