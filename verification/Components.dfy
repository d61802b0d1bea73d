/** Strongly connected components by the iterative form of Tarjan's algorithm. */
module Components {

  type Node = nat
  type Graph = map<Node, seq<Node>>

  // ---------------------------------------------------------------------------------------------
  // Reachability through keys
  // ---------------------------------------------------------------------------------------------

  predicate Edge(g: Graph, x: Node, y: Node) {
    x in g && y in g && y in g[x]
  }

  ghost predicate ReachIn(g: Graph, x: Node, y: Node, n: nat)
    decreases n
  {
    if n == 0 then x == y else exists z :: ReachIn(g, x, z, n - 1) && Edge(g, z, y)
  }

  ghost predicate Reach(g: Graph, x: Node, y: Node) {
    exists n: nat :: ReachIn(g, x, y, n)
  }

  ghost predicate Mutual(g: Graph, x: Node, y: Node) {
    Reach(g, x, y) && Reach(g, y, x)
  }

  lemma ReachSelf(g: Graph, x: Node)
    ensures Reach(g, x, x)
  {
    assert ReachIn(g, x, x, 0);
  }

  lemma ReachEdge(g: Graph, x: Node, y: Node, z: Node)
    requires Reach(g, x, y) && Edge(g, y, z)
    ensures Reach(g, x, z)
  {
    var n: nat :| ReachIn(g, x, y, n);
    assert ReachIn(g, x, z, n + 1);
  }

  lemma {:induction false} ReachInTrans(g: Graph, x: Node, y: Node, z: Node, n: nat)
    requires Reach(g, x, y) && ReachIn(g, y, z, n)
    ensures Reach(g, x, z)
    decreases n
  {
    if n > 0 {
      var w :| ReachIn(g, y, w, n - 1) && Edge(g, w, z);
      ReachInTrans(g, x, y, w, n - 1);
      ReachEdge(g, x, w, z);
    }
  }

  lemma ReachTrans(g: Graph, x: Node, y: Node, z: Node)
    requires Reach(g, x, y) && Reach(g, y, z)
    ensures Reach(g, x, z)
  {
    var n: nat :| ReachIn(g, y, z, n);
    ReachInTrans(g, x, y, z, n);
  }

  ghost predicate ClosedSet(g: Graph, c: set<Node>) {
    forall x, y :: x in c && Edge(g, x, y) ==> y in c
  }

  lemma {:induction false} ClosedIn(g: Graph, c: set<Node>, x: Node, y: Node, n: nat)
    requires ClosedSet(g, c) && x in c && ReachIn(g, x, y, n)
    ensures y in c
    decreases n
  {
    if n > 0 {
      var z :| ReachIn(g, x, z, n - 1) && Edge(g, z, y);
      ClosedIn(g, c, x, z, n - 1);
    }
  }

  lemma ClosedContains(g: Graph, c: set<Node>, x: Node, y: Node)
    requires ClosedSet(g, c) && x in c && Reach(g, x, y)
    ensures y in c
  {
    var n: nat :| ReachIn(g, x, y, n);
    ClosedIn(g, c, x, y, n);
  }

  // ---------------------------------------------------------------------------------------------
  // The state of the search
  // ---------------------------------------------------------------------------------------------

  /** `work` holds the nodes being explored, each with the number of its successors examined so far. */
  datatype State = State(
    index: map<Node, nat>, lowlink: map<Node, nat>, stack: seq<Node>, work: seq<(Node, nat)>, sccs: seq<seq<Node>>)

  function Index(s: State, v: Node): nat { if v in s.index then s.index[v] else 0 }
  function Low(s: State, v: Node): nat { if v in s.lowlink then s.lowlink[v] else 0 }

  /** A finished node is visited and no longer on the stack. */
  predicate Finished(s: State, v: Node) { v in s.index && v !in s.stack }

  /** The `j`-th successor of `x` has been examined. */
  ghost predicate Examined(g: Graph, s: State, x: Node, j: nat) {
    && x in s.index && x in g && j < |g[x]|
    && forall i :: 0 <= i < |s.work| && s.work[i].0 == x ==> j < s.work[i].1
  }

  /** `x` was reached from the `i`-th node being explored, and not through a later one. */
  predicate Under(s: State, i: nat, x: Node) {
    && i < |s.work| && x in s.stack
    && Index(s, s.work[i].0) <= Index(s, x) && (i + 1 < |s.work| ==> Index(s, x) < Index(s, s.work[i + 1].0))
  }

  ghost predicate Numbered(g: Graph, s: State, v: Node) {
    v in s.index ==> v in g && v in s.lowlink && s.index[v] < |s.index|
  }

  predicate SameNumber(s: State, u: Node, v: Node) {
    u in s.index && v in s.index && s.index[u] == s.index[v] ==> u == v
  }

  predicate StackOrdered(s: State, i: nat, j: nat) {
    i < j < |s.stack| ==> Index(s, s.stack[i]) < Index(s, s.stack[j])
  }

  predicate WorkOrdered(s: State, i: nat, j: nat) {
    i < j < |s.work| ==> Index(s, s.work[i].0) < Index(s, s.work[j].0)
  }

  predicate WorkAt(g: Graph, s: State, i: nat) {
    i < |s.work| ==> s.work[i].0 in s.stack && s.work[i].0 in g && s.work[i].1 <= |g[s.work[i].0]|
  }

  ghost predicate Shape(g: Graph, s: State) {
    && (forall v :: Numbered(g, s, v))
    && (forall u, v :: SameNumber(s, u, v))
    && (forall v :: v in s.stack ==> v in s.index)
    && (forall i, j :: StackOrdered(s, i, j))
    && (forall i, j :: WorkOrdered(s, i, j))
    && (forall i :: WorkAt(g, s, i))
  }

  /** Examined successors have been visited, except perhaps one that is about to be. */
  ghost predicate SuccessorVisited(g: Graph, s: State, hole: set<Node>, x: Node, j: nat) {
    Examined(g, s, x, j) && g[x][j] in g ==> g[x][j] in s.index || g[x][j] in hole
  }

  ghost predicate FinishedClosed(g: Graph, s: State, x: Node, y: Node) {
    Finished(s, x) && Edge(g, x, y) ==> Finished(s, y)
  }

  /** A node being explored reaches everything above it on the stack. */
  ghost predicate ReachesUp(g: Graph, s: State, i: nat, y: Node) {
    i < |s.work| && y in s.stack && Index(s, s.work[i].0) <= Index(s, y) ==> Reach(g, s.work[i].0, y)
  }

  /** Everything on the stack reaches back to a node being explored. */
  ghost predicate ReachesBackTo(g: Graph, s: State, x: Node, i: nat) {
    i < |s.work| && Index(s, s.work[i].0) <= Index(s, x) && Reach(g, x, s.work[i].0)
  }

  ghost predicate ReachesBack(g: Graph, s: State, x: Node) {
    x in s.stack ==> exists i :: ReachesBackTo(g, s, x, i)
  }

  ghost predicate LowIs(g: Graph, s: State, i: nat, y: Node) {
    i < |s.work| && y in s.stack && Index(s, y) == Low(s, s.work[i].0) && Reach(g, s.work[i].0, y)
  }

  /** A lowlink is the number of a stack node within reach ... */
  ghost predicate LowReached(g: Graph, s: State, i: nat) {
    i < |s.work| ==> Low(s, s.work[i].0) <= Index(s, s.work[i].0) && exists y :: LowIs(g, s, i, y)
  }

  /** ... and no examined edge from below leads further down the stack. */
  ghost predicate LowBound(g: Graph, s: State, i: nat, x: Node, j: nat) {
    Under(s, i, x) && Examined(g, s, x, j) && g[x][j] in s.stack ==> Low(s, s.work[i].0) <= Index(s, g[x][j])
  }

  ghost predicate IsComponent(g: Graph, c: seq<Node>) {
    && c != []
    && forall x :: x in c ==> SameComponent(g, c, x)
  }

  ghost predicate SameComponent(g: Graph, c: seq<Node>, x: Node) {
    forall y :: y in c <==> Mutual(g, x, y)
  }

  ghost predicate Emits(s: State, c: nat, k: nat, v: Node) {
    c < |s.sccs| && k < |s.sccs[c]| && s.sccs[c][k] == v
  }

  ghost predicate EmittedIffFinished(s: State, v: Node) {
    Finished(s, v) <==> exists c, k :: Emits(s, c, k, v)
  }

  ghost predicate EmittedOnce(s: State, v: Node) {
    forall c, k, c', k' :: Emits(s, c, k, v) && Emits(s, c', k', v) ==> c == c' && k == k'
  }

  ghost predicate ComponentsDone(g: Graph, s: State) {
    && (forall c :: 0 <= c < |s.sccs| ==> IsComponent(g, s.sccs[c]))
    && (forall v :: EmittedIffFinished(s, v) && EmittedOnce(s, v))
  }

  ghost predicate Reaches(g: Graph, s: State) {
    && (forall x, y :: FinishedClosed(g, s, x, y))
    && (forall i, y :: ReachesUp(g, s, i, y))
    && (forall x :: ReachesBack(g, s, x))
  }

  ghost predicate Lows(g: Graph, s: State) {
    && (forall i :: LowReached(g, s, i))
    && (forall i, x, j :: LowBound(g, s, i, x, j))
  }

  ghost predicate Visited(g: Graph, s: State, hole: set<Node>) {
    forall x, j :: SuccessorVisited(g, s, hole, x, j)
  }

  ghost predicate Inv(g: Graph, s: State, hole: set<Node>) {
    Shape(g, s) && Visited(g, s, hole) && Reaches(g, s) && Lows(g, s) && ComponentsDone(g, s)
  }

  // ---------------------------------------------------------------------------------------------
  // Examining a successor
  // ---------------------------------------------------------------------------------------------

  function Min(a: nat, b: nat): nat { if a <= b then a else b }

  /** The top node's next successor has been looked at. */
  function ExamineNext(g: Graph, s: State): State
    requires |s.work| > 0 && s.work[|s.work| - 1].0 in g && s.work[|s.work| - 1].1 < |g[s.work[|s.work| - 1].0]|
  {
    var n := |s.work| - 1;
    var v, p := s.work[n].0, s.work[n].1;
    var u := g[v][p];
    s.(work := s.work[n := (v, p + 1)],
       lowlink := if u in s.stack then s.lowlink[v := Min(Low(s, v), Index(s, u))] else s.lowlink)
  }

  ghost predicate CanExamine(g: Graph, s: State) {
    Inv(g, s, {}) && |s.work| > 0 && s.work[|s.work| - 1].0 in g && s.work[|s.work| - 1].1 < |g[s.work[|s.work| - 1].0]|
  }

  lemma ExamineShape(g: Graph, s: State)
    requires CanExamine(g, s)
    ensures Shape(g, ExamineNext(g, s))
  {
    var s' := ExamineNext(g, s);
    assert WorkAt(g, s, |s.work| - 1);
    forall v ensures Numbered(g, s', v) { assert Numbered(g, s, v); }
    forall u, v ensures SameNumber(s', u, v) { assert SameNumber(s, u, v); }
    forall i: nat, j: nat ensures StackOrdered(s', i, j) { assert StackOrdered(s, i, j); }
    forall i: nat, j: nat ensures WorkOrdered(s', i, j) { assert WorkOrdered(s, i, j); }
    forall i: nat ensures WorkAt(g, s', i) { assert WorkAt(g, s, i); }
  }

  /** What has been examined now: what was, and one more. */
  lemma ExaminedNext(g: Graph, s: State, x: Node, j: nat)
    requires CanExamine(g, s)
    ensures var n := |s.work| - 1;
      Examined(g, ExamineNext(g, s), x, j) ==> Examined(g, s, x, j) || (x == s.work[n].0 && j == s.work[n].1)
  {
    var n := |s.work| - 1;
    var s' := ExamineNext(g, s);
    if Examined(g, s', x, j) && !Examined(g, s, x, j) {
      var i :| 0 <= i < |s.work| && s.work[i].0 == x && j >= s.work[i].1;
      assert s'.work[i].0 == x;
      assert WorkOrdered(s, i, n);
      assert Index(s, s.work[i].0) <= Index(s, s.work[n].0);
    }
  }

  lemma ExamineVisited(g: Graph, s: State, u: Node)
    requires CanExamine(g, s) && u == g[s.work[|s.work| - 1].0][s.work[|s.work| - 1].1]
    ensures Visited(g, ExamineNext(g, s), if u in g && u !in s.index then {u} else {})
  {
    var s', hole := ExamineNext(g, s), if u in g && u !in s.index then {u} else {};
    forall x, j: nat ensures SuccessorVisited(g, s', hole, x, j) {
      ExaminedNext(g, s, x, j);
      assert SuccessorVisited(g, s, {}, x, j);
    }
  }

  lemma ExamineReaches(g: Graph, s: State)
    requires CanExamine(g, s)
    ensures Reaches(g, ExamineNext(g, s))
  {
    var s' := ExamineNext(g, s);
    forall x, y ensures FinishedClosed(g, s', x, y) { assert FinishedClosed(g, s, x, y); }
    forall i: nat, y ensures ReachesUp(g, s', i, y) { assert ReachesUp(g, s, i, y); }
    forall x ensures ReachesBack(g, s', x) {
      assert ReachesBack(g, s, x);
      if x in s.stack {
        var i: nat :| ReachesBackTo(g, s, x, i);
        assert ReachesBackTo(g, s', x, i);
      }
    }
  }

  lemma ExamineLowReached(g: Graph, s: State, i: nat)
    requires CanExamine(g, s)
    ensures LowReached(g, ExamineNext(g, s), i)
  {
    var s' := ExamineNext(g, s);
    var n := |s.work| - 1;
    var v, u := s.work[n].0, g[s.work[n].0][s.work[n].1];
    assert LowReached(g, s, i) && WorkOrdered(s, i, n) && WorkAt(g, s, n);
    if i < |s.work| {
      var y :| LowIs(g, s, i, y);
      if i == n && u in s.stack && Index(s, u) < Low(s, v) {
        assert Numbered(g, s, u);
        ReachSelf(g, v);
        ReachEdge(g, v, v, u);
        assert LowIs(g, s', i, u);
      } else {
        assert LowIs(g, s', i, y);
      }
    }
  }

  lemma ExamineLowBound(g: Graph, s: State, i: nat, x: Node, j: nat)
    requires CanExamine(g, s)
    ensures LowBound(g, ExamineNext(g, s), i, x, j)
  {
    var s' := ExamineNext(g, s);
    var n := |s.work| - 1;
    ExaminedNext(g, s, x, j);
    assert LowBound(g, s, i, x, j) && WorkOrdered(s, i, n) && WorkAt(g, s, n);
    if Under(s', i, x) {
      assert Under(s, i, x);
      assert i < n ==> WorkOrdered(s, i + 1, n);
    }
  }

  lemma ExamineComponents(g: Graph, s: State)
    requires CanExamine(g, s)
    ensures ComponentsDone(g, ExamineNext(g, s))
  {
    var s' := ExamineNext(g, s);
    SameComponents(g, s, s');
  }

  lemma SameComponents(g: Graph, s: State, s': State)
    requires ComponentsDone(g, s) && s'.sccs == s.sccs && forall v :: Finished(s', v) <==> Finished(s, v)
    ensures ComponentsDone(g, s')
  {
    forall v ensures EmittedIffFinished(s', v) && EmittedOnce(s', v) {
      assert EmittedIffFinished(s, v) && EmittedOnce(s, v);
      forall c: nat, k: nat ensures Emits(s', c, k, v) <==> Emits(s, c, k, v) {}
    }
  }

  lemma ExamineKeeps(g: Graph, s: State, u: Node)
    requires CanExamine(g, s) && u == g[s.work[|s.work| - 1].0][s.work[|s.work| - 1].1]
    ensures Inv(g, ExamineNext(g, s), if u in g && u !in s.index then {u} else {})
  {
    var s' := ExamineNext(g, s);
    ExamineShape(g, s);
    ExamineVisited(g, s, u);
    ExamineReaches(g, s);
    forall i: nat ensures LowReached(g, s', i) { ExamineLowReached(g, s, i); }
    forall i: nat, x, j: nat ensures LowBound(g, s', i, x, j) { ExamineLowBound(g, s, i, x, j); }
    ExamineComponents(g, s);
  }

  // ---------------------------------------------------------------------------------------------
  // Visiting a new node
  // ---------------------------------------------------------------------------------------------

  function PushNode(s: State, u: Node): State {
    s.(index := s.index[u := |s.index|], lowlink := s.lowlink[u := |s.index|], stack := s.stack + [u],
      work := s.work + [(u, 0)])
  }

  /** Only the node about to be visited may be missing, and the top node leads to it. */
  ghost predicate CanPush(g: Graph, s: State, u: Node) {
    Inv(g, s, {u}) && u in g && u !in s.index && (|s.work| > 0 ==> Edge(g, s.work[|s.work| - 1].0, u))
  }

  lemma PushShape(g: Graph, s: State, u: Node)
    requires CanPush(g, s, u)
    ensures Shape(g, PushNode(s, u))
  {
    var s' := PushNode(s, u);
    forall v ensures Numbered(g, s', v) { assert Numbered(g, s, v); }
    forall v, w ensures SameNumber(s', v, w) { assert SameNumber(s, v, w) && Numbered(g, s, v) && Numbered(g, s, w); }
    forall i: nat, j: nat ensures StackOrdered(s', i, j) {
      assert StackOrdered(s, i, j);
      if i < |s.stack| { assert s.stack[i] in s.stack && Numbered(g, s, s.stack[i]); }
    }
    forall i: nat, j: nat ensures WorkOrdered(s', i, j) {
      assert WorkOrdered(s, i, j) && WorkAt(g, s, i);
      if i < |s.work| { assert Numbered(g, s, s.work[i].0); }
    }
    forall i: nat ensures WorkAt(g, s', i) { assert WorkAt(g, s, i); }
  }

  lemma PushExamined(g: Graph, s: State, u: Node, x: Node, j: nat)
    requires CanPush(g, s, u)
    ensures Examined(g, PushNode(s, u), x, j) ==> Examined(g, s, x, j) && x != u
  {
    var s' := PushNode(s, u);
    if Examined(g, s', x, j) {
      assert s'.work[|s.work|] == (u, 0);
      forall i | 0 <= i < |s.work| && s.work[i].0 == x ensures j < s.work[i].1 { assert s'.work[i] == s.work[i]; }
    }
  }

  lemma PushVisited(g: Graph, s: State, u: Node)
    requires CanPush(g, s, u)
    ensures Visited(g, PushNode(s, u), {})
  {
    forall x, j: nat ensures SuccessorVisited(g, PushNode(s, u), {}, x, j) {
      PushExamined(g, s, u, x, j);
      assert SuccessorVisited(g, s, {u}, x, j);
    }
  }

  lemma PushReachesUp(g: Graph, s: State, u: Node, i: nat, y: Node)
    requires CanPush(g, s, u)
    ensures ReachesUp(g, PushNode(s, u), i, y)
  {
    var s' := PushNode(s, u);
    assert ReachesUp(g, s, i, y);
    ReachSelf(g, u);
    if i < |s.work| && y == u {
      var n := |s.work| - 1;
      assert WorkAt(g, s, n) && WorkOrdered(s, i, n) && ReachesUp(g, s, i, s.work[n].0);
      assert WorkAt(g, s, i);
      ReachEdge(g, s.work[i].0, s.work[n].0, u);
    } else if i == |s.work| && y in s.stack {
      assert Numbered(g, s, y);
    }
  }

  lemma PushReaches(g: Graph, s: State, u: Node)
    requires CanPush(g, s, u)
    ensures Reaches(g, PushNode(s, u))
  {
    var s' := PushNode(s, u);
    forall x, y ensures FinishedClosed(g, s', x, y) { assert FinishedClosed(g, s, x, y); }
    forall i: nat, y ensures ReachesUp(g, s', i, y) { PushReachesUp(g, s, u, i, y); }
    forall x ensures ReachesBack(g, s', x) {
      assert ReachesBack(g, s, x);
      if x in s.stack {
        var i: nat :| ReachesBackTo(g, s, x, i);
        assert WorkAt(g, s, i);
        assert ReachesBackTo(g, s', x, i);
      } else if x == u {
        ReachSelf(g, u);
        assert ReachesBackTo(g, s', u, |s.work|);
      }
    }
  }

  lemma PushLowReached(g: Graph, s: State, u: Node, i: nat)
    requires CanPush(g, s, u)
    ensures LowReached(g, PushNode(s, u), i)
  {
    var s' := PushNode(s, u);
    assert LowReached(g, s, i) && WorkAt(g, s, i);
    if i < |s.work| {
      var y :| LowIs(g, s, i, y);
      assert LowIs(g, s', i, y);
    } else if i == |s.work| {
      ReachSelf(g, u);
      assert LowIs(g, s', i, u);
    }
  }

  lemma PushLowBound(g: Graph, s: State, u: Node, i: nat, x: Node, j: nat)
    requires CanPush(g, s, u)
    ensures LowBound(g, PushNode(s, u), i, x, j)
  {
    var s' := PushNode(s, u);
    PushExamined(g, s, u, x, j);
    if Under(s', i, x) && Examined(g, s', x, j) && g[x][j] in s'.stack {
      assert x in s.stack && Numbered(g, s, x);
      assert i < |s.work|;
      assert LowBound(g, s, i, x, j) && LowReached(g, s, i) && WorkAt(g, s, i) && Numbered(g, s, s.work[i].0);
      assert i + 1 < |s.work| ==> WorkAt(g, s, i + 1);
      assert Under(s, i, x);
    }
  }

  lemma PushKeeps(g: Graph, s: State, u: Node)
    requires CanPush(g, s, u)
    ensures Inv(g, PushNode(s, u), {})
  {
    var s' := PushNode(s, u);
    PushShape(g, s, u);
    PushVisited(g, s, u);
    PushReaches(g, s, u);
    forall i: nat ensures LowReached(g, s', i) { PushLowReached(g, s, u, i); }
    forall i: nat, x, j: nat ensures LowBound(g, s', i, x, j) { PushLowBound(g, s, u, i, x, j); }
    SameComponents(g, s, s');
  }

  // ---------------------------------------------------------------------------------------------
  // Returning from a node that reaches further down
  // ---------------------------------------------------------------------------------------------

  function PopWork(s: State): State
    requires |s.work| > 0
  {
    var n := |s.work| - 1;
    if n == 0 then s.(work := [])
    else
      var parent := s.work[n - 1].0;
      s.(work := s.work[..n], lowlink := s.lowlink[parent := Min(Low(s, parent), Low(s, s.work[n].0))])
  }

  /** All successors of the top node have been examined. */
  ghost predicate CanReturn(g: Graph, s: State) {
    Inv(g, s, {}) && |s.work| > 0 && s.work[|s.work| - 1].0 in g &&
      s.work[|s.work| - 1].1 == |g[s.work[|s.work| - 1].0]|
  }

  function Top(s: State): Node { if |s.work| > 0 then s.work[|s.work| - 1].0 else 0 }

  lemma PopShape(g: Graph, s: State)
    requires CanReturn(g, s)
    ensures Shape(g, PopWork(s))
  {
    var s' := PopWork(s);
    assert WorkAt(g, s, |s.work| - 1) && (|s.work| > 1 ==> WorkAt(g, s, |s.work| - 2));
    forall v ensures Numbered(g, s', v) { assert Numbered(g, s, v); }
    forall u, v ensures SameNumber(s', u, v) { assert SameNumber(s, u, v); }
    forall i: nat, j: nat ensures StackOrdered(s', i, j) { assert StackOrdered(s, i, j); }
    forall i: nat, j: nat ensures WorkOrdered(s', i, j) { assert WorkOrdered(s, i, j); }
    forall i: nat ensures WorkAt(g, s', i) { assert WorkAt(g, s, i); }
  }

  lemma PopExamined(g: Graph, s: State, x: Node, j: nat)
    requires CanReturn(g, s)
    ensures Examined(g, PopWork(s), x, j) ==> Examined(g, s, x, j)
  {
    var s' := PopWork(s);
    if Examined(g, s', x, j) {
      forall i | 0 <= i < |s.work| && s.work[i].0 == x ensures j < s.work[i].1 {
        if i < |s.work| - 1 { assert s'.work[i] == s.work[i]; }
      }
    }
  }

  lemma PopVisited(g: Graph, s: State)
    requires CanReturn(g, s)
    ensures Visited(g, PopWork(s), {})
  {
    forall x, j: nat ensures SuccessorVisited(g, PopWork(s), {}, x, j) {
      PopExamined(g, s, x, j);
      assert SuccessorVisited(g, s, {}, x, j);
    }
  }

  /** A node whose lowlink is below its number reaches a node explored earlier. */
  lemma Anchored(g: Graph, s: State) returns (i: nat)
    requires CanReturn(g, s) && Low(s, Top(s)) != Index(s, Top(s))
    ensures i < |s.work| - 1 && Index(s, s.work[i].0) < Index(s, Top(s)) && Reach(g, Top(s), s.work[i].0)
  {
    var n := |s.work| - 1;
    assert LowReached(g, s, n);
    var y :| LowIs(g, s, n, y);
    assert ReachesBack(g, s, y);
    i :| ReachesBackTo(g, s, y, i);
    ReachTrans(g, Top(s), y, s.work[i].0);
    assert WorkOrdered(s, n, i);
  }

  lemma PopReaches(g: Graph, s: State)
    requires CanReturn(g, s) && Low(s, Top(s)) != Index(s, Top(s))
    ensures Reaches(g, PopWork(s))
  {
    var s' := PopWork(s);
    var n := |s.work| - 1;
    var a := Anchored(g, s);
    forall x, y ensures FinishedClosed(g, s', x, y) { assert FinishedClosed(g, s, x, y); }
    forall i: nat, y ensures ReachesUp(g, s', i, y) { assert ReachesUp(g, s, i, y); }
    forall x ensures ReachesBack(g, s', x) {
      assert ReachesBack(g, s, x);
      if x in s.stack {
        var i: nat :| ReachesBackTo(g, s, x, i);
        if i < n {
          assert ReachesBackTo(g, s', x, i);
        } else {
          ReachTrans(g, x, Top(s), s.work[a].0);
          assert ReachesBackTo(g, s', x, a);
        }
      }
    }
  }

  lemma PopLowReached(g: Graph, s: State, i: nat)
    requires CanReturn(g, s)
    ensures LowReached(g, PopWork(s), i)
  {
    var s' := PopWork(s);
    var n := |s.work| - 1;
    assert LowReached(g, s, i) && LowReached(g, s, n) && (n > 0 ==> WorkOrdered(s, i, n - 1));
    if i < n {
      var y :| LowIs(g, s, i, y);
      var z :| LowIs(g, s, n, z);
      if i == n - 1 && Low(s, Top(s)) < Low(s, s.work[i].0) {
        assert WorkAt(g, s, n) && WorkOrdered(s, i, n) && ReachesUp(g, s, i, Top(s));
        ReachTrans(g, s.work[i].0, Top(s), z);
        assert LowIs(g, s', i, z);
      } else {
        assert LowIs(g, s', i, y);
      }
    }
  }

  lemma PopLowBound(g: Graph, s: State, i: nat, x: Node, j: nat)
    requires CanReturn(g, s)
    ensures LowBound(g, PopWork(s), i, x, j)
  {
    var s' := PopWork(s);
    var n := |s.work| - 1;
    PopExamined(g, s, x, j);
    assert LowBound(g, s, i, x, j) && LowBound(g, s, n, x, j) && (n > 0 ==> WorkOrdered(s, i, n - 1));
    if i == n - 1 && Under(s', i, x) {
      assert Under(s, i, x) || Under(s, n, x);
    } else if Under(s', i, x) {
      assert Under(s, i, x);
    }
  }

  lemma ReturnKeeps(g: Graph, s: State)
    requires CanReturn(g, s) && Low(s, Top(s)) != Index(s, Top(s))
    ensures Inv(g, PopWork(s), {})
  {
    var s' := PopWork(s);
    PopShape(g, s);
    PopVisited(g, s);
    PopReaches(g, s);
    forall i: nat ensures LowReached(g, s', i) { PopLowReached(g, s, i); }
    forall i: nat, x, j: nat ensures LowBound(g, s', i, x, j) { PopLowBound(g, s, i, x, j); }
    SameComponents(g, s, s');
  }

  // ---------------------------------------------------------------------------------------------
  // Emitting a component
  // ---------------------------------------------------------------------------------------------

  /** The nodes from position `k` of the stack up, topmost first. */
  function Popped(stack: seq<Node>, k: nat): (c: seq<Node>)
    requires k <= |stack|
    ensures |c| == |stack| - k
    ensures forall j :: 0 <= j < |c| ==> c[j] == stack[|stack| - 1 - j]
  {
    seq(|stack| - k, j requires 0 <= j < |stack| - k => stack[|stack| - 1 - j])
  }

  ghost predicate CanEmit(g: Graph, s: State, k: nat) {
    CanReturn(g, s) && Low(s, Top(s)) == Index(s, Top(s)) && k < |s.stack| && s.stack[k] == Top(s)
  }

  function Emit(s: State, k: nat): State
    requires |s.work| > 0 && k <= |s.stack|
  {
    PopWork(s).(stack := s.stack[..k], sccs := s.sccs + [Popped(s.stack, k)])
  }

  /** Above position `k` on the stack are exactly the nodes numbered from the top node on. */
  lemma Above(g: Graph, s: State, k: nat, x: Node)
    requires CanEmit(g, s, k)
    ensures x in s.stack[k..] <==> x in s.stack && Index(s, Top(s)) <= Index(s, x)
    ensures x in s.stack[..k] <==> x in s.stack && Index(s, x) < Index(s, Top(s))
    ensures x in Popped(s.stack, k) <==> x in s.stack[k..]
  {
    var c := Popped(s.stack, k);
    if x in s.stack {
      var i :| 0 <= i < |s.stack| && s.stack[i] == x;
      assert StackOrdered(s, i, k) && StackOrdered(s, k, i);
      if i >= k {
        assert s.stack[k..][i - k] == x && c[|s.stack| - 1 - i] == x;
      } else {
        assert s.stack[..k][i] == x;
      }
    }
    if x in s.stack[k..] {
      var i :| 0 <= i < |s.stack| - k && s.stack[k..][i] == x;
      assert StackOrdered(s, k, i + k) && s.stack[i + k] == x;
    }
    if x in s.stack[..k] {
      var i :| 0 <= i < k && s.stack[..k][i] == x;
      assert StackOrdered(s, i, k) && s.stack[i] == x;
    }
    if x in c {
      var j :| 0 <= j < |c| && c[j] == x;
      assert StackOrdered(s, k, |s.stack| - 1 - j) && s.stack[k..][|s.stack| - 1 - j - k] == x;
    }
  }

  /** No edge leads from the component back to what stays on the stack. */
  lemma ComponentEdge(g: Graph, s: State, k: nat, x: Node, y: Node)
    requires CanEmit(g, s, k) && x in s.stack[k..] && Edge(g, x, y)
    ensures y in s.stack[k..] || Finished(s, y)
  {
    var n := |s.work| - 1;
    Above(g, s, k, x);
    Above(g, s, k, y);
    var j :| 0 <= j < |g[x]| && g[x][j] == y;
    assert Examined(g, s, x, j) by {
      forall i | 0 <= i < |s.work| && s.work[i].0 == x ensures j < s.work[i].1 {
        assert WorkOrdered(s, i, n);
      }
    }
    assert SuccessorVisited(g, s, {}, x, j) && LowBound(g, s, n, x, j);
    assert Under(s, n, x);
  }

  lemma ComponentMutual(g: Graph, s: State, k: nat, x: Node)
    requires CanEmit(g, s, k) && x in s.stack[k..]
    ensures Mutual(g, Top(s), x)
  {
    var n := |s.work| - 1;
    Above(g, s, k, x);
    assert ReachesUp(g, s, n, x) && ReachesBack(g, s, x);
    var i: nat :| ReachesBackTo(g, s, x, i);
    assert WorkAt(g, s, n) && WorkOrdered(s, i, n) && ReachesUp(g, s, i, Top(s));
    ReachTrans(g, x, s.work[i].0, Top(s));
  }

  lemma FinishedIsClosed(g: Graph, s: State) returns (c: set<Node>)
    requires Inv(g, s, {})
    ensures ClosedSet(g, c) && forall v :: v in c <==> Finished(s, v)
  {
    c := set v | v in s.index && Finished(s, v);
    forall x, y | x in c && Edge(g, x, y) ensures y in c { assert FinishedClosed(g, s, x, y); }
  }

  lemma PoppedIsComponent(g: Graph, s: State, k: nat, x: Node)
    requires CanEmit(g, s, k) && x in s.stack[k..]
    ensures SameComponent(g, Popped(s.stack, k), x)
  {
    var c := Popped(s.stack, k);
    ComponentMutual(g, s, k, x);
    forall y ensures y in c <==> Mutual(g, x, y) {
      Above(g, s, k, y);
      if y in s.stack[k..] {
        ComponentMutual(g, s, k, y);
        ReachTrans(g, x, Top(s), y);
        ReachTrans(g, y, Top(s), x);
      } else if Mutual(g, x, y) {
        LeavesForever(g, s, k, x, y);
      }
    }
  }

  lemma LeavesForever(g: Graph, s: State, k: nat, x: Node, y: Node)
    requires CanEmit(g, s, k) && x in s.stack[k..] && Mutual(g, x, y)
    ensures y in s.stack[k..]
  {
    var done := FinishedIsClosed(g, s);
    var all := done + set v | v in s.stack[k..];
    forall v, w | v in all && Edge(g, v, w) ensures w in all {
      if v in s.stack[k..] { ComponentEdge(g, s, k, v, w); }
    }
    ClosedContains(g, all, x, y);
    if y in done {
      ClosedContains(g, done, y, x);
      Above(g, s, k, x);
    }
  }

  lemma EmitShape(g: Graph, s: State, k: nat)
    requires CanEmit(g, s, k)
    ensures Shape(g, Emit(s, k))
  {
    var p, s' := PopWork(s), Emit(s, k);
    PopShape(g, s);
    forall v ensures Numbered(g, s', v) { assert Numbered(g, p, v); }
    forall u, v ensures SameNumber(s', u, v) { assert SameNumber(p, u, v); }
    forall v | v in s'.stack ensures v in s'.index { Above(g, s, k, v); }
    forall i: nat, j: nat ensures StackOrdered(s', i, j) { assert StackOrdered(p, i, j); }
    forall i: nat, j: nat ensures WorkOrdered(s', i, j) { assert WorkOrdered(p, i, j); }
    forall i: nat ensures WorkAt(g, s', i) {
      assert WorkAt(g, p, i) && WorkOrdered(s, i, |s.work| - 1);
      if i < |s'.work| { Above(g, s, k, s.work[i].0); }
    }
  }

  lemma EmitFinished(g: Graph, s: State, k: nat, v: Node)
    requires CanEmit(g, s, k)
    ensures Finished(Emit(s, k), v) <==> Finished(s, v) || v in s.stack[k..]
  {
    Above(g, s, k, v);
  }

  lemma EmitVisited(g: Graph, s: State, k: nat)
    requires CanEmit(g, s, k)
    ensures Visited(g, Emit(s, k), {})
  {
    var p, s' := PopWork(s), Emit(s, k);
    PopVisited(g, s);
    forall x, j: nat ensures SuccessorVisited(g, s', {}, x, j) {
      assert SuccessorVisited(g, p, {}, x, j);
      assert Examined(g, s', x, j) ==> Examined(g, p, x, j);
    }
  }

  lemma EmitClosed(g: Graph, s: State, k: nat, x: Node, y: Node)
    requires CanEmit(g, s, k)
    ensures FinishedClosed(g, Emit(s, k), x, y)
  {
    EmitFinished(g, s, k, x);
    EmitFinished(g, s, k, y);
    assert FinishedClosed(g, s, x, y);
    if x in s.stack[k..] && Edge(g, x, y) { ComponentEdge(g, s, k, x, y); }
  }

  lemma EmitReaches(g: Graph, s: State, k: nat)
    requires CanEmit(g, s, k)
    ensures Reaches(g, Emit(s, k))
  {
    var s' := Emit(s, k);
    var n := |s.work| - 1;
    forall x, y ensures FinishedClosed(g, s', x, y) { EmitClosed(g, s, k, x, y); }
    forall i: nat, y ensures ReachesUp(g, s', i, y) {
      Above(g, s, k, y);
      assert ReachesUp(g, s, i, y);
    }
    forall x ensures ReachesBack(g, s', x) {
      Above(g, s, k, x);
      assert ReachesBack(g, s, x);
      if x in s'.stack {
        var i: nat :| ReachesBackTo(g, s, x, i);
        assert ReachesBackTo(g, s', x, i);
      }
    }
  }

  /** Emitting a component leaves the other lowlinks as they were. */
  lemma EmitLows(g: Graph, s: State, k: nat, v: Node)
    requires CanEmit(g, s, k)
    ensures Low(Emit(s, k), v) == Low(s, v)
  {
    var n := |s.work| - 1;
    if n > 0 {
      assert LowReached(g, s, n - 1) && WorkOrdered(s, n - 1, n) && WorkAt(g, s, n - 1);
      assert Numbered(g, s, s.work[n - 1].0);
    }
  }

  lemma EmitLowReached(g: Graph, s: State, k: nat, i: nat)
    requires CanEmit(g, s, k)
    ensures LowReached(g, Emit(s, k), i)
  {
    var s' := Emit(s, k);
    var n := |s.work| - 1;
    assert LowReached(g, s, i) && WorkOrdered(s, i, n);
    if i < n {
      EmitLows(g, s, k, s.work[i].0);
      var y :| LowIs(g, s, i, y);
      Above(g, s, k, y);
      assert LowIs(g, s', i, y);
    }
  }

  lemma EmitLowBound(g: Graph, s: State, k: nat, i: nat, x: Node, j: nat)
    requires CanEmit(g, s, k)
    ensures LowBound(g, Emit(s, k), i, x, j)
  {
    var s' := Emit(s, k);
    var n := |s.work| - 1;
    if Under(s', i, x) && Examined(g, s', x, j) && g[x][j] in s'.stack {
      EmitLows(g, s, k, s.work[i].0);
      Above(g, s, k, x);
      Above(g, s, k, g[x][j]);
      assert Examined(g, PopWork(s), x, j);
      PopExamined(g, s, x, j);
      assert LowBound(g, s, i, x, j);
      assert Under(s, i, x);
    }
  }

  lemma EmitComponents(g: Graph, s: State, k: nat)
    requires CanEmit(g, s, k)
    ensures ComponentsDone(g, Emit(s, k))
  {
    var s' := Emit(s, k);
    var c := Popped(s.stack, k);
    assert IsComponent(g, c) by {
      forall x | x in c ensures SameComponent(g, c, x) {
        Above(g, s, k, x);
        PoppedIsComponent(g, s, k, x);
      }
    }
    forall v ensures EmittedIffFinished(s', v) && EmittedOnce(s', v) { EmitOnce(g, s, k, v); }
  }

  lemma EmitOnce(g: Graph, s: State, k: nat, v: Node)
    requires CanEmit(g, s, k)
    ensures EmittedIffFinished(Emit(s, k), v) && EmittedOnce(Emit(s, k), v)
  {
    var s' := Emit(s, k);
    var c := Popped(s.stack, k);
    var d := |s.sccs|;
    EmitFinished(g, s, k, v);
    Above(g, s, k, v);
    assert EmittedIffFinished(s, v) && EmittedOnce(s, v);
    forall e: nat, j: nat ensures Emits(s', e, j, v) <==> Emits(s, e, j, v) || (e == d && j < |c| && c[j] == v) {}
    if v in s.stack[k..] {
      forall j, j' | 0 <= j < |c| && 0 <= j' < |c| && c[j] == v && c[j'] == v ensures j == j' {
        assert StackOrdered(s, |s.stack| - 1 - j, |s.stack| - 1 - j') &&
          StackOrdered(s, |s.stack| - 1 - j', |s.stack| - 1 - j);
      }
      var j :| 0 <= j < |c| && c[j] == v;
      assert Emits(s', d, j, v);
    }
  }

  lemma EmitKeeps(g: Graph, s: State, k: nat)
    requires CanEmit(g, s, k)
    ensures Inv(g, Emit(s, k), {})
  {
    var s' := Emit(s, k);
    EmitShape(g, s, k);
    EmitVisited(g, s, k);
    EmitReaches(g, s, k);
    forall i: nat ensures LowReached(g, s', i) { EmitLowReached(g, s, k, i); }
    forall i: nat, x, j: nat ensures LowBound(g, s', i, x, j) { EmitLowBound(g, s, k, i, x, j); }
    EmitComponents(g, s, k);
  }

  // ---------------------------------------------------------------------------------------------
  // The search
  // ---------------------------------------------------------------------------------------------

  ghost predicate Idle(g: Graph, index: map<Node, nat>, lowlink: map<Node, nat>, stack: seq<Node>, onStack: set<Node>,
      sccs: seq<seq<Node>>) {
    Inv(g, State(index, lowlink, stack, [], sccs), {}) && OnStack(onStack, stack)
  }

  ghost predicate OnStack(onStack: set<Node>, stack: seq<Node>) {
    forall v :: v in onStack <==> v in stack
  }

  lemma NothingVisited(g: Graph)
    ensures Idle(g, map[], map[], [], {}, [])
  {
  }

  lemma StartKeeps(g: Graph, s: State, u: Node)
    requires Inv(g, s, {}) && s.work == [] && u in g && u !in s.index
    ensures CanPush(g, s, u)
  {
    forall x, j: nat ensures SuccessorVisited(g, s, {u}, x, j) { assert SuccessorVisited(g, s, {}, x, j); }
  }

  /** When nothing is being explored, the stack is empty. */
  lemma IdleStack(g: Graph, s: State)
    requires Inv(g, s, {}) && s.work == []
    ensures s.stack == []
  {
    assert s.stack != [] ==> s.stack[0] in s.stack && ReachesBack(g, s, s.stack[0]);
  }

  /** Everything visited is numbered below the number of visited nodes, and lies in the graph. */
  lemma VisitedAreKeys(g: Graph, s: State, hole: set<Node>)
    requires Inv(g, s, hole)
    ensures s.index.Keys <= g.Keys && |s.index| <= |g|
  {
    forall v | v in s.index.Keys ensures v in g.Keys { assert Numbered(g, s, v); }
    SubsetSize(s.index.Keys, g.Keys);
    assert |s.index.Keys| == |s.index| && |g.Keys| == |g|;
  }

  lemma SubsetSize(a: set<Node>, b: set<Node>)
    requires a <= b
    ensures |a| <= |b|
  {
    if a != {} {
      var v :| v in a;
      SubsetSize(a - {v}, b - {v});
    }
  }

  /** The lists partition the keys, and two keys share a list exactly when each reaches the other. */
  ghost predicate AreComponents(g: Graph, sccs: seq<seq<Node>>) {
    && (forall c :: 0 <= c < |sccs| ==> IsComponent(g, sccs[c]))
    && (forall v :: v in g ==> exists c, k :: ListedAt(sccs, c, k, v))
    && (forall v, c, k :: ListedAt(sccs, c, k, v) ==> v in g)
    && (forall v, c, k, c', k' :: ListedAt(sccs, c, k, v) && ListedAt(sccs, c', k', v) ==> c == c' && k == k')
  }

  ghost predicate ListedAt(sccs: seq<seq<Node>>, c: nat, k: nat, v: Node) {
    c < |sccs| && k < |sccs[c]| && sccs[c][k] == v
  }

  lemma SearchDone(g: Graph, s: State)
    requires Inv(g, s, {}) && s.work == [] && forall v :: v in g ==> v in s.index
    ensures AreComponents(g, s.sccs)
  {
    IdleStack(g, s);
    forall v | v in g ensures exists c, k :: ListedAt(s.sccs, c, k, v) {
      assert EmittedIffFinished(s, v);
      var c, k :| Emits(s, c, k, v);
      assert ListedAt(s.sccs, c, k, v);
    }
    forall v, c: nat, k: nat | ListedAt(s.sccs, c, k, v) ensures v in g {
      assert Emits(s, c, k, v) && EmittedIffFinished(s, v) && Numbered(g, s, v);
    }
    forall v, c: nat, k: nat, c': nat, k': nat | ListedAt(s.sccs, c, k, v) && ListedAt(s.sccs, c', k', v)
      ensures c == c' && k == k' {
      assert Emits(s, c, k, v) && Emits(s, c', k', v) && EmittedOnce(s, v);
    }
  }

  /** A new successor of the top node may be pushed. */
  lemma NewSuccessor(g: Graph, s: State, u: Node)
    requires CanExamine(g, s) && u == g[Top(s)][s.work[|s.work| - 1].1] && u in g && u !in s.index
    ensures u !in s.stack && Inv(g, PushNode(ExamineNext(g, s), u), {})
  {
    ExamineKeeps(g, s, u);
    PushKeeps(g, ExamineNext(g, s), u);
  }

  lemma VisitedBefore(g: Graph, s: State, v: Node)
    requires Inv(g, s, {}) && v in s.stack
    ensures v in s.index && v in s.lowlink && v in g
  {
    assert Numbered(g, s, v);
  }

  lemma TopIsKey(g: Graph, s: State)
    requires Inv(g, s, {}) && |s.work| > 0
    ensures Top(s) in g && Top(s) in s.lowlink && s.work[|s.work| - 1].1 <= |g[Top(s)]|
  {
    assert WorkAt(g, s, |s.work| - 1);
    VisitedBefore(g, s, Top(s));
  }

  lemma TopsAreVisited(g: Graph, s: State)
    requires CanReturn(g, s)
    ensures Top(s) in s.index && Top(s) in s.lowlink
    ensures var n := |s.work| - 1; n > 0 ==> s.work[n - 1].0 in s.lowlink && s.work[n - 1].0 != Top(s)
  {
    var n := |s.work| - 1;
    assert WorkAt(g, s, n);
    VisitedBefore(g, s, Top(s));
    if n > 0 {
      assert WorkAt(g, s, n - 1) && WorkOrdered(s, n - 1, n);
      VisitedBefore(g, s, s.work[n - 1].0);
    }
  }

  lemma TopOnStack(g: Graph, s: State) returns (k: nat)
    requires CanReturn(g, s)
    ensures k < |s.stack| && s.stack[k] == Top(s)
  {
    assert WorkAt(g, s, |s.work| - 1);
    k :| 0 <= k < |s.stack| && s.stack[k] == Top(s);
  }

  lemma StackOnce(g: Graph, s: State, i: nat, j: nat)
    requires Inv(g, s, {}) && i < |s.stack| && j < |s.stack| && s.stack[i] == s.stack[j]
    ensures i == j
  {
    assert StackOrdered(s, i, j) && StackOrdered(s, j, i);
  }

  lemma PopOne(g: Graph, s: State, onStack: set<Node>, m: nat)
    requires Inv(g, s, {}) && 0 < m <= |s.stack| && OnStack(onStack, s.stack[..m])
    ensures OnStack(onStack - {s.stack[m - 1]}, s.stack[..m - 1])
    ensures Popped(s.stack, m) + [s.stack[m - 1]] == Popped(s.stack, m - 1)
  {
    var fewer, shorter := onStack - {s.stack[m - 1]}, s.stack[..m - 1];
    forall v ensures v in fewer <==> v in shorter {
      if v in s.stack[..m] {
        var i :| 0 <= i < m && s.stack[..m][i] == v;
        if i < m - 1 { assert s.stack[..m - 1][i] == v; }
      }
      if v in s.stack[..m - 1] {
        var i :| 0 <= i < m - 1 && s.stack[..m - 1][i] == v;
        assert s.stack[..m][i] == v;
        if v == s.stack[m - 1] { StackOnce(g, s, i, m - 1); }
      }
    }
  }

  /** `order` is the order in which the dictionary yields its keys. */
  method TarjanScc(g: Graph, order: seq<Node>) returns (sccs: seq<seq<Node>>)
    requires forall v :: v in order <==> v in g
    ensures AreComponents(g, sccs)
  {
    var index: map<Node, nat>, lowlink: map<Node, nat> := map[], map[];
    var stack: seq<Node>, onStack: set<Node> := [], {};
    sccs := [];
    NothingVisited(g);
    for i := 0 to |order|
      invariant Idle(g, index, lowlink, stack, onStack, sccs)
      invariant forall j :: 0 <= j < i ==> order[j] in index
    {
      if order[i] !in index {
        index, lowlink, stack, onStack, sccs := Explore(g, order[i], index, lowlink, stack, onStack, sccs);
      }
    }
    SearchDone(g, State(index, lowlink, stack, [], sccs));
  }

  /** Explores everything reachable from `start` that has not been visited. */
  method Explore(g: Graph, start: Node, index0: map<Node, nat>, lowlink0: map<Node, nat>, stack0: seq<Node>,
      onStack0: set<Node>, sccs0: seq<seq<Node>>)
      returns (index: map<Node, nat>, lowlink: map<Node, nat>, stack: seq<Node>, onStack: set<Node>,
        sccs: seq<seq<Node>>)
    requires Idle(g, index0, lowlink0, stack0, onStack0, sccs0) && start in g && start !in index0
    ensures Idle(g, index, lowlink, stack, onStack, sccs)
    ensures start in index && forall v :: v in index0 ==> v in index
  {
    index, lowlink, stack, onStack, sccs := index0, lowlink0, stack0, onStack0, sccs0;
    var work: seq<(Node, nat)> := [];
    ghost var s := State(index, lowlink, stack, work, sccs);
    StartKeeps(g, s, start);
    PushKeeps(g, s, start);
    work := [(start, 0)];
    lowlink := lowlink[start := |index|];
    index := index[start := |index|];
    stack := stack + [start];
    onStack := onStack + {start};
    assert State(index, lowlink, stack, work, sccs) == PushNode(s, start);
    VisitedAreKeys(g, PushNode(s, start), {});
    while work != []
      invariant Inv(g, State(index, lowlink, stack, work, sccs), {}) && OnStack(onStack, stack)
      invariant start in index && forall v :: v in index0 ==> v in index
      invariant |index| <= |g|
      decreases |g| - |index|, |work|
    {
      var advanced;
      index, lowlink, stack, onStack, work, advanced := Advance(g, index, lowlink, stack, onStack, work, sccs);
      if !advanced {
        lowlink, stack, onStack, work, sccs := Retreat(g, index, lowlink, stack, onStack, work, sccs);
      }
    }
  }

  /** Examines the top node's successors until one is new, which is pushed, or none is left. */
  method Advance(g: Graph, index0: map<Node, nat>, lowlink0: map<Node, nat>, stack0: seq<Node>, onStack0: set<Node>,
      work0: seq<(Node, nat)>, ghost sccs: seq<seq<Node>>)
      returns (index: map<Node, nat>, lowlink: map<Node, nat>, stack: seq<Node>, onStack: set<Node>,
        work: seq<(Node, nat)>, advanced: bool)
    requires Inv(g, State(index0, lowlink0, stack0, work0, sccs), {}) && OnStack(onStack0, stack0) && work0 != []
    ensures Inv(g, State(index, lowlink, stack, work, sccs), {}) && OnStack(onStack, stack)
    ensures forall v :: v in index0 ==> v in index
    ensures advanced ==> |index0| < |index| <= |g|
    ensures !advanced ==> index == index0 && |work| == |work0| && CanReturn(g, State(index, lowlink, stack, work, sccs))
  {
    index, lowlink, stack, onStack, work := index0, lowlink0, stack0, onStack0, work0;
    var n := |work| - 1;
    var node := work[n].0;
    TopIsKey(g, State(index, lowlink, stack, work, sccs));
    while work[n].1 < |g[node]|
      invariant |work| == n + 1 && work[n].0 == node && node in g && work[n].1 <= |g[node]|
      invariant index == index0 && stack == stack0 && onStack == onStack0
      invariant Inv(g, State(index, lowlink, stack, work, sccs), {})
      decreases |g[node]| - work[n].1
    {
      ghost var s := State(index, lowlink, stack, work, sccs);
      var succ := g[node][work[n].1];
      ExamineKeeps(g, s, succ);
      TopIsKey(g, s);
      if succ in stack { VisitedBefore(g, s, succ); }
      work := work[n := (node, work[n].1 + 1)];
      if succ in g && succ !in index {
        NewSuccessor(g, s, succ);
        work := work + [(succ, 0)];
        lowlink := lowlink[succ := |index|];
        index := index[succ := |index|];
        stack := stack + [succ];
        onStack := onStack + {succ};
        assert State(index, lowlink, stack, work, sccs) == PushNode(ExamineNext(g, s), succ);
        VisitedAreKeys(g, PushNode(ExamineNext(g, s), succ), {});
        advanced := true;
        return;
      }
      if succ in g && succ in onStack {
        lowlink := lowlink[node := Min(lowlink[node], index[succ])];
      }
      assert State(index, lowlink, stack, work, sccs) == ExamineNext(g, s);
    }
    advanced := false;
  }

  /** Leaves the finished top node; if it is the root of a component, the component is emitted. */
  method Retreat(g: Graph, index: map<Node, nat>, lowlink0: map<Node, nat>, stack0: seq<Node>, onStack0: set<Node>,
      work0: seq<(Node, nat)>, sccs0: seq<seq<Node>>)
      returns (lowlink: map<Node, nat>, stack: seq<Node>, onStack: set<Node>, work: seq<(Node, nat)>,
        sccs: seq<seq<Node>>)
    requires CanReturn(g, State(index, lowlink0, stack0, work0, sccs0)) && OnStack(onStack0, stack0)
    ensures Inv(g, State(index, lowlink, stack, work, sccs), {}) && OnStack(onStack, stack)
    ensures |work| < |work0|
  {
    ghost var s := State(index, lowlink0, stack0, work0, sccs0);
    var n := |work0| - 1;
    var node := work0[n].0;
    lowlink, stack, onStack, sccs := lowlink0, stack0, onStack0, sccs0;
    TopsAreVisited(g, s);
    work := work0[..n];
    if n > 0 {
      var parent := work[n - 1].0;
      lowlink := lowlink[parent := Min(lowlink[parent], lowlink[node])];
    }
    assert State(index, lowlink, stack, work, sccs) == PopWork(s);
    if lowlink[node] == index[node] {
      var scc;
      ghost var k;
      stack, onStack, scc, k := PopComponent(g, node, stack, onStack, s);
      sccs := sccs + [scc];
      EmitKeeps(g, s, k);
    } else {
      ReturnKeeps(g, s);
    }
  }

  method PopComponent(g: Graph, node: Node, stack0: seq<Node>, onStack0: set<Node>, ghost s: State)
      returns (stack: seq<Node>, onStack: set<Node>, scc: seq<Node>, ghost k: nat)
    requires CanReturn(g, s) && s.stack == stack0 && node == Top(s) && OnStack(onStack0, stack0)
    requires Low(s, node) == Index(s, node)
    ensures CanEmit(g, s, k) && stack == stack0[..k] && scc == Popped(stack0, k) && OnStack(onStack, stack)
  {
    stack, onStack, scc := stack0, onStack0, [];
    k := TopOnStack(g, s);
    var w;
    assert stack0[..|stack0|] == stack0;
    while true
      invariant k < |stack| <= |stack0| && stack == stack0[..|stack|]
      invariant scc == Popped(stack0, |stack|) && OnStack(onStack, stack)
      decreases |stack|
    {
      var m := |stack|;
      w := stack[m - 1];
      if w == node { StackOnce(g, s, k, m - 1); }
      PopOne(g, s, onStack, m);
      stack := stack[..m - 1];
      onStack := onStack - {w};
      scc := scc + [w];
      if w == node { break; }
    }
  }
}
