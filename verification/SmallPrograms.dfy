/** How to show what the analysis makes of one given program: its states are listed block by block and
    element by element, and each is checked against the one before. */
module SmallPrograms {
  import opened Flow
  import opened Options
  import opened Transfer
  import opened Program
  import opened Execution
  import opened Soundness
  import opened Agreement
  import L = Liveness

  // ---------------------------------------------------------------------------------------------
  // One block
  // ---------------------------------------------------------------------------------------------

  /** Element `k` leads from each listed state to the next. */
  ghost predicate Trace(cmds: seq<Cmd>, live: seq<LiveAfter>, states: seq<FlowState>) {
    |live| == |cmds| && |states| == |cmds| + 1 &&
    forall k :: 0 <= k < |cmds| ==> states[k + 1] == Step(cmds[k], states[k], live[k]).state
  }

  lemma {:induction false} TraceStates(cmds: seq<Cmd>, live: seq<LiveAfter>, states: seq<FlowState>, k: nat)
    requires Trace(cmds, live, states) && k <= |cmds|
    ensures StateBefore(cmds, states[0], live, k) == states[k]
  {
    if k == 0 {
      assert cmds[..0] == [] && live[..0] == [];
    } else {
      TraceStates(cmds, live, states, k - 1);
      StateBeforeNext(cmds, states[0], live, k - 1);
      assert states[k - 1 + 1] == Step(cmds[k - 1], states[k - 1], live[k - 1]).state;
    }
  }

  lemma {:induction false} TraceReports(cmds: seq<Cmd>, live: seq<LiveAfter>, states: seq<FlowState>, k: nat)
    requires Trace(cmds, live, states) && k <= |cmds|
    requires forall j :: 0 <= j < k ==> Step(cmds[j], states[j], live[j]).reports == {}
    ensures ReportsBefore(cmds, states[0], live, k) == {}
  {
    if k == 0 {
      assert cmds[..0] == [] && live[..0] == [];
    } else {
      TraceReports(cmds, live, states, k - 1);
      TraceStates(cmds, live, states, k - 1);
      ReportsBeforeNext(cmds, states[0], live, k - 1);
    }
  }

  lemma {:induction false} TraceCreates(cmds: seq<Cmd>, live: seq<LiveAfter>, states: seq<FlowState>, k: nat,
      known: set<Storage>)
    requires Trace(cmds, live, states) && k <= |cmds|
    requires forall j :: 0 <= j < k ==> Step(cmds[j], states[j], live[j]).created <= known
    ensures CreatedBefore(cmds, states[0], live, k) <= known
  {
    if k == 0 {
      assert cmds[..0] == [] && live[..0] == [];
    } else {
      TraceCreates(cmds, live, states, k - 1, known);
      TraceStates(cmds, live, states, k - 1);
      RunBlockNext(cmds, states[0], live, k - 1);
    }
  }

  /** The block's outcome, from the trace. */
  lemma TraceRuns(cmds: seq<Cmd>, live: seq<LiveAfter>, states: seq<FlowState>)
    requires Trace(cmds, live, states)
    ensures RunBlock(cmds, states[0], live).state == states[|cmds|]
    ensures (forall j :: 0 <= j < |cmds| ==> Step(cmds[j], states[j], live[j]).reports == {}) ==>
      RunBlock(cmds, states[0], live).reports == {}
  {
    assert cmds[..|cmds|] == cmds && live[..|cmds|] == live;
    TraceStates(cmds, live, states, |cmds|);
    if forall j :: 0 <= j < |cmds| ==> Step(cmds[j], states[j], live[j]).reports == {} {
      TraceReports(cmds, live, states, |cmds|);
    }
  }

  lemma RunOne(c: Cmd, st: FlowState, live: seq<LiveAfter>)
    requires |live| == 1
    ensures RunBlock([c], st, live).state == Step(c, st, live[0]).state
    ensures RunBlock([c], st, live).reports == Step(c, st, live[0]).reports
  {
    assert [c][..0] == [];
    assert RunBlock([], st, live[..0]) == Silent(st);
  }

  lemma OnlyBorrowsCreate(c: Cmd, st: FlowState, live: LiveAfter)
    requires !c.Borrow?
    ensures Step(c, st, live).created == {}
  {
    forall y ensures y !in Step(c, st, live).created {
      if y in Step(c, st, live).created { CreatesBorrowVariables(c, st, live, y); }
    }
  }

  lemma BorrowFreeCreates(cmds: seq<Cmd>, st: FlowState, live: seq<LiveAfter>)
    requires |live| == |cmds| && forall j :: 0 <= j < |cmds| ==> !cmds[j].Borrow?
    ensures RunBlock(cmds, st, live).created == {}
  {
    if cmds != [] {
      var n := |cmds| - 1;
      BorrowFreeCreates(cmds[..n], st, live[..n]);
      var before := RunBlock(cmds[..n], st, live[..n]).state;
      OnlyBorrowsCreate(cmds[n], before, live[n]);
    }
  }

  // ---------------------------------------------------------------------------------------------
  // The graph
  // ---------------------------------------------------------------------------------------------

  /** Every block is reached with what its only predecessor sends it. */
  ghost predicate Unfolds(blocks: seq<Block>, ins: map<nat, FlowState>, b: nat, i: nat) {
    b < |blocks| && b in ins && i < |blocks[b].succs| && blocks[b].succs[i].Some? ==>
      && blocks[b].succs[i].value in ins
      && ins[blocks[b].succs[i].value] == EdgeState(blocks[b], i, TransferBlock(blocks[b], ins[b]))
  }

  /** The in-state of block `b` is one that the analysis can come to. */
  ghost predicate Reached(blocks: seq<Block>, ins: map<nat, FlowState>, b: nat) {
    b in ins && b < |blocks| && (b == 0 || HasPredecessor(blocks, b)) && ArrivesAt(ins[b], blocks, 0, b)
  }

  lemma StartIsReached(blocks: seq<Block>, ins: map<nat, FlowState>)
    requires 0 in ins && 0 < |blocks| && ins[0] == EMPTY_STATE
    ensures Reached(blocks, ins, 0)
  {
    ArrivesAtEntry(blocks, 0);
  }

  lemma ReachedNext(blocks: seq<Block>, ins: map<nat, FlowState>, b: nat, i: nat, s: nat)
    requires Reached(blocks, ins, b) && i < |blocks[b].succs| && blocks[b].succs[i] == Some(s) && s < |blocks|
    requires Unfolds(blocks, ins, b, i)
    ensures Reached(blocks, ins, s)
  {
    ArrivesAlong(ins[b], blocks, 0, b, i);
    assert blocks[b].succs[i] in blocks[b].succs;
  }

  lemma UnfoldingIsPostFixed(blocks: seq<Block>, ins: map<nat, FlowState>)
    requires 0 in ins && ins[0] == EMPTY_STATE && forall b :: b in ins ==> Reached(blocks, ins, b)
    requires forall b, i :: Unfolds(blocks, ins, b, i)
    ensures PostFixed(blocks, 0, ins)
  {
    JoinIdempotent(EMPTY_STATE);
    forall b | b in ins ensures b < |blocks| && (b == 0 || HasPredecessor(blocks, b)) &&
      EdgesAbsorbed(blocks, ins, b, TransferBlock(blocks[b], ins[b])) {
      assert Reached(blocks, ins, b);
      var out := TransferBlock(blocks[b], ins[b]);
      forall i: nat ensures EdgeAbsorbed(blocks, ins, b, i, out) {
        assert Unfolds(blocks, ins, b, i);
        JoinIdempotent(EdgeState(blocks[b], i, out));
      }
    }
  }

  lemma {:induction false} ForwardPaths(blocks: seq<Block>, b: nat, c: nat, n: nat)
    requires forall p, q :: Connects(blocks, false, p, q) ==> p < q
    requires Leads(blocks, false, b, c, n)
    ensures b < c
    decreases n
  {
    if n > 1 {
      var p: nat :| Leads(blocks, false, b, p, n - 1) && Connects(blocks, false, p, c);
      ForwardPaths(blocks, b, p, n - 1);
    }
  }

  /** If every edge leads to a later block, there is no cycle. */
  lemma ForwardGraphHasNoCycle(blocks: seq<Block>, b: nat)
    requires forall p, q :: Connects(blocks, false, p, q) ==> p < q
    ensures !Downstream(blocks, false, b, b)
  {
    if Downstream(blocks, false, b, b) {
      var n: nat :| Leads(blocks, false, b, b, n);
      ForwardPaths(blocks, b, b, n);
    }
  }

  lemma PlainEdge(b: Block, i: nat, st: FlowState)
    requires b.cond == None && !b.loopHead
    ensures EdgeState(b, i, st) == st
  {
  }

  lemma VisitOne(blocks: seq<Block>, b: nat, c: Cmd, m: Machine, m': Machine) returns (v: Visit)
    requires b < |blocks| && blocks[b].cmds == [c] && Steps(c, m, m')
    ensures v == Visit(b, [m, m']) && VisitOk(blocks, v)
  {
    v := Visit(b, [m, m']);
  }

  // ---------------------------------------------------------------------------------------------
  // Liveness and reports
  // ---------------------------------------------------------------------------------------------

  /** Every event of the graph. */
  ghost function Points(g: seq<L.EventBlock>): set<L.Point> {
    set b, k | 0 <= b < |g| && 0 <= k < |g[b].events| :: (b, k)
  }

  lemma PointsExactly(g: seq<L.EventBlock>, p: L.Point)
    ensures p in Points(g) <==> p.0 < |g| && p.1 < |g[p.0].events|
  {
    if p.0 < |g| && p.1 < |g[p.0].events| { assert (p.0, p.1) in Points(g); }
  }

  /** What the liveness analysis computes exists for every program. */
  lemma ExactTable(blocks: seq<Block>, known: set<Storage>) returns (after: map<L.Point, set<Storage>>)
    ensures L.Exact(EventGraph(blocks, known), after)
  {
    var g := EventGraph(blocks, known);
    var points := Points(g);
    after := map p: L.Point | p in points :: L.UsedAfter(g, (p.0, p.1 + 1));
    forall p: L.Point ensures p in after <==> p.0 < |g| && p.1 < |g[p.0].events| { PointsExactly(g, p); }
    forall p: L.Point, v ensures L.ExactAt(g, after, p, v) { L.UsedAfterMeans(g, (p.0, p.1 + 1), v); }
  }

  /** If no known borrow is mentioned anywhere, nothing is ever live. */
  lemma NothingIsLive(blocks: seq<Block>, known: set<Storage>) returns (after: map<L.Point, set<Storage>>)
    requires forall b, k :: 0 <= b < |blocks| && 0 <= k < |EventsOf(blocks[b], known)| ==>
      EventsOf(blocks[b], known)[k].uses == {}
    ensures L.Exact(EventGraph(blocks, known), after)
    ensures forall p :: p in after ==> after[p] == {}
  {
    after := ExactTable(blocks, known);
    var g := EventGraph(blocks, known);
    assert L.Universe(g) == {};
    forall p | p in after ensures after[p] == {} {
      forall v ensures v !in after[p] {
        assert L.ExactAt(g, after, p, v);
        L.UsedAfterMeans(g, (p.0, p.1 + 1), v);
      }
    }
  }

  lemma {:induction false} NothingIsEmitted(blocks: seq<Block>, ins: map<nat, FlowState>,
      after: map<L.Point, set<Storage>>, n: nat)
    requires n <= |blocks| && forall b :: b in ins && b < |blocks| ==> EmitBlock(blocks, ins, after, b).reports == {}
    ensures EmittedBelow(blocks, ins, after, n) == {}
  {
    if n > 0 {
      NothingIsEmitted(blocks, ins, after, n - 1);
    }
  }

  /** A program without borrows. */
  lemma BorrowFreeAnalysed(blocks: seq<Block>, ins: map<nat, FlowState>) returns (after: map<L.Point, set<Storage>>)
    requires PostFixed(blocks, 0, ins) && forall b :: b in ins ==> ArrivesAt(ins[b], blocks, 0, b)
    requires forall b, k :: 0 <= b < |blocks| && 0 <= k < |blocks[b].cmds| ==> !blocks[b].cmds[k].Borrow?
    ensures Analysed(blocks, 0, ins, {}, after)
  {
    forall b, k | 0 <= b < |blocks| && 0 <= k < |EventsOf(blocks[b], {})|
      ensures EventsOf(blocks[b], {})[k].uses == {} {
      EventsOfKnown(blocks[b], {}, k, 0);
    }
    after := NothingIsLive(blocks, {});
    forall b | b in ins ensures ins[b].borrows.Keys <= {} && (b < |blocks| ==> CreatedIn(blocks[b], ins[b]) <= {}) {
      NoBorrowsArrive(blocks, ins[b], b);
      if b < |blocks| { BorrowFreeCreates(blocks[b].cmds, ins[b], NothingMeasured(|blocks[b].cmds|)); }
    }
  }

  lemma NoBorrowsArrive(blocks: seq<Block>, st: FlowState, b: nat)
    requires forall c, k :: 0 <= c < |blocks| && 0 <= k < |blocks[c].cmds| ==> !blocks[c].cmds[k].Borrow?
    requires ArrivesAt(st, blocks, 0, b)
    ensures st.borrows.Keys == {}
  {
    ArrivesReachable(st, blocks, 0, b);
    var d :| DerivesFrom(d, blocks) && Derived(d) == st;
    forall y ensures y !in st.borrows {
      if y in st.borrows { DerivedBorrowVariables(d, blocks, y); }
    }
  }
}
