/** The verdict of the whole analysis, and what it is worth. */
module Verdict {
  import opened Flow
  import opened Transfer
  import opened Program
  import opened Execution
  import opened Guards
  import opened Soundness
  import opened Agreement
  import opened Borrowed
  import opened Analyzer
  import L = Liveness

  // ---------------------------------------------------------------------------------------------
  // The verdict
  // ---------------------------------------------------------------------------------------------

  /** What the analysis asks of the program: a valid graph, one small site per allocating expression,
      productions off cycles, no second declaration of a borrow variable; and of out-owner calls, that
      one call is one production, and that conditions on calls directly follow them and ask only calls
      that signal by their results. */
  ghost predicate InScope(blocks: seq<Block>, entry: nat) {
    Ordinary(blocks, entry) && CallsAgree(blocks) &&
      forall b :: b in blocks ==> ConditionFollowsCall(b) && ConditionOnSignal(b)
  }

  /** No move in the reporting pass is dropped without a report. */
  ghost predicate NoSilentMove(blocks: seq<Block>, ins: map<nat, FlowState>, after: map<L.Point, set<Storage>>) {
    forall b, k :: b in ins && b < |blocks| && 0 <= k < |blocks[b].cmds| ==>
      !SilentMove(blocks[b].cmds[k], StateBefore(blocks[b].cmds, ins[b], LiveOf(blocks, after, b), k))
  }

  /** The analysis of a program in scope, in which no declaration meets a guard that outlives it. */
  ghost predicate Reliable(blocks: seq<Block>, entry: nat, ins: map<nat, FlowState>, known: set<Storage>,
      after: map<L.Point, set<Storage>>) {
    InScope(blocks, entry) && Analysed(blocks, entry, ins, known, after) && FreshDeclarations(blocks, ins, after)
  }

  lemma ReliableConverged(blocks: seq<Block>, entry: nat, ins: map<nat, FlowState>, known: set<Storage>,
      after: map<L.Point, set<Storage>>)
    requires Reliable(blocks, entry, ins, known, after)
    ensures Converged(blocks, entry, ins, after)
  {
    forall b | b in ins ensures Reachable(ins[b], blocks) {
      ArrivesReachable(ins[b], blocks, entry, b);
    }
    PassesDoAgree(blocks, entry, ins, known, after);
    ProgramIsOrderly(blocks, entry, ins, after);
  }

  /** Element `l` of the run's visit `j` was executed at or before element `k` of visit `i`, and the
      reporting pass reports something there or drops a move there. */
  ghost predicate Noticed(blocks: seq<Block>, ins: map<nat, FlowState>, after: map<L.Point, set<Storage>>,
      run: seq<Visit>, i: nat, k: nat, j: nat, l: nat) {
    && (j < i < |run| || (j == i < |run| && l <= k)) && run[j].block in ins && run[j].block < |blocks|
    && var cmds, live := blocks[run[j].block].cmds, LiveOf(blocks, after, run[j].block);
    && l < |cmds|
    && var st := StateBefore(cmds, ins[run[j].block], live, l);
    Step(cmds[l], st, live[l]).reports != {} || SilentMove(cmds[l], st)
  }

  ghost predicate NoticedBy(blocks: seq<Block>, ins: map<nat, FlowState>, after: map<L.Point, set<Storage>>,
      run: seq<Visit>, i: nat, k: nat) {
    exists j, l :: Noticed(blocks, ins, after, run, i, k, j, l)
  }

  ghost predicate ViolatesAt(blocks: seq<Block>, run: seq<Visit>, i: nat, k: nat) {
    && i < |run| && k < |run[i].states| && run[i].block < |blocks| && k < |blocks[run[i].block].cmds|
    && Violates(blocks[run[i].block].cmds[k], run[i].states[k])
  }

  /** Whatever the verdict, no run goes wrong unnoticed: the first violation of a run is at or after an
      element, executed by that run, at which the reporting pass says something (or drops a move). */
  lemma NoViolationUnnoticed(blocks: seq<Block>, entry: nat, ins: map<nat, FlowState>, known: set<Storage>,
      after: map<L.Point, set<Storage>>, run: seq<Visit>, i: nat, k: nat)
    requires Reliable(blocks, entry, ins, known, after) && IsRun(blocks, entry, run) && ViolatesAt(blocks, run, i, k)
    ensures NoticedBy(blocks, ins, after, run, i, k)
  {
    ReliableConverged(blocks, entry, ins, known, after);
    if SilentUntil(blocks, ins, after, run, i, k + 1) {
      FirstViolationIsReported(blocks, entry, ins, after, run, i, k);
    }
    var j: nat, l: nat :| (j < i < |run| || (j == i < |run| && l < k + 1)) &&
      !SilentAt(blocks, ins, after, run[j].block, l);
    assert Noticed(blocks, ins, after, run, i, k, j, l);
  }

  lemma PassIsSilent(blocks: seq<Block>, ins: map<nat, FlowState>, after: map<L.Point, set<Storage>>, b: nat, k: nat)
    requires Emitted(blocks, ins, after) == {} && NoSilentMove(blocks, ins, after)
    ensures SilentAt(blocks, ins, after, b, k)
  {
    if b in ins && b < |blocks| && k < |blocks[b].cmds| {
      var cmds, live := blocks[b].cmds, LiveOf(blocks, after, b);
      EmittedContains(blocks, ins, after, |blocks|, b);
      ReportsOfPrefix(cmds, ins[b], live, k, |cmds|);
      assert cmds[..|cmds|] == cmds && live[..|cmds|] == live;
    }
  }

  /** No false PASS: if nothing is reported and no move was dropped, no run violates. */
  lemma NoFalsePass(blocks: seq<Block>, entry: nat, ins: map<nat, FlowState>, known: set<Storage>,
      after: map<L.Point, set<Storage>>, run: seq<Visit>)
    requires Reliable(blocks, entry, ins, known, after) && Emitted(blocks, ins, after) == {} &&
      NoSilentMove(blocks, ins, after)
    requires IsRun(blocks, entry, run)
    ensures SafeRun(blocks, run)
  {
    ReliableConverged(blocks, entry, ins, known, after);
    forall i | 0 <= i < |run| ensures VisitOk(blocks, run[i]) && SafeVisit(blocks, run[i]) {
      RunParts(blocks, entry, run, i);
      forall k | 0 <= k < |run[i].states| && k < |blocks[run[i].block].cmds|
        ensures !Violates(blocks[run[i].block].cmds[k], run[i].states[k]) {
        forall b: nat, l: nat ensures SilentAt(blocks, ins, after, b, l) { PassIsSilent(blocks, ins, after, b, l); }
        FirstViolationIsReported(blocks, entry, ins, after, run, i, k);
      }
    }
  }

  /** As long as a run has met no report, every pending out-owner guard tells the truth. */
  lemma NoFalseGuard(blocks: seq<Block>, entry: nat, ins: map<nat, FlowState>, known: set<Storage>,
      after: map<L.Point, set<Storage>>, run: seq<Visit>, i: nat, k: nat, v: Storage)
    requires Reliable(blocks, entry, ins, known, after) && IsRun(blocks, entry, run)
    requires i < |run| && k < |run[i].states| && SilentUntil(blocks, ins, after, run, i, k)
    ensures run[i].block in ins && VisitOk(blocks, run[i])
    ensures var st := StateBefore(blocks[run[i].block].cmds, ins[run[i].block], LiveOf(blocks, after, run[i].block), k);
      v in st.pending ==> Testifies(run[i].states[k], v, st.pending[v])
  {
    ReliableConverged(blocks, entry, ins, known, after);
    GuardsTellTheTruth(blocks, entry, ins, after, run, i, k, v);
  }

  /** On the edge that such a run takes: whatever slot is then called null holds no object; and a slot
      whose binding the edge changes becomes an owner only if the compared result means success (or the
      compared slot is not null), and null only if it means failure (or the slot is null). */
  lemma NoFalseRefinement(blocks: seq<Block>, entry: nat, ins: map<nat, FlowState>, known: set<Storage>,
      after: map<L.Point, set<Storage>>, run: seq<Visit>, i: nat, edge: nat, v: Storage)
    requires Reliable(blocks, entry, ins, known, after) && IsRun(blocks, entry, run)
    requires i + 1 < |run| && SilentUntil(blocks, ins, after, run, i + 1, 0)
    requires var b := blocks[run[i].block]; TakesEdge(b, edge, run[i + 1].block, run[i + 1].states[0])
    ensures run[i].block in ins
    ensures var b := blocks[run[i].block];
      RefinedSlot(blocks, b, edge, TransferBlock(b, ins[run[i].block]), run[i + 1].states[0], v)
  {
    ReliableConverged(blocks, entry, ins, known, after);
    SilentUntilBlock(blocks, ins, after, run, i + 1, 0, i);
    var mu := RunSound(blocks, entry, ins, after, run, i, 0);
    RunParts(blocks, entry, run, i + 1);
    var mu' := BlockEnd(blocks, entry, ins, after, run[i], run[i + 1], mu);
    var b := run[i].block;
    SlotIsRefined(blocks, blocks[b], edge, run[i + 1].block, TransferBlock(blocks[b], ins[b]), run[i + 1].states[0],
      mu', v);
  }

  ghost predicate RefinedSlot(blocks: seq<Block>, b: Block, edge: nat, out: FlowState, m: Machine, v: Storage) {
    var st := EdgeState(b, edge, out);
    && (v in st.storages && KnownNull(st.storages[v]) ==> !ValueOf(m, v).Obj?)
    && (if b.cond.Some? then RefinementAgrees(blocks, out, st, CondSubject(b.cond.value), m, v)
        else st.storages == out.storages)
  }

  lemma SlotIsRefined(blocks: seq<Block>, b: Block, edge: nat, next: nat, out: FlowState, m: Machine, mu: Naming,
      v: Storage)
    requires Describes(blocks, out, m, mu) && ConditionTrue(blocks, b, m) && TakesEdge(b, edge, next, m)
    ensures RefinedSlot(blocks, b, edge, out, m, v)
  {
    EdgeDescribes(blocks, b, edge, next, out, m, mu);
    assert StorageFits(EdgeState(b, edge, out), m, mu, v);
    EdgeAgrees(blocks, b, edge, next, out, m, v);
  }

  lemma NoMovesNoSilentMove(blocks: seq<Block>, ins: map<nat, FlowState>, after: map<L.Point, set<Storage>>)
    requires NoMoves(blocks)
    ensures NoSilentMove(blocks, ins, after)
  {
  }

  /** What can be seen from the text: without moves, and without coming back to a declaration under a
      guard, PASS needs no side condition on computed states. */
  lemma NoFalsePassWithoutMoves(blocks: seq<Block>, entry: nat, ins: map<nat, FlowState>, known: set<Storage>,
      after: map<L.Point, set<Storage>>, run: seq<Visit>)
    requires InScope(blocks, entry) && NoMoves(blocks) && NoStaleDeclarations(blocks)
    requires Analysed(blocks, entry, ins, known, after) && Emitted(blocks, ins, after) == {}
    requires IsRun(blocks, entry, run)
    ensures SafeRun(blocks, run)
  {
    DeclarationsStayFresh(blocks, entry, ins, after);
    NoMovesNoSilentMove(blocks, ins, after);
    NoFalsePass(blocks, entry, ins, known, after, run);
  }

  /** Analyses a function and says whether it passes. If no declaration meets a guard that outlives it,
      no run violates unnoticed, and PASS means that no run violates at all as long as no move was
      dropped. */
  method Check(blocks: seq<Block>, entry: nat)
      returns (pass: bool, ins: map<nat, FlowState>, after: map<L.Point, set<Storage>>, ghost known: set<Storage>)
    requires InScope(blocks, entry)
    ensures Analysed(blocks, entry, ins, known, after)
    ensures pass <==> Emitted(blocks, ins, after) == {}
    ensures FreshDeclarations(blocks, ins, after) ==>
      forall run, i, k :: IsRun(blocks, entry, run) && ViolatesAt(blocks, run, i, k) ==>
        NoticedBy(blocks, ins, after, run, i, k)
    ensures pass && FreshDeclarations(blocks, ins, after) && NoSilentMove(blocks, ins, after) ==>
      forall run :: IsRun(blocks, entry, run) ==> SafeRun(blocks, run)
    ensures pass && NoStaleDeclarations(blocks) && NoMoves(blocks) ==>
      forall run :: IsRun(blocks, entry, run) ==> SafeRun(blocks, run)
  {
    var analyzer := new FlowAnalyzer(blocks, entry);
    ins, known := analyzer.Run();
    after := analyzer.liveAfter;
    pass := analyzer.reports == {};
    if FreshDeclarations(blocks, ins, after) {
      forall run, i: nat, k: nat | IsRun(blocks, entry, run) && ViolatesAt(blocks, run, i, k)
        ensures NoticedBy(blocks, ins, after, run, i, k) {
        NoViolationUnnoticed(blocks, entry, ins, known, after, run, i, k);
      }
    }
    forall run | pass && FreshDeclarations(blocks, ins, after) && NoSilentMove(blocks, ins, after) &&
      IsRun(blocks, entry, run) ensures SafeRun(blocks, run) {
      NoFalsePass(blocks, entry, ins, known, after, run);
    }
    forall run | pass && NoStaleDeclarations(blocks) && NoMoves(blocks) && IsRun(blocks, entry, run)
      ensures SafeRun(blocks, run) {
      NoFalsePassWithoutMoves(blocks, entry, ins, known, after, run);
    }
  }
}
