/** Two programs whose analysis reports nothing although a run destroys an object twice, because a
    refinement calls a slot null that holds an object. They show why the PASS theorem asks that no
    declaration meets a guard that outlives it, and that conditions ask only calls that signal by
    their results. */
module FalseGuards {
  import opened Flow
  import opened Options
  import opened OutOwners
  import opened Transfer
  import opened Program
  import opened Ownership
  import opened Execution
  import opened Guards
  import opened Agreement
  import opened Borrowed
  import opened SmallPrograms
  import opened Verdict
  import L = Liveness

  const SLOT: Storage := 0
  const RESULT: Storage := 1
  const Q: Storage := 2

  // ---------------------------------------------------------------------------------------------
  // How both end:  q = out;  free(q);  free(q);
  // ---------------------------------------------------------------------------------------------

  const COPIES := Copy(Q, SLOT, true, 2)
  const TAIL := [COPIES, Free(Q, 3), Free(Q, 4)]
  const LAST := Block(TAIL, None, false, [])
  const STOP := Block([], None, false, [])

  predicate SlotIsNull(st: FlowState) {
    SLOT in st.storages && KnownNull(st.storages[SLOT]) && st.borrows == map[]
  }

  lemma TailSteps(st: FlowState, live: LiveAfter)
    requires SlotIsNull(st)
    ensures var copied := Bind(st, Q, NULL_ID, Null, 2);
      && Step(COPIES, st, live) == Silent(copied)
      && Step(Free(Q, 3), copied, live) == Silent(copied) && Step(Free(Q, 4), copied, live) == Silent(copied)
  {
    var copied := Bind(st, Q, NULL_ID, Null, 2);
    assert ExpireBorrows(copied, live) == copied;
  }

  /** Nothing is reported of a slot that is believed null. */
  lemma TailIsSilent(st: FlowState, live: seq<LiveAfter>)
    requires SlotIsNull(st) && |live| == 3
    ensures RunBlock(TAIL, st, live).reports == {}
  {
    var copied := Bind(st, Q, NULL_ID, Null, 2);
    var states := [st, copied, copied, copied];
    forall k | 0 <= k < 3 ensures Step(TAIL[k], states[k], live[k]) == Silent(states[k + 1]) { TailSteps(st, live[k]); }
    assert Trace(TAIL, live, states);
    TraceRuns(TAIL, live, states);
  }

  /** A run that gets there with an object in the slot goes wrong. */
  lemma TailGoesWrong(blocks: seq<Block>, b: nat, m: Machine) returns (v: Visit)
    requires b < |blocks| && blocks[b] == LAST && ValueOf(m, SLOT) == Obj(7)
    ensures v.block == b && VisitOk(blocks, v) && !SafeVisit(blocks, v) && v.states[0] == m
  {
    var m1 := Assign(m, Q, Obj(7));
    var m2 := m1.(alive := m1.alive - {7});
    v := Visit(b, [m, m1, m2]);
    assert Steps(TAIL[0], m, m1) && Steps(TAIL[1], m1, m2);
    assert VisitOk(blocks, v);
    assert Violates(TAIL[2], v.states[2]) && blocks[v.block].cmds[2] == TAIL[2];
  }

  // ---------------------------------------------------------------------------------------------
  // A declaration under a guard
  //
  //     T *out = NULL;  goto call;
  //     again: ;  int r = 0;  if (r) return;
  //     q = out;  free(q);  free(q);  return;
  //     call: r = f(&out);  goto again;
  // ---------------------------------------------------------------------------------------------

  const SIGNALS := OutOwner(true, true, false)
  const CALL := Production(0, 1, SLOT, SIGNALS, Some(RESULT), {}, true, true)
  const CLEARS := SetNull(SLOT, true, 0)
  const CALLS := Produce(CALL, false, 1)
  const DECLARES := StoreScalar(RESULT, true)
  const START := Block([CLEARS], None, false, [Some(1)])
  const CALLING := Block([CALLS], None, false, [Some(2)])
  const ASKING := Block([DECLARES], Some(Truth(Variable(RESULT))), false, [Some(3), Some(4)])
  const STALE := [START, CALLING, ASKING, STOP, LAST]

  const CLEARED := Bind(EMPTY_STATE, SLOT, NULL_ID, Null, 0)
  const GUARD := PendingGuard(SLOT, true, 0)
  const PRODUCED := Binding(1, MaybeNull, At(1), true)
  const CALLED := Step(CALLS, CLEARED, Unmeasured).state

  const STALE_INS: map<nat, FlowState> := map[
    0 := EMPTY_STATE, 1 := CLEARED, 2 := CALLED, 3 := EdgeState(ASKING, 0, CALLED), 4 := EdgeState(ASKING, 1, CALLED)]

  lemma CallIsSilent(live: LiveAfter)
    ensures Step(CALLS, CLEARED, live).reports == {} && Step(CALLS, CLEARED, live).state == CALLED
    ensures CALLED.storages == map[SLOT := PRODUCED] && CALLED.pending == map[RESULT := GUARD] &&
      CALLED.borrows == map[]
  {
    assert CLEARED.storages == map[SLOT := Binding(NULL_ID, Null, At(0), false)];
    var o := ProduceStep(CLEARED, CALL, false, 1);
    assert Accepts(CLEARED, CALL) && !PassesUnrefined(CLEARED, CALL, true);
    assert ExpireBorrows(o.state, live) == o.state && ExpireBorrows(o.state, Unmeasured) == o.state;
    assert CLEARED.pending == map[];
  }

  lemma StaleBlocks(live: seq<LiveAfter>)
    requires |live| == 1
    ensures RunBlock(START.cmds, EMPTY_STATE, live).state == CLEARED &&
      RunBlock(START.cmds, EMPTY_STATE, live).reports == {}
    ensures RunBlock(CALLING.cmds, CLEARED, live).state == CALLED && RunBlock(CALLING.cmds, CLEARED, live).reports == {}
    ensures RunBlock(ASKING.cmds, CALLED, live).state == CALLED && RunBlock(ASKING.cmds, CALLED, live).reports == {}
  {
    RunOne(CLEARS, EMPTY_STATE, live);
    RunOne(CALLS, CLEARED, live);
    RunOne(DECLARES, CALLED, live);
    CallIsSilent(live[0]);
  }

  /** The false edge calls the slot null: the guard has outlived the declaration. */
  lemma FalseEdgeIsNull()
    ensures SlotIsNull(EdgeState(ASKING, 1, CALLED))
  {
    CallIsSilent(Unmeasured);
  }

  lemma StaleEdges(b: nat, i: nat)
    ensures Unfolds(STALE, STALE_INS, b, i)
  {
    StaleBlocks(NothingMeasured(1));
    if b == 0 { PlainEdge(START, i, CLEARED); }
    if b == 1 { PlainEdge(CALLING, i, CALLED); }
  }

  lemma StaleReaches(b: nat, i: nat, s: nat)
    requires b < 5 && i < |STALE[b].succs| && STALE[b].succs[i] == Some(s) && Reached(STALE, STALE_INS, b)
    ensures Reached(STALE, STALE_INS, s)
  {
    StaleEdges(b, i);
    ReachedNext(STALE, STALE_INS, b, i, s);
  }

  lemma StaleReachesAsking()
    ensures Reached(STALE, STALE_INS, 0) && Reached(STALE, STALE_INS, 1) && Reached(STALE, STALE_INS, 2)
  {
    StartIsReached(STALE, STALE_INS);
    StaleReaches(0, 0, 1);
    StaleReaches(1, 0, 2);
  }

  lemma StaleReachesEnds()
    requires Reached(STALE, STALE_INS, 2)
    ensures Reached(STALE, STALE_INS, 3) && Reached(STALE, STALE_INS, 4)
  {
    StaleReaches(2, 0, 3);
    StaleReaches(2, 1, 4);
  }

  lemma StaleReachesOne(b: nat)
    requires b in STALE_INS
    ensures Reached(STALE, STALE_INS, b)
  {
    StaleReachesAsking();
    StaleReachesEnds();
    assert b == 0 || b == 1 || b == 2 || b == 3 || b == 4;
  }

  lemma StaleArrives()
    ensures forall b :: b in STALE_INS ==> Reached(STALE, STALE_INS, b)
  {
    forall b | b in STALE_INS ensures Reached(STALE, STALE_INS, b) { StaleReachesOne(b); }
  }

  lemma StaleElements(b: nat, k: nat)
    requires b < |STALE| && k < |STALE[b].cmds|
    ensures STALE[b].cmds[k] in [CLEARS, CALLS, DECLARES] + TAIL
    ensures STALE[b].cmds[k] == CALLS ==> b == 1 && k == 0
  {
    if b == 0 {} else if b == 1 {} else if b == 2 {} else if b == 4 {}
  }

  lemma StaleProduction(p: Production)
    requires HasProduction(STALE, p)
    ensures p == CALL
  {
    var b, k :| ProducesAt(STALE, b, k, p);
    StaleElements(b, k);
  }

  lemma StaleIsForward(p: nat, q: nat)
    requires Connects(STALE, false, p, q)
    ensures p < q
  {
    if p == 0 {} else if p == 1 {} else if p == 2 {} else if p == 3 {} else {}
  }

  lemma StaleIsOrdinary()
    ensures Ordinary(STALE, 0) && NoMoves(STALE) &&
      forall b, k :: 0 <= b < |STALE| && 0 <= k < |STALE[b].cmds| ==> !STALE[b].cmds[k].Borrow?
  {
    forall b, k | 0 <= b < |STALE| && 0 <= k < |STALE[b].cmds|
      ensures SmallSite(STALE[b].cmds[k]) && !STALE[b].cmds[k].Borrow? && !STALE[b].cmds[k].Move?
      ensures STALE[b].cmds[k].Malloc? || STALE[b].cmds[k].Produce? ==> b == 1 && k == 0
    {
      StaleElements(b, k);
    }
    forall p, q | Connects(STALE, false, p, q) ensures p < q { StaleIsForward(p, q); }
    ForwardGraphHasNoCycle(STALE, 1);
    assert forall b :: 0 <= b < |STALE| ==> STALE[b] in STALE;
  }

  lemma StaleIsInScope()
    ensures InScope(STALE, 0) && NoMoves(STALE)
  {
    StaleIsOrdinary();
    forall p | HasProduction(STALE, p) ensures p == CALL { StaleProduction(p); }
    forall b | b in STALE ensures ConditionFollowsCall(b) && ConditionOnSignal(b) {
    }
  }

  lemma StaleIsSilent(after: map<L.Point, set<Storage>>)
    ensures Emitted(STALE, STALE_INS, after) == {}
  {
    forall b | b in STALE_INS && b < |STALE| ensures EmitBlock(STALE, STALE_INS, after, b).reports == {} {
      StaleBlocks(LiveAfterBlock(after, b, 1));
      if b == 4 {
        FalseEdgeIsNull();
        TailIsSilent(STALE_INS[4], LiveAfterBlock(after, 4, 3));
      }
    }
    NothingIsEmitted(STALE, STALE_INS, after, 5);
  }

  const M1 := Assign(INITIAL, SLOT, NullValue)
  const M2 := Returned(Allocated(M1, SLOT, 7), CALL, 1)
  const M3 := Assign(M2, RESULT, Number(0))

  lemma StaleSteps()
    ensures Steps(CLEARS, INITIAL, M1) && Steps(CALLS, M1, M2) && Steps(DECLARES, M2, M3) && ValueOf(M3, SLOT) == Obj(7)
    ensures TakesEdge(START, 0, 1, M1) && TakesEdge(CALLING, 0, 2, M2) && TakesEdge(ASKING, 1, 4, M3)
  {
    assert Allocates(M1, SLOT, Allocated(M1, SLOT, 7)) && Produces(CALL, 1, M1, M2);
  }

  /** The call succeeds, and the declaration resets its result. */
  lemma StaleRun() returns (run: seq<Visit>)
    ensures IsRun(STALE, 0, run) && !SafeRun(STALE, run)
  {
    StaleSteps();
    var v0 := VisitOne(STALE, 0, CLEARS, INITIAL, M1);
    var v1 := VisitOne(STALE, 1, CALLS, M1, M2);
    var v2 := VisitOne(STALE, 2, DECLARES, M2, M3);
    var v4 := TailGoesWrong(STALE, 4, M3);
    run := [v0, v1, v2, v4];
    forall i | 0 <= i < 3 ensures Continues(STALE, run[i], run[i + 1]) {
      if i == 0 {} else if i == 1 {} else {}
    }
    assert !SafeVisit(STALE, run[3]);
  }

  /** Everything that the PASS theorem asks, except that declarations are fresh; nothing is reported;
      and a run goes wrong. */
  lemma StaleDeclarationCanBeAFalsePass()
      returns (blocks: seq<Block>, ins: map<nat, FlowState>, after: map<L.Point, set<Storage>>, run: seq<Visit>)
    ensures InScope(blocks, 0) && NoMoves(blocks) && Analysed(blocks, 0, ins, {}, after) &&
      Emitted(blocks, ins, after) == {}
    ensures IsRun(blocks, 0, run) && !SafeRun(blocks, run)
  {
    blocks, ins := STALE, STALE_INS;
    StaleIsInScope();
    StaleIsOrdinary();
    StaleArrives();
    forall b: nat, i: nat ensures Unfolds(STALE, STALE_INS, b, i) { StaleEdges(b, i); }
    UnfoldingIsPostFixed(STALE, STALE_INS);
    after := BorrowFreeAnalysed(STALE, STALE_INS);
    StaleIsSilent(after);
    run := StaleRun();
  }

  // ---------------------------------------------------------------------------------------------
  // A condition on a call that does not signal
  //
  //     T *out = NULL;
  //     if (f(&out)) { q = out;  free(q);  free(q); }
  //
  // `write: always` contracts have no success key, and the analyser fills in "success is zero".
  // ---------------------------------------------------------------------------------------------

  const ALWAYS := OutOwner(false, false, true)
  const WRITE := Production(0, 1, SLOT, ALWAYS, None, {}, true, false)
  const WRITES := Produce(WRITE, false, 1)
  const ASKING_CALL := Block([CLEARS, WRITES], Some(Truth(ProducingCall(SLOT, ALWAYS))), false, [Some(1), Some(2)])
  const UNSIGNALLED := [ASKING_CALL, LAST, STOP]
  const WRITTEN := Step(WRITES, CLEARED, Unmeasured).state

  const UNSIGNALLED_INS: map<nat, FlowState> := map[
    0 := EMPTY_STATE, 1 := EdgeState(ASKING_CALL, 0, WRITTEN), 2 := EdgeState(ASKING_CALL, 1, WRITTEN)]

  lemma WriteIsSilent(live: LiveAfter)
    ensures Step(WRITES, CLEARED, live).reports == {} && Step(WRITES, CLEARED, live).state == WRITTEN
    ensures WRITTEN.storages == map[SLOT := PRODUCED] && WRITTEN.borrows == map[] && WRITTEN.pending == map[]
  {
    assert CLEARED.storages == map[SLOT := Binding(NULL_ID, Null, At(0), false)];
    var o := ProduceStep(CLEARED, WRITE, false, 1);
    assert Accepts(CLEARED, WRITE) && !PassesUnrefined(CLEARED, WRITE, true);
    assert ExpireBorrows(o.state, live) == o.state && ExpireBorrows(o.state, Unmeasured) == o.state;
    assert CLEARED.pending == map[];
  }

  lemma UnsignalledBlock(live: seq<LiveAfter>)
    requires |live| == 2
    ensures RunBlock(ASKING_CALL.cmds, EMPTY_STATE, live).state == WRITTEN &&
      RunBlock(ASKING_CALL.cmds, EMPTY_STATE, live).reports == {}
  {
    var states := [EMPTY_STATE, CLEARED, WRITTEN];
    forall k | 0 <= k < 2
      ensures Step(ASKING_CALL.cmds[k], states[k], live[k]).state == states[k + 1]
      ensures Step(ASKING_CALL.cmds[k], states[k], live[k]).reports == {}
    {
      WriteIsSilent(live[k]);
    }
    assert Trace(ASKING_CALL.cmds, live, states);
    TraceRuns(ASKING_CALL.cmds, live, states);
  }

  /** The true edge calls the slot null, whatever the call has put there. */
  lemma TrueEdgeIsNull()
    ensures SlotIsNull(EdgeState(ASKING_CALL, 0, WRITTEN))
  {
    WriteIsSilent(Unmeasured);
  }

  lemma UnsignalledEdges(b: nat, i: nat)
    ensures Unfolds(UNSIGNALLED, UNSIGNALLED_INS, b, i)
  {
    UnsignalledBlock(NothingMeasured(2));
  }

  lemma UnsignalledReaches(i: nat, s: nat)
    requires i < 2 && UNSIGNALLED[0].succs[i] == Some(s) && Reached(UNSIGNALLED, UNSIGNALLED_INS, 0)
    ensures Reached(UNSIGNALLED, UNSIGNALLED_INS, s)
  {
    UnsignalledEdges(0, i);
    ReachedNext(UNSIGNALLED, UNSIGNALLED_INS, 0, i, s);
  }

  lemma UnsignalledArrives()
    ensures forall b :: b in UNSIGNALLED_INS ==> Reached(UNSIGNALLED, UNSIGNALLED_INS, b)
  {
    StartIsReached(UNSIGNALLED, UNSIGNALLED_INS);
    UnsignalledReaches(0, 1);
    UnsignalledReaches(1, 2);
  }

  lemma UnsignalledElements(b: nat, k: nat)
    requires b < |UNSIGNALLED| && k < |UNSIGNALLED[b].cmds|
    ensures UNSIGNALLED[b].cmds[k] in [CLEARS, WRITES] + TAIL
    ensures UNSIGNALLED[b].cmds[k] == WRITES ==> b == 0 && k == 1
  {
    if b == 0 {} else if b == 1 {}
  }

  lemma UnsignalledIsOrdinary()
    ensures Ordinary(UNSIGNALLED, 0) && NoMoves(UNSIGNALLED)
    ensures forall b, k :: 0 <= b < |UNSIGNALLED| && 0 <= k < |UNSIGNALLED[b].cmds| ==> !UNSIGNALLED[b].cmds[k].Borrow?
  {
    forall b, k | 0 <= b < |UNSIGNALLED| && 0 <= k < |UNSIGNALLED[b].cmds|
      ensures SmallSite(UNSIGNALLED[b].cmds[k]) && !UNSIGNALLED[b].cmds[k].Borrow? && !UNSIGNALLED[b].cmds[k].Move?
      ensures UNSIGNALLED[b].cmds[k].Malloc? || UNSIGNALLED[b].cmds[k].Produce? ==> b == 0 && k == 1
    {
      UnsignalledElements(b, k);
    }
    forall p, q | Connects(UNSIGNALLED, false, p, q) ensures p < q {
      if p == 0 {} else if p == 1 {} else {}
    }
    ForwardGraphHasNoCycle(UNSIGNALLED, 0);
    assert forall b :: 0 <= b < |UNSIGNALLED| ==> UNSIGNALLED[b] in UNSIGNALLED;
  }

  /** All that is asked of out-owner calls but the last point. */
  lemma UnsignalledConditions()
    ensures CallsAgree(UNSIGNALLED) && (forall b :: b in UNSIGNALLED ==> ConditionFollowsCall(b)) &&
      NoStaleDeclarations(UNSIGNALLED)
  {
    forall p | HasProduction(UNSIGNALLED, p) ensures p == WRITE {
      var b, k :| ProducesAt(UNSIGNALLED, b, k, p);
      UnsignalledElements(b, k);
    }
    forall b: nat, k: nat, x: nat ensures NoStaleDeclaration(UNSIGNALLED, b, k, x) {
      UnsignalledDeclaration(b, k, x);
    }
  }

  lemma NoWayBack(plain: bool, p: nat)
    ensures !Downstream(UNSIGNALLED, plain, p, 0)
  {
    forall q: nat ensures !Connects(UNSIGNALLED, plain, q, 0) {
      if q == 0 {} else if q == 1 {} else {}
    }
  }

  lemma NothingInvolvesTheCopy(p: nat)
    requires p < |UNSIGNALLED|
    ensures !BlockInvolves(UNSIGNALLED[p], Q)
  {
    forall j | 0 <= j < |UNSIGNALLED[p].cmds| ensures !Involves(UNSIGNALLED[p].cmds[j], Q) {
      UnsignalledElements(p, j);
    }
  }

  lemma UnsignalledDeclaration(b: nat, k: nat, x: Storage)
    ensures NoStaleDeclaration(UNSIGNALLED, b, k, x)
  {
    if b < |UNSIGNALLED| && k < |UNSIGNALLED[b].cmds| && Declares(UNSIGNALLED[b].cmds[k], x) {
      UnsignalledElements(b, k);
      if x == Q {
        forall p | 0 <= p < |UNSIGNALLED| ensures !BlockInvolves(UNSIGNALLED[p], x) { NothingInvolvesTheCopy(p); }
        assert !BlockInvolves(UNSIGNALLED[b], x);
      } else {
        forall p: nat ensures !Downstream(UNSIGNALLED, true, p, b) { NoWayBack(true, p); }
      }
    }
  }

  lemma UnsignalledIsSilent(after: map<L.Point, set<Storage>>)
    ensures Emitted(UNSIGNALLED, UNSIGNALLED_INS, after) == {}
  {
    forall b | b in UNSIGNALLED_INS && b < |UNSIGNALLED|
      ensures EmitBlock(UNSIGNALLED, UNSIGNALLED_INS, after, b).reports == {} {
      if b == 0 { UnsignalledBlock(LiveAfterBlock(after, 0, 2)); }
      if b == 1 {
        TrueEdgeIsNull();
        TailIsSilent(UNSIGNALLED_INS[1], LiveAfterBlock(after, 1, 3));
      }
    }
    NothingIsEmitted(UNSIGNALLED, UNSIGNALLED_INS, after, 3);
  }

  const M4 := Returned(Allocated(M1, SLOT, 7), WRITE, 1)

  /** The call fills the slot and returns 1. */
  lemma UnsignalledRun() returns (run: seq<Visit>)
    ensures IsRun(UNSIGNALLED, 0, run) && !SafeRun(UNSIGNALLED, run)
  {
    assert Allocates(M1, SLOT, Allocated(M1, SLOT, 7)) && Produces(WRITE, 1, M1, M4);
    assert Steps(CLEARS, INITIAL, M1) && Steps(WRITES, M1, M4);
    var v0 := Visit(0, [INITIAL, M1, M4]);
    assert VisitOk(UNSIGNALLED, v0);
    var v1 := TailGoesWrong(UNSIGNALLED, 1, M4);
    assert TakesEdge(ASKING_CALL, 0, 1, M4);
    run := [v0, v1];
    assert Continues(UNSIGNALLED, run[0], run[1]);
    assert !SafeVisit(UNSIGNALLED, run[1]);
  }

  /** Everything that the PASS theorem for programs without moves asks, except that the call in a
      condition signals by its result; nothing is reported; and a run goes wrong. */
  lemma UnsignalledCallCanBeAFalsePass()
      returns (blocks: seq<Block>, ins: map<nat, FlowState>, after: map<L.Point, set<Storage>>, run: seq<Visit>)
    ensures Ordinary(blocks, 0) && CallsAgree(blocks) && (forall b :: b in blocks ==> ConditionFollowsCall(b))
    ensures NoMoves(blocks) && NoStaleDeclarations(blocks)
    ensures Analysed(blocks, 0, ins, {}, after) && Emitted(blocks, ins, after) == {}
    ensures IsRun(blocks, 0, run) && !SafeRun(blocks, run)
  {
    blocks, ins := UNSIGNALLED, UNSIGNALLED_INS;
    UnsignalledConditions();
    UnsignalledIsOrdinary();
    UnsignalledArrives();
    forall b: nat, i: nat ensures Unfolds(UNSIGNALLED, UNSIGNALLED_INS, b, i) { UnsignalledEdges(b, i); }
    UnfoldingIsPostFixed(UNSIGNALLED, UNSIGNALLED_INS);
    after := BorrowFreeAnalysed(UNSIGNALLED, UNSIGNALLED_INS);
    UnsignalledIsSilent(after);
    run := UnsignalledRun();
  }
}
