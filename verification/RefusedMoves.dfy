/** Why shared borrows alone do not make B001 complete when there are moves: a program without mutable
    borrows in which the converging pass refuses a move that the reporting pass makes, so that they
    disagree about what the next borrow can be created from.

        p = malloc(n);  x = NULL;
        for (;;) {
          foo();
          CAND_BORROW y = p;
          y = malloc(n);
          x = CAND_MOVE(y);
          CAND_BORROW v = x;
          free(x);
          *v;
          free(p);
        }

    In the second round `p` may be dead, so `y` is not borrowed again (which is reported). The
    reporting pass has forgotten the first round's borrow at the call; the converging pass still has
    it when `y` is moved. So only the reporting pass creates `v`, whose uses are never measured. */
module RefusedMoves {
  import opened Flow
  import opened Options
  import opened Transfer
  import opened Program
  import opened Guards
  import opened Soundness
  import opened Agreement
  import opened Borrowed
  import opened SmallPrograms
  import opened Verdict
  import L = Liveness

  const P: Storage := 0
  const X: Storage := 1
  const Y: Storage := 2
  const V: Storage := 3

  const BORROWS_Y := Borrow(Y, P, Shared, 2)
  const ALLOCATES := Malloc(Y, 2, false, 3)
  const MOVES := Move(X, Y, false, 4)
  const BORROWS_V := Borrow(V, X, Shared, 5)
  const START := Block([CallPoint, Malloc(P, 1, true, 0), SetNull(X, true, 1)], None, false, [Some(1)])
  const CMDS := [CallPoint, BORROWS_Y, CallPoint, ALLOCATES, MOVES, BORROWS_V, Free(X, 6), Deref(V, 7), Free(P, 8)]
  const ROUND := Block(CMDS, None, false, [Some(1)])
  const BLOCKS := [START, ROUND]

  // ---------------------------------------------------------------------------------------------
  // The states
  // ---------------------------------------------------------------------------------------------

  const P_OWNS := Binding(1, Owner, At(0), false)
  const X_NULL := Binding(NULL_ID, Null, At(1), false)
  const Y_BORROWS := Binding(1, Alias, At(2), false)
  const Y_OWNS := Binding(2, Owner, At(3), false)
  const Y_UNKNOWN := Binding(UNKNOWN_ID, UnknownRelation, At(3), false)

  const FIRST := FRESH_OBJECT.(state := Owned, allocation := At(0))
  const FIRST_DEAD := FIRST.(state := Dead, destruction := At(8), destructionKnown := true, destructionStorage := 1)
  const FIRST_MAYBE := FIRST_DEAD.(state := MaybeDead)
  const SECOND := FRESH_OBJECT.(state := Owned, allocation := At(3))

  const Y_LIVE := BorrowInfo(1, Shared, Live, At(2), NoLocation)
  const Y_INVALID := BorrowInfo(1, Shared, Invalid, At(2), At(8))

  /** Inside the loop, after the second allocation has happened once. */
  function Inside(y: Binding, first: ObjectInfo, borrows: map<Storage, BorrowInfo>): FlowState {
    FlowState(map[P := P_OWNS, X := X_NULL, Y := y], map[1 := first, 2 := SECOND], borrows, map[1 := 0, 2 := 0],
      {}, map[])
  }

  /** When the loop is first entered, and after the first borrow. */
  const ENTERED := FlowState(map[P := P_OWNS, X := X_NULL], map[1 := FIRST], map[], map[1 := 0], {}, map[])
  const BORROWED := ENTERED.(storages := ENTERED.storages[Y := Y_BORROWS], borrows := map[Y := Y_LIVE])

  /** At the end of the first round, at the start of every later one, and at their ends. */
  const ROUND_ONE := Inside(Y_OWNS, FIRST_DEAD, map[Y := Y_INVALID])
  const AGAIN := Inside(Y_UNKNOWN, FIRST_MAYBE, map[Y := Y_INVALID])
  const ROUND_TWO := Inside(Y_OWNS, FIRST_MAYBE, map[Y := Y_INVALID])

  const INS: map<nat, FlowState> := map[0 := EMPTY_STATE, 1 := AGAIN]

  lemma NothingWritten(st: FlowState, x: Storage)
    requires st.pending == map[]
    ensures Written(st, x, false) == st
  {
    assert KillForWrite(st, x, None).pending == map[];
  }

  lemma NothingExpires(st: FlowState, live: LiveAfter)
    requires live.Unmeasured? || st.borrows == map[]
    ensures ExpireBorrows(st, live) == st
  {
    assert ExpireBorrows(st, live).borrows == st.borrows;
  }

  lemma EntersLoop(live: seq<LiveAfter>)
    requires |live| == 3
    ensures RunBlock(START.cmds, EMPTY_STATE, live).state == ENTERED
  {
    var looked := EMPTY_STATE.(generations := map[1 := 0]);
    assert EMPTY_STATE.generations[1 := 0] == map[1 := 0] && !Retained(1, P, looked);
    var owned := BindOwned(looked, P, 1, 0);
    assert ExpireBorrows(EMPTY_STATE, live[0]).borrows == map[];
    assert Step(START.cmds[1], EMPTY_STATE, live[1]).state == owned;
    var states := [EMPTY_STATE, EMPTY_STATE, owned, ENTERED];
    assert owned.storages == map[P := P_OWNS] && owned.objects == map[1 := FIRST];
    assert Trace(START.cmds, live, states) by {
      forall k | 0 <= k < 3 ensures states[k + 1] == Step(START.cmds[k], states[k], live[k]).state {
        if k == 0 {} else if k == 1 {} else {}
      }
    }
    TraceRuns(START.cmds, live, states);
  }

  // ---------------------------------------------------------------------------------------------
  // The elements of the loop
  // ---------------------------------------------------------------------------------------------

  lemma FirstBorrow()
    ensures Step(BORROWS_Y, ENTERED, Unmeasured).state == BORROWED
  {
    var bound := Bind(ENTERED, Y, 1, Alias, 2);
    assert bound.borrows == map[];
  }

  /** Once the first object may be dead, `y` is bound but not borrowed. */
  lemma LaterBorrow(y: Binding, borrows: map<Storage, BorrowInfo>, live: LiveAfter)
    ensures Step(BORROWS_Y, Inside(y, FIRST_MAYBE, borrows), live) ==
      Reporting(Inside(Y_BORROWS, FIRST_MAYBE, borrows), BorrowUnknownParent)
  {
    var st := Inside(y, FIRST_MAYBE, borrows);
    assert Bind(st, Y, 1, Alias, 2).storages == Inside(Y_BORROWS, FIRST_MAYBE, borrows).storages;
  }

  lemma SecondObjectUnretained(st: FlowState)
    requires st.storages.Keys == {P, X, Y} && st.storages[P] == P_OWNS && st.storages[X] == X_NULL
    requires forall v :: v in st.borrows ==> st.borrows[v].parent == 1
    ensures !Retained(2, Y, st)
  {
  }

  lemma FirstAllocation(live: LiveAfter)
    ensures Step(ALLOCATES, BORROWED, live).state == Inside(Y_OWNS, FIRST, map[Y := Y_LIVE])
  {
    NothingWritten(BORROWED, Y);
    var looked := BORROWED.(generations := BORROWED.generations[2 := 0]);
    SecondObjectUnretained(looked);
    var st := BindOwned(looked, Y, 2, 3);
    assert st.storages == map[P := P_OWNS, X := X_NULL, Y := Y_OWNS] && st.objects == map[1 := FIRST, 2 := SECOND];
    assert st.generations == map[1 := 0, 2 := 0];
    assert st == Inside(Y_OWNS, FIRST, map[Y := Y_LIVE]);
  }

  lemma LaterAllocation(borrows: map<Storage, BorrowInfo>, live: LiveAfter)
    requires forall v :: v in borrows ==> borrows[v].parent == 1
    ensures Step(ALLOCATES, Inside(Y_BORROWS, FIRST_MAYBE, borrows), live).state == Inside(Y_OWNS, FIRST_MAYBE, borrows)
  {
    var st := Inside(Y_BORROWS, FIRST_MAYBE, borrows);
    NothingWritten(st, Y);
    var looked := st.(generations := st.generations[2 := 0]);
    assert looked.generations == st.generations;
    SecondObjectUnretained(looked);
    var st' := BindOwned(looked, Y, 2, 3);
    assert st'.storages == map[P := P_OWNS, X := X_NULL, Y := Y_OWNS] &&
      st'.objects == map[1 := FIRST_MAYBE, 2 := SECOND];
  }

  /** The converging pass refuses the move, and what would follow from it does not happen. */
  lemma MoveRefused(first: ObjectInfo, borrow: BorrowInfo)
    ensures var st := Inside(Y_OWNS, first, map[Y := borrow]); Step(MOVES, st, Unmeasured).state == st
  {
    NothingWritten(Inside(Y_OWNS, first, map[Y := borrow]), X);
  }

  lemma BorrowRefused(first: ObjectInfo, borrow: BorrowInfo)
    ensures var st := Inside(Y_OWNS, first, map[Y := borrow]);
      Step(BORROWS_V, st, Unmeasured) == Reporting(st, BorrowUnknownParent)
  {
  }

  lemma CallsChangeNothing(first: ObjectInfo, borrow: BorrowInfo)
    ensures var st := Inside(Y_OWNS, first, map[Y := borrow]);
      Step(Free(X, 6), st, Unmeasured).state == st && Step(Deref(V, 7), st, Unmeasured).state == st
  {
    NothingExpires(Inside(Y_OWNS, first, map[Y := borrow]), Unmeasured);
  }

  lemma FirstDestruction()
    ensures Step(Free(P, 8), Inside(Y_OWNS, FIRST, map[Y := Y_LIVE]), Unmeasured).state == ROUND_ONE
  {
    var st := Inside(Y_OWNS, FIRST, map[Y := Y_LIVE]);
    var dead := Destroyed(st, P, 1, Dead, 8);
    assert dead.objects == map[1 := FIRST_DEAD, 2 := SECOND];
    assert InvalidatedBorrows(map[Y := Y_LIVE], 1, 8) == map[Y := Y_INVALID];
    NothingExpires(ROUND_ONE, Unmeasured);
  }

  lemma LaterDestruction()
    ensures Step(Free(P, 8), ROUND_TWO, Unmeasured).state == ROUND_TWO
  {
    NothingExpires(ROUND_TWO, Unmeasured);
  }

  // ---------------------------------------------------------------------------------------------
  // The converging pass
  // ---------------------------------------------------------------------------------------------

  function RoundOne(): seq<FlowState> {
    var moved := Inside(Y_OWNS, FIRST, map[Y := Y_LIVE]);
    [ENTERED, ENTERED, BORROWED, BORROWED, moved, moved, moved, moved, moved, ROUND_ONE]
  }

  function RoundTwo(): seq<FlowState> {
    var bound := Inside(Y_BORROWS, FIRST_MAYBE, map[Y := Y_INVALID]);
    [AGAIN, AGAIN, bound, bound, ROUND_TWO, ROUND_TWO, ROUND_TWO, ROUND_TWO, ROUND_TWO, ROUND_TWO]
  }

  lemma RoundOneStep(k: nat)
    requires k < 9
    ensures RoundOne()[k + 1] == Step(ROUND.cmds[k], RoundOne()[k], Unmeasured).state
  {
    if k == 0 { NothingExpires(ENTERED, Unmeasured); }
    else if k == 1 { FirstBorrow(); }
    else if k == 2 { NothingExpires(BORROWED, Unmeasured); }
    else if k == 3 { FirstAllocation(Unmeasured); }
    else if k == 4 { MoveRefused(FIRST, Y_LIVE); }
    else if k == 5 { BorrowRefused(FIRST, Y_LIVE); }
    else if k == 8 { FirstDestruction(); }
    else { CallsChangeNothing(FIRST, Y_LIVE); }
  }

  lemma RoundTwoStep(k: nat)
    requires k < 9
    ensures RoundTwo()[k + 1] == Step(ROUND.cmds[k], RoundTwo()[k], Unmeasured).state
  {
    if k == 0 { NothingExpires(AGAIN, Unmeasured); }
    else if k == 1 { LaterBorrow(Y_UNKNOWN, map[Y := Y_INVALID], Unmeasured); }
    else if k == 2 { NothingExpires(RoundTwo()[2], Unmeasured); }
    else if k == 3 { LaterAllocation(map[Y := Y_INVALID], Unmeasured); }
    else if k == 4 { MoveRefused(FIRST_MAYBE, Y_INVALID); }
    else if k == 5 { BorrowRefused(FIRST_MAYBE, Y_INVALID); }
    else if k == 8 { LaterDestruction(); }
    else { CallsChangeNothing(FIRST_MAYBE, Y_INVALID); }
  }

  lemma Rounds()
    ensures TransferBlock(START, EMPTY_STATE) == ENTERED
    ensures TransferBlock(ROUND, ENTERED) == ROUND_ONE && TransferBlock(ROUND, AGAIN) == ROUND_TWO
  {
    EntersLoop(NothingMeasured(3));
    var none := NothingMeasured(9);
    forall k | 0 <= k < 9 ensures RoundOne()[k + 1] == Step(ROUND.cmds[k], RoundOne()[k], none[k]).state {
      RoundOneStep(k);
    }
    assert Trace(ROUND.cmds, none, RoundOne());
    TraceRuns(ROUND.cmds, none, RoundOne());
    forall k | 0 <= k < 9 ensures RoundTwo()[k + 1] == Step(ROUND.cmds[k], RoundTwo()[k], none[k]).state {
      RoundTwoStep(k);
    }
    assert Trace(ROUND.cmds, none, RoundTwo());
    TraceRuns(ROUND.cmds, none, RoundTwo());
  }

  lemma CreatesNothing(k: nat)
    requires k < 9
    ensures Step(ROUND.cmds[k], RoundTwo()[k], Unmeasured).created == {}
  {
    if k == 1 {
      LaterBorrow(Y_UNKNOWN, map[Y := Y_INVALID], Unmeasured);
    } else if k == 5 {
      BorrowRefused(FIRST_MAYBE, Y_INVALID);
    } else {
      OnlyBorrowsCreate(ROUND.cmds[k], RoundTwo()[k], Unmeasured);
    }
  }

  lemma RoundCreatesNothing()
    ensures CreatedIn(ROUND, AGAIN) <= {} && CreatedIn(START, EMPTY_STATE) <= {}
  {
    var none := NothingMeasured(9);
    forall k | 0 <= k < 9 ensures RoundTwo()[k + 1] == Step(ROUND.cmds[k], RoundTwo()[k], none[k]).state {
      RoundTwoStep(k);
    }
    assert Trace(ROUND.cmds, none, RoundTwo());
    forall k | 0 <= k < 9 ensures Step(ROUND.cmds[k], RoundTwo()[k], none[k]).created <= {} { CreatesNothing(k); }
    TraceCreates(ROUND.cmds, none, RoundTwo(), 9, {});
    CreatedBeforeEnd(ROUND, AGAIN);
    BorrowFreeCreates(START.cmds, EMPTY_STATE, NothingMeasured(3));
  }

  // ---------------------------------------------------------------------------------------------
  // The fixed point
  // ---------------------------------------------------------------------------------------------

  lemma StoragesOfRounds()
    ensures JoinStorages(ENTERED, ROUND_ONE) == AGAIN.storages
  {
    var j := JoinStorages(ENTERED, ROUND_ONE);
    assert BindingAt(ENTERED, Y) == NO_BINDING && JoinBinding(NO_BINDING, Y_OWNS) == Y_UNKNOWN;
    forall v ensures v in j <==> v in AGAIN.storages { }
    forall v | v in j ensures j[v] == AGAIN.storages[v] { }
  }

  lemma ObjectsOfRounds()
    ensures JoinObjects(ENTERED.objects, ROUND_ONE.objects) == AGAIN.objects
  {
    assert JoinObject(FIRST, FIRST_DEAD) == FIRST_MAYBE;
  }

  lemma JoinOfRounds()
    ensures JoinFlow(ENTERED, ROUND_ONE) == AGAIN
  {
    StoragesOfRounds();
    ObjectsOfRounds();
    assert JoinBorrows(ENTERED.borrows, ROUND_ONE.borrows) == AGAIN.borrows;
    assert JoinGenerations(ENTERED.generations, ROUND_ONE.generations) == AGAIN.generations;
    assert JoinPending(ENTERED.pending, ROUND_ONE.pending) == AGAIN.pending;
  }

  lemma JoinAbsorbsLeft(a: FlowState, b: FlowState)
    requires Wf(a) && Wf(b)
    ensures Absorbs(JoinFlow(a, b), a)
  {
    JoinIdempotent(a);
    LeftAbsorption(a, b, a);
  }

  lemma RoundsAreWf()
    ensures Wf(ENTERED) && Wf(ROUND_ONE)
  {
  }

  lemma AgainAbsorbsEntry()
    ensures Absorbs(AGAIN, ENTERED)
  {
    RoundsAreWf();
    JoinOfRounds();
    JoinAbsorbsLeft(ENTERED, ROUND_ONE);
  }

  /** In the second round only `y` comes out differently, and it is unresolved already. */
  lemma UnresolvedAbsorbs(st: FlowState, y: Storage, b: Binding)
    requires y in st.storages && st.storages[y].id == UNKNOWN_ID && st.storages[y].relation == UnknownRelation
    requires b.id != UNKNOWN_ID && b.where == st.storages[y].where && b.producedMaybe == st.storages[y].producedMaybe
    ensures Absorbs(st, st.(storages := st.storages[y := b]))
  {
    var e := st.(storages := st.storages[y := b]);
    JoinIdempotent(st);
    assert JoinBinding(st.storages[y], b) == st.storages[y];
    forall v | v in st.storages ensures JoinStorages(st, e)[v] == st.storages[v] {
      if v != y { assert JoinStorages(st, st)[v] == st.storages[v]; }
    }
    assert JoinStorages(st, e) == st.storages;
  }

  lemma AgainAbsorbsRound()
    ensures Absorbs(AGAIN, ROUND_TWO)
  {
    assert AGAIN.storages[Y := Y_OWNS] == ROUND_TWO.storages;
    UnresolvedAbsorbs(AGAIN, Y, Y_OWNS);
  }

  lemma EntryEdge()
    ensures EdgesAbsorbed(BLOCKS, INS, 0, ENTERED)
  {
    AgainAbsorbsEntry();
    forall i: nat ensures EdgeAbsorbed(BLOCKS, INS, 0, i, ENTERED) { PlainEdge(START, i, ENTERED); }
  }

  lemma BackEdge()
    ensures EdgesAbsorbed(BLOCKS, INS, 1, ROUND_TWO)
  {
    AgainAbsorbsRound();
    forall i: nat ensures EdgeAbsorbed(BLOCKS, INS, 1, i, ROUND_TWO) { PlainEdge(ROUND, i, ROUND_TWO); }
  }

  lemma LoopEdges(b: nat)
    requires b < 2
    ensures EdgesAbsorbed(BLOCKS, INS, b, TransferBlock(BLOCKS[b], INS[b]))
  {
    Rounds();
    EntryEdge();
    BackEdge();
  }

  lemma LoopIsPostFixed()
    ensures PostFixed(BLOCKS, 0, INS)
  {
    JoinIdempotent(EMPTY_STATE);
    assert BLOCKS[0].succs[0] == Some(1) && HasPredecessor(BLOCKS, 1);
    forall b | b in INS ensures b < |BLOCKS| && (b == 0 || HasPredecessor(BLOCKS, b)) &&
      EdgesAbsorbed(BLOCKS, INS, b, TransferBlock(BLOCKS[b], INS[b])) {
      LoopEdges(b);
    }
  }

  lemma ArrivesPlain(st: FlowState, b: nat)
    requires b < 2 && ArrivesAt(st, BLOCKS, 0, b)
    ensures ArrivesAt(TransferBlock(BLOCKS[b], st), BLOCKS, 0, 1)
  {
    PlainEdge(BLOCKS[b], 0, TransferBlock(BLOCKS[b], st));
    assert BLOCKS[b].succs[0] == Some(1);
    ArrivesAlong(st, BLOCKS, 0, b, 0);
  }

  lemma LoopArrives()
    ensures ArrivesAt(EMPTY_STATE, BLOCKS, 0, 0) && ArrivesAt(AGAIN, BLOCKS, 0, 1)
  {
    Rounds();
    JoinOfRounds();
    ArrivesAtEntry(BLOCKS, 0);
    ArrivesPlain(EMPTY_STATE, 0);
    ArrivesPlain(ENTERED, 1);
    ArrivesMerged(ENTERED, ROUND_ONE, BLOCKS, 0, 1);
  }

  lemma LoopAnalysed() returns (after: map<L.Point, set<Storage>>)
    ensures Analysed(BLOCKS, 0, INS, {Y}, after)
  {
    LoopIsPostFixed();
    LoopArrives();
    RoundCreatesNothing();
    after := ExactTable(BLOCKS, {Y});
    forall b | b in INS ensures ArrivesAt(INS[b], BLOCKS, 0, b) && INS[b].borrows.Keys <= {Y} &&
      CreatedIn(BLOCKS[b], INS[b]) <= {Y} {
      if b == 0 {} else {}
    }
  }

  // ---------------------------------------------------------------------------------------------
  // The reporting pass
  // ---------------------------------------------------------------------------------------------

  /** Before the borrow of `y` is declared again, nothing uses the earlier one. */
  lemma YIsForgotten(after: map<L.Point, set<Storage>>)
    requires L.Exact(EventGraph(BLOCKS, {Y}), after)
    ensures !LiveIn(LiveOf(BLOCKS, after, 1)[0], Y)
  {
    var g := EventGraph(BLOCKS, {Y});
    LiveMeansUsedLater(BLOCKS, {Y}, after, 1, 0, Y);
    assert g[1].events[1] == L.Event(Mentions(BORROWS_Y) * {Y}, Overwritten(BORROWS_Y) * {Y});
    if L.UsedLater(g, (1, 1), Y) {
      var q := L.FirstStep(g, (1, 1), Y);
    }
  }

  const MOVED := Inside(Y_OWNS, FIRST_MAYBE, map[]).(
    storages := map[P := P_OWNS, X := Binding(2, Owner, At(4), false), Y := Binding(2, Moved, At(4), false)])

  const V_BORROWED := MOVED.(storages := MOVED.storages[V := Binding(2, Alias, At(5), false)],
    borrows := map[V := BorrowInfo(2, Shared, Live, At(5), NoLocation)])

  lemma MoveHappens(live: LiveAfter)
    ensures Step(MOVES, Inside(Y_OWNS, FIRST_MAYBE, map[]), live).state == MOVED
    ensures Step(BORROWS_V, MOVED, live).state == V_BORROWED
  {
    var st := Inside(Y_OWNS, FIRST_MAYBE, map[]);
    NothingWritten(st, X);
    assert st.storages[Y := Binding(2, Moved, At(4), false)][X := Binding(2, Owner, At(4), false)] == MOVED.storages;
    assert Bind(MOVED, V, 2, Alias, 5).borrows == map[];
  }

  lemma Forgets(live: LiveAfter)
    requires !LiveIn(live, Y)
    ensures Step(CallPoint, AGAIN, live).state == Inside(Y_UNKNOWN, FIRST_MAYBE, map[])
  {
    assert ExpireBorrows(AGAIN, live).borrows == map[];
  }

  function ReportingStates(): seq<FlowState> {
    var bound := Inside(Y_BORROWS, FIRST_MAYBE, map[]);
    [AGAIN, Inside(Y_UNKNOWN, FIRST_MAYBE, map[]), bound, bound, Inside(Y_OWNS, FIRST_MAYBE, map[]), MOVED, V_BORROWED]
  }

  const SIX := [CallPoint, BORROWS_Y, CallPoint, ALLOCATES, MOVES, BORROWS_V]

  lemma ReportingStep(k: nat, live: LiveAfter)
    requires k < 6 && (k == 0 ==> !LiveIn(live, Y))
    ensures ReportingStates()[k + 1] == Step(SIX[k], ReportingStates()[k], live).state
  {
    if k == 0 { Forgets(live); }
    else if k == 1 { LaterBorrow(Y_UNKNOWN, map[], live); }
    else if k == 2 { NothingExpires(ReportingStates()[2], live); }
    else if k == 3 { LaterAllocation(map[], live); }
    else { MoveHappens(live); }
  }

  /** Until the destruction of `x`. */
  lemma ReportingRound(live: seq<LiveAfter>)
    requires |live| == 9 && !LiveIn(live[0], Y)
    ensures StateBefore(ROUND.cmds, AGAIN, live, 6) == V_BORROWED
  {
    var few := live[..6];
    forall k | 0 <= k < 6 ensures ReportingStates()[k + 1] == Step(SIX[k], ReportingStates()[k], few[k]).state {
      ReportingStep(k, few[k]);
    }
    assert Trace(SIX, few, ReportingStates());
    TraceRuns(SIX, few, ReportingStates());
    assert ROUND.cmds[..6] == SIX;
  }

  lemma VIsUsed()
    ensures L.UsedLater(FullGraph(BLOCKS), (1, 7), V)
  {
    var g := FullGraph(BLOCKS);
    assert g[1].events[7] == L.Event(Mentions(ROUND.cmds[7]), Overwritten(ROUND.cmds[7]));
    L.UsedHere(g, (1, 7), V);
  }

  lemma LoopElements(b: nat, k: nat)
    requires b < |BLOCKS| && k < |BLOCKS[b].cmds|
    ensures var c := BLOCKS[b].cmds[k];
      && !c.Produce? && (c.Borrow? ==> c.kind == Shared) && (c.Malloc? ==> c.site == b + 1 && 1 <= c.site <= 2)
      && (c.Malloc? ==> k == if b == 0 then 1 else 3) && (c.Borrow? ==> c.x in {Y, V})
      && (Declares(c, Y) || Declares(c, V) ==> c.Borrow?)
  {
    if b == 0 {
      if k == 0 {} else if k == 1 {} else {}
    } else {
      if k == 0 {} else if k == 1 {} else if k == 2 {} else if k == 3 {} else if k == 4 {} else if k == 5 {}
      else if k == 6 {} else if k == 7 {} else {}
    }
  }

  lemma LoopIsInScope()
    ensures InScope(BLOCKS, 0) && NoMutableBorrows(BLOCKS)
  {
    forall b, k | 0 <= b < |BLOCKS| && 0 <= k < |BLOCKS[b].cmds|
      ensures var c := BLOCKS[b].cmds[k];
        && !c.Produce? && (c.Borrow? ==> c.kind == Shared) && (c.Malloc? ==> c.site == b + 1 && 1 <= c.site <= 2)
        && (c.Malloc? ==> k == if b == 0 then 1 else 3) && (c.Borrow? ==> c.x in {Y, V})
        && (Declares(c, Y) || Declares(c, V) ==> c.Borrow?)
    {
      LoopElements(b, k);
    }
    forall p ensures !HasProduction(BLOCKS, p) { }
  }

  lemma VIsLive()
    ensures Destructible(V_BORROWED, X) && LiveBorrowOf(V_BORROWED, V, V_BORROWED.storages[X].id)
  {
  }

  lemma DestructionMissesV(after: map<L.Point, set<Storage>>)
    requires Analysed(BLOCKS, 0, INS, {Y}, after)
    ensures DestroysUsedBorrow(BLOCKS, INS, after, 1, 6, V) && !ReportedThere(BLOCKS, INS, after, 1, 6, V)
  {
    YIsForgotten(after);
    ReportingRound(LiveOf(BLOCKS, after, 1));
    VIsLive();
    VIsUsed();
    DestructionReportsUsedBorrows(BLOCKS, 0, INS, {Y}, after, 1, 6, V);
  }

  /** The destruction of `x`, the seventh element of the loop, destroys an object of which `v` is a live
      borrow that is used after it, and does not report it. */
  lemma UsedSharedBorrowCanBeMissed()
      returns (blocks: seq<Block>, ins: map<nat, FlowState>, known: set<Storage>, after: map<L.Point, set<Storage>>)
    ensures InScope(blocks, 0) && NoMutableBorrows(blocks) && Analysed(blocks, 0, ins, known, after)
    ensures 1 in ins && |blocks| == 2 && |blocks[1].cmds| == 9 && blocks[1].cmds[6].Free?
    ensures DestroysUsedBorrow(blocks, ins, after, 1, 6, V) && !ReportedThere(blocks, ins, after, 1, 6, V)
  {
    blocks, ins, known := BLOCKS, INS, {Y};
    LoopIsInScope();
    after := LoopAnalysed();
    DestructionMissesV(after);
  }
}
