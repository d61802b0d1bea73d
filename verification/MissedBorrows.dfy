/** Why a destruction reports only borrows that the converging pass has created: a program whose
    reporting pass creates a borrow that goes unreported when its object is destroyed, although it is
    used afterwards.

        p = malloc(n);
        CAND_BORROW_MUT a = p;  foo();
        CAND_BORROW b = p;
        free(p);
        *b;

    Nothing uses `a`, so the reporting pass forgets it at the call; the converging pass, which forgets
    nothing, refuses `b` because of it. So the uses of `b` are never measured. */
module MissedBorrows {
  import opened Flow
  import opened Options
  import opened Transfer
  import opened Program
  import opened Guards
  import opened Soundness
  import opened Agreement
  import opened Borrowed
  import opened SmallPrograms
  import opened Verdict
  import L = Liveness

  const P: Storage := 0
  const A: Storage := 1
  const B: Storage := 2

  const ALLOCATES := Malloc(P, 1, true, 0)
  const BORROWS_A := Borrow(A, P, Mutable, 1)
  const BORROWS_B := Borrow(B, P, Shared, 2)
  const CMDS := [CallPoint, ALLOCATES, BORROWS_A, CallPoint, BORROWS_B, Free(P, 3), Deref(B, 4)]
  const BLOCKS := [Block(CMDS, None, false, [])]
  const INS: map<nat, FlowState> := map[0 := EMPTY_STATE]
  const NONE := Measured({})

  function After(c: Cmd, st: FlowState, live: LiveAfter): FlowState { Step(c, st, live).state }

  function AfterBoth(live: LiveAfter): FlowState { After(BORROWS_A, After(ALLOCATES, EMPTY_STATE, live), live) }

  function AfterThree(live: LiveAfter): FlowState { After(CallPoint, AfterBoth(live), live) }

  function AfterFour(live: LiveAfter): FlowState { After(BORROWS_B, AfterThree(live), live) }

  function States(live: LiveAfter): seq<FlowState> {
    var last := After(Free(P, 3), AfterFour(live), live);
    [EMPTY_STATE, EMPTY_STATE, After(ALLOCATES, EMPTY_STATE, live), AfterBoth(live), AfterThree(live),
     AfterFour(live), last, After(Deref(B, 4), last, live)]
  }

  function Everywhere(live: LiveAfter): seq<LiveAfter> { [live, live, live, live, live, live, live] }

  lemma FirstCall(live: LiveAfter)
    ensures Step(CallPoint, EMPTY_STATE, live) == Silent(EMPTY_STATE)
  {
    assert ExpireBorrows(EMPTY_STATE, live).borrows == map[];
  }

  lemma Traced(live: LiveAfter)
    ensures Trace(CMDS, Everywhere(live), States(live))
  {
    var s := States(live);
    FirstCall(live);
    forall k | 0 <= k < 7 ensures s[k + 1] == Step(CMDS[k], s[k], Everywhere(live)[k]).state {
      if k == 0 {} else if k == 1 {} else if k == 2 {} else if k == 3 {} else if k == 4 {} else if k == 5 {} else {}
    }
  }

  /** `p` owns its object. */
  predicate OwnsObject(st: FlowState) {
    && P in st.storages && st.storages[P] == Binding(1, Owner, At(0), false)
    && 1 in st.objects && st.objects[1].state == Owned && st.objects[1].origin == Allocation
  }

  lemma Allocated(live: LiveAfter)
    ensures var o := Step(ALLOCATES, EMPTY_STATE, live);
      o.reports == {} && OwnsObject(o.state) && o.state.borrows == map[]
  {
    var looked := EMPTY_STATE.(generations := map[1 := 0]);
    assert EMPTY_STATE.generations[1 := 0] == map[1 := 0];
    assert !Retained(1, P, looked);
  }

  const BORROW_A := BorrowInfo(1, Mutable, Live, At(1), NoLocation)
  const BORROW_B := BorrowInfo(1, Shared, Live, At(2), NoLocation)

  lemma BorrowsFirst(st: FlowState, live: LiveAfter)
    requires OwnsObject(st) && st.borrows == map[]
    ensures var o := Step(BORROWS_A, st, live);
      o.reports == {} && OwnsObject(o.state) && o.state.borrows == map[A := BORROW_A]
    ensures var o := Step(BORROWS_B, st, live);
      o.reports == {} && OwnsObject(o.state) && o.state.borrows == map[B := BORROW_B]
  {
    assert Bind(st, A, 1, Alias, 1).borrows == map[] && Bind(st, B, 1, Alias, 2).borrows == map[];
  }

  /** With `a` still there, `b` is refused. */
  lemma BorrowRefused(st: FlowState)
    requires OwnsObject(st) && st.borrows == map[A := BORROW_A]
    ensures Step(BORROWS_B, st, Unmeasured).created == {}
  {
    assert Conflicts(Bind(st, B, 1, Alias, 2), B, 1, Shared, A);
  }

  lemma CallForgets(st: FlowState, live: LiveAfter)
    requires OwnsObject(st) && st.borrows == map[A := BORROW_A]
    ensures OwnsObject(After(CallPoint, st, live)) && Step(CallPoint, st, live).reports == {}
    ensures After(CallPoint, st, live).borrows == if LiveIn(live, A) then map[A := BORROW_A] else map[]
  {
  }

  lemma ThreeElements(live: LiveAfter)
    ensures Step(ALLOCATES, EMPTY_STATE, live).reports == {}
    ensures Step(BORROWS_A, After(ALLOCATES, EMPTY_STATE, live), live).reports == {}
    ensures Step(CallPoint, AfterBoth(live), live).reports == {}
    ensures OwnsObject(AfterThree(live)) && AfterThree(live).borrows == if LiveIn(live, A) then map[A := BORROW_A]
      else map[]
  {
    Allocated(live);
    BorrowsFirst(After(ALLOCATES, EMPTY_STATE, live), live);
    CallForgets(AfterBoth(live), live);
  }

  lemma CreatesAtMostA(j: nat)
    requires j < 7
    ensures Step(CMDS[j], States(Unmeasured)[j], Unmeasured).created <= {A}
  {
    if j == 2 {
    } else if j == 4 {
      ThreeElements(Unmeasured);
      BorrowRefused(AfterThree(Unmeasured));
    } else {
      OnlyBorrowsCreate(CMDS[j], States(Unmeasured)[j], Unmeasured);
    }
  }

  /** The converging pass creates `a` only. */
  lemma CreatesOnlyA()
    ensures CreatedIn(BLOCKS[0], EMPTY_STATE) <= {A}
  {
    Traced(Unmeasured);
    var none := NothingMeasured(7);
    assert none == Everywhere(Unmeasured);
    forall j | 0 <= j < 7 ensures Step(CMDS[j], States(Unmeasured)[j], none[j]).created <= {A} { CreatesAtMostA(j); }
    TraceCreates(CMDS, none, States(Unmeasured), 7, {A});
    assert CMDS[..7] == CMDS && none[..7] == none;
  }

  lemma GraphIsInScope()
    ensures InScope(BLOCKS, 0) && NoMoves(BLOCKS)
  {
    assert BLOCKS[0].cmds == CMDS;
    forall k | 0 <= k < 7 ensures !CMDS[k].Produce? { }
    forall p ensures !HasProduction(BLOCKS, p) { }
  }

  /** No event mentions `a`. */
  lemma NobodyUsesA(k: nat)
    requires k < |EventsOf(BLOCKS[0], {A})|
    ensures EventsOf(BLOCKS[0], {A})[k].uses == {}
  {
    assert |AllEventsOf(BLOCKS[0])| == 7;
    EventsOfKnown(BLOCKS[0], {A}, k, A);
    assert A !in Mentions(CMDS[k]);
  }

  lemma OneBlockAnalysed() returns (after: map<L.Point, set<Storage>>)
    ensures Analysed(BLOCKS, 0, INS, {A}, after) && LiveOf(BLOCKS, after, 0) == Everywhere(NONE)
  {
    forall b, k | 0 <= b < |BLOCKS| && 0 <= k < |EventsOf(BLOCKS[b], {A})|
      ensures EventsOf(BLOCKS[b], {A})[k].uses == {} {
      NobodyUsesA(k);
    }
    after := NothingIsLive(BLOCKS, {A});
    CreatesOnlyA();
    StartIsReached(BLOCKS, INS);
    UnfoldingIsPostFixed(BLOCKS, INS);
    forall k: nat | k < 7 ensures LiveOf(BLOCKS, after, 0)[k] == NONE {
      assert k < |EventGraph(BLOCKS, {A})[0].events|;
      assert (0, k) in after;
    }
  }

  lemma QuietElement(l: nat)
    requires l < 5
    ensures Step(CMDS[l], States(NONE)[l], NONE).reports == {}
  {
    FirstCall(NONE);
    ThreeElements(NONE);
    BorrowsFirst(AfterThree(NONE), NONE);
    if l == 0 {} else if l == 1 {} else if l == 2 {} else if l == 3 {} else {}
  }

  lemma SilentUntilDestruction(after: map<L.Point, set<Storage>>, l: nat)
    requires LiveOf(BLOCKS, after, 0) == Everywhere(NONE) && l < 5
    ensures SilentAt(BLOCKS, INS, after, 0, l)
  {
    Traced(NONE);
    TraceStates(CMDS, Everywhere(NONE), States(NONE), l);
    QuietElement(l);
    assert !CMDS[l].Move?;
  }

  /** In the reporting pass, `b` is a live borrow of what is destroyed. */
  lemma BIsLive()
    ensures OwnsObject(AfterFour(NONE)) && LiveBorrowOf(AfterFour(NONE), B, 1)
  {
    ThreeElements(NONE);
    BorrowsFirst(AfterThree(NONE), NONE);
  }

  lemma BIsUsed()
    ensures L.UsedLater(FullGraph(BLOCKS), (0, 6), B)
  {
    var g := FullGraph(BLOCKS);
    assert g[0].events[6] == L.Event(Mentions(CMDS[6]), Overwritten(CMDS[6]));
    L.UsedHere(g, (0, 6), B);
  }

  lemma DestructionMissesB(after: map<L.Point, set<Storage>>)
    requires Analysed(BLOCKS, 0, INS, {A}, after) && LiveOf(BLOCKS, after, 0) == Everywhere(NONE)
    ensures DestroysUsedBorrow(BLOCKS, INS, after, 0, 5, B) && !ReportedThere(BLOCKS, INS, after, 0, 5, B)
  {
    Traced(NONE);
    TraceStates(CMDS, Everywhere(NONE), States(NONE), 5);
    BIsLive();
    BIsUsed();
    DestructionReportsUsedBorrows(BLOCKS, 0, INS, {A}, after, 0, 5, B);
  }

  /** The destruction, the sixth element, is not preceded by any report; `b` is a live borrow of what
      it destroys and is used after it; and it is not reported. */
  lemma UsedBorrowCanBeMissed()
      returns (blocks: seq<Block>, ins: map<nat, FlowState>, known: set<Storage>, after: map<L.Point, set<Storage>>)
    ensures InScope(blocks, 0) && NoMoves(blocks) && Analysed(blocks, 0, ins, known, after)
    ensures 0 in ins && |blocks| == 1 && |blocks[0].cmds| == 7 && blocks[0].cmds[5].Free?
    ensures forall l: nat :: l < 5 ==> SilentAt(blocks, ins, after, 0, l)
    ensures DestroysUsedBorrow(blocks, ins, after, 0, 5, B) && !ReportedThere(blocks, ins, after, 0, 5, B)
  {
    blocks, ins, known := BLOCKS, INS, {A};
    GraphIsInScope();
    after := OneBlockAnalysed();
    forall l: nat | l < 5 ensures SilentAt(BLOCKS, INS, after, 0, l) { SilentUntilDestruction(after, l); }
    DestructionMissesB(after);
  }
}
