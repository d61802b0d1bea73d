/** Why the PASS theorem asks that no move was dropped in silence: what such a move loses, and a
    program whose analysis reports nothing although a run destroys an object twice.

        T *q;  T *p = NULL;
        if (c) q = malloc(n);
        p = CAND_MOVE(q);
        free(p);  free(p);

    At the join `q` is unresolved, so the move is dropped without a report and `p` still counts as
    null. */
module SilentMoves {
  import opened Flow
  import opened Options
  import opened Transfer
  import opened Program
  import opened Ownership
  import opened Execution
  import opened Renaming
  import opened Guards
  import opened Soundness
  import opened Agreement
  import opened SmallPrograms
  import opened Verdict
  import L = Liveness

  const P: Storage := 0
  const Q: Storage := 1

  const DECLARES := Block([SetNull(P, true, 0)], None, false, [Some(1), Some(2)])
  const ALLOCATES := Block([CallPoint, Malloc(Q, 1, true, 1)], None, false, [Some(2)])
  const MOVES := Block([Move(P, Q, false, 2), Free(P, 3), Free(P, 4)], None, false, [])
  const BLOCKS := [DECLARES, ALLOCATES, MOVES]

  const AFTER_DECLARATION := Bind(EMPTY_STATE, P, NULL_ID, Null, 0)
  const AFTER_ALLOCATION := BindOwned(AFTER_DECLARATION.(generations := map[1 := 0]), Q, 1, 1)
  const AT_JOIN := JoinFlow(AFTER_DECLARATION, AFTER_ALLOCATION)

  lemma JoinedState()
    ensures AT_JOIN.storages == map[P := Binding(NULL_ID, Null, At(0), false),
      Q := Binding(UNKNOWN_ID, UnknownRelation, At(1), false)]
    ensures AT_JOIN.borrows == map[] && AT_JOIN.pending == map[]
  {
    assert AFTER_DECLARATION.storages == map[P := Binding(NULL_ID, Null, At(0), false)];
    assert AFTER_ALLOCATION.storages == map[P := Binding(NULL_ID, Null, At(0), false),
      Q := Binding(1, Owner, At(1), false)];
  }

  lemma DeclarationBlock(live: seq<LiveAfter>)
    requires |live| == 1
    ensures RunBlock(DECLARES.cmds, EMPTY_STATE, live).state == AFTER_DECLARATION
    ensures RunBlock(DECLARES.cmds, EMPTY_STATE, live).reports == {}
  {
    RunOne(SetNull(P, true, 0), EMPTY_STATE, live);
  }

  lemma AllocationStep(live: LiveAfter)
    ensures Step(Malloc(Q, 1, true, 1), AFTER_DECLARATION, live) == Silent(AFTER_ALLOCATION)
    ensures Step(CallPoint, AFTER_DECLARATION, live) == Silent(AFTER_DECLARATION)
  {
    var looked := AFTER_DECLARATION.(generations := AFTER_DECLARATION.generations[1 := 0]);
    assert looked.generations == map[1 := 0];
    assert !Retained(1, Q, looked);
    assert ExpireBorrows(AFTER_DECLARATION, live).borrows == map[];
  }

  lemma AllocationBlock(live: seq<LiveAfter>)
    requires |live| == 2
    ensures RunBlock(ALLOCATES.cmds, AFTER_DECLARATION, live).state == AFTER_ALLOCATION
    ensures RunBlock(ALLOCATES.cmds, AFTER_DECLARATION, live).reports == {}
  {
    var states := [AFTER_DECLARATION, AFTER_DECLARATION, AFTER_ALLOCATION];
    forall k | 0 <= k < 2 ensures Step(ALLOCATES.cmds[k], states[k], live[k]) == Silent(states[k + 1]) {
      AllocationStep(live[k]);
      if k == 0 {} else {}
    }
    assert Trace(ALLOCATES.cmds, live, states);
    TraceRuns(ALLOCATES.cmds, live, states);
  }

  lemma MoveDoesNothing(live: LiveAfter)
    ensures Step(Move(P, Q, false, 2), AT_JOIN, live) == Silent(AT_JOIN)
    ensures Step(Free(P, 3), AT_JOIN, live) == Silent(AT_JOIN) && Step(Free(P, 4), AT_JOIN, live) == Silent(AT_JOIN)
  {
    JoinedState();
    assert Written(AT_JOIN, P, false) == AT_JOIN;
    assert ExpireBorrows(AT_JOIN, live) == AT_JOIN;
  }

  lemma MoveBlock(live: seq<LiveAfter>)
    requires |live| == 3
    ensures RunBlock(MOVES.cmds, AT_JOIN, live).state == AT_JOIN && RunBlock(MOVES.cmds, AT_JOIN, live).reports == {}
  {
    var cmds := MOVES.cmds;
    RunOne(cmds[0], AT_JOIN, live[..1]);
    assert cmds[..1] == [cmds[0]] && cmds[..2][..1] == cmds[..1] && live[..2][..1] == live[..1];
    assert cmds[..2][1] == cmds[1];
    MoveDoesNothing(live[0]);
    MoveDoesNothing(live[1]);
    MoveDoesNothing(live[2]);
    assert RunBlock(cmds[..2], AT_JOIN, live[..2]).reports == {};
  }

  const INS: map<nat, FlowState> := map[0 := EMPTY_STATE, 1 := AFTER_DECLARATION, 2 := AT_JOIN]

  lemma OnlyOneAllocation(b: nat, k: nat)
    requires b < |BLOCKS| && k < |BLOCKS[b].cmds|
    ensures var c := BLOCKS[b].cmds[k];
      !c.Borrow? && !c.Produce? && SmallSite(c) && (c.Malloc? ==> b == 1 && k == 1)
  {
    if b == 0 {} else if b == 1 { if k == 0 {} else {} } else {}
  }

  lemma GraphIsInScope()
    ensures InScope(BLOCKS, 0) && NoStaleDeclarations(BLOCKS)
    ensures forall b, k :: 0 <= b < |BLOCKS| && 0 <= k < |BLOCKS[b].cmds| ==> !BLOCKS[b].cmds[k].Borrow?
  {
    forall b, k | 0 <= b < |BLOCKS| && 0 <= k < |BLOCKS[b].cmds|
      ensures !BLOCKS[b].cmds[k].Borrow? && !BLOCKS[b].cmds[k].Produce? && SmallSite(BLOCKS[b].cmds[k])
      ensures BLOCKS[b].cmds[k].Malloc? ==> b == 1 && k == 1
    {
      OnlyOneAllocation(b, k);
    }
    forall p ensures !HasProduction(BLOCKS, p) { }
    assert forall b, x :: 0 <= b < 3 ==> !BlockInvolves(BLOCKS[b], x);
  }

  lemma JoinAbsorbsBoth()
    ensures Absorbs(AFTER_DECLARATION, AFTER_DECLARATION) && Absorbs(AT_JOIN, AFTER_DECLARATION) &&
      Absorbs(AT_JOIN, AFTER_ALLOCATION)
  {
    JoinIdempotent(AFTER_DECLARATION);
    LeftAbsorption(AFTER_DECLARATION, AFTER_ALLOCATION, AFTER_DECLARATION);
    AbsorbsJoined(AFTER_DECLARATION, AFTER_ALLOCATION);
  }

  lemma DeclarationEdges()
    ensures EdgesAbsorbed(BLOCKS, INS, 0, AFTER_DECLARATION)
  {
    JoinAbsorbsBoth();
    forall i: nat ensures EdgeAbsorbed(BLOCKS, INS, 0, i, AFTER_DECLARATION) {
      PlainEdge(DECLARES, i, AFTER_DECLARATION);
    }
  }

  lemma AllocationEdges()
    ensures EdgesAbsorbed(BLOCKS, INS, 1, AFTER_ALLOCATION)
  {
    JoinAbsorbsBoth();
    forall i: nat ensures EdgeAbsorbed(BLOCKS, INS, 1, i, AFTER_ALLOCATION) {
      PlainEdge(ALLOCATES, i, AFTER_ALLOCATION);
    }
  }

  lemma MoveEdges()
    ensures EdgesAbsorbed(BLOCKS, INS, 2, AT_JOIN)
  {
  }

  lemma Transfers()
    ensures TransferBlock(DECLARES, EMPTY_STATE) == AFTER_DECLARATION
    ensures TransferBlock(ALLOCATES, AFTER_DECLARATION) == AFTER_ALLOCATION
    ensures TransferBlock(MOVES, AT_JOIN) == AT_JOIN
  {
    DeclarationBlock(NothingMeasured(1));
    AllocationBlock(NothingMeasured(2));
    MoveBlock(NothingMeasured(3));
  }

  lemma Predecessors()
    ensures HasPredecessor(BLOCKS, 1) && HasPredecessor(BLOCKS, 2)
  {
    assert DECLARES.succs[0] == Some(1) && DECLARES.succs[1] == Some(2);
    assert Some(1) in BLOCKS[0].succs && Some(2) in BLOCKS[0].succs;
  }

  lemma BlockIsPostFixed(b: nat)
    requires b < 3
    ensures EdgesAbsorbed(BLOCKS, INS, b, TransferBlock(BLOCKS[b], INS[b]))
  {
    Transfers();
    if b == 0 { DeclarationEdges(); } else if b == 1 { AllocationEdges(); } else { MoveEdges(); }
  }

  lemma StatesArePostFixed()
    ensures PostFixed(BLOCKS, 0, INS)
  {
    Predecessors();
    JoinIdempotent(EMPTY_STATE);
    assert INS.Keys == {0, 1, 2};
    forall b | b in INS
      ensures b < |BLOCKS| && (b == 0 || HasPredecessor(BLOCKS, b)) &&
        EdgesAbsorbed(BLOCKS, INS, b, TransferBlock(BLOCKS[b], INS[b]))
    {
      BlockIsPostFixed(b);
    }
  }

  lemma ArrivesAlongPlain(st: FlowState, st': FlowState, blocks: seq<Block>, b: nat, i: nat)
    requires ArrivesAt(st, blocks, 0, b) && b < |blocks| && i < |blocks[b].succs| && blocks[b].succs[i].Some?
    requires blocks[b].cond == None && !blocks[b].loopHead && TransferBlock(blocks[b], st) == st'
    ensures ArrivesAt(st', blocks, 0, blocks[b].succs[i].value)
  {
    PlainEdge(blocks[b], i, st');
    ArrivesAlong(st, blocks, 0, b, i);
  }

  /** In any graph of this shape. */
  lemma DiamondArrives(blocks: seq<Block>, start: FlowState, declared: FlowState, bound: FlowState)
    requires |blocks| == 3 && blocks[0].succs == [Some(1), Some(2)] && blocks[1].succs == [Some(2)]
    requires blocks[0].cond == None && !blocks[0].loopHead && blocks[1].cond == None && !blocks[1].loopHead
    requires ArrivesAt(start, blocks, 0, 0)
    requires TransferBlock(blocks[0], start) == declared && TransferBlock(blocks[1], declared) == bound
    ensures ArrivesAt(declared, blocks, 0, 1) && ArrivesAt(JoinFlow(declared, bound), blocks, 0, 2)
  {
    ArrivesAlongPlain(start, declared, blocks, 0, 0);
    ArrivesAlongPlain(start, declared, blocks, 0, 1);
    ArrivesAlongPlain(declared, bound, blocks, 1, 0);
    ArrivesMerged(declared, bound, blocks, 0, 2);
  }

  lemma StatesArrive()
    ensures ArrivesAt(EMPTY_STATE, BLOCKS, 0, 0) && ArrivesAt(AFTER_DECLARATION, BLOCKS, 0, 1) &&
      ArrivesAt(AT_JOIN, BLOCKS, 0, 2)
  {
    Transfers();
    ArrivesAtEntry(BLOCKS, 0);
    DiamondArrives(BLOCKS, EMPTY_STATE, AFTER_DECLARATION, AFTER_ALLOCATION);
  }

  lemma BlockIsSilent(after: map<L.Point, set<Storage>>, b: nat)
    requires b < 3
    ensures EmitBlock(BLOCKS, INS, after, b).reports == {}
  {
    if b == 0 {
      DeclarationBlock(LiveAfterBlock(after, 0, 1));
    } else if b == 1 {
      AllocationBlock(LiveAfterBlock(after, 1, 2));
    } else {
      MoveBlock(LiveAfterBlock(after, 2, 3));
    }
  }

  lemma NothingIsReported(after: map<L.Point, set<Storage>>)
    ensures Emitted(BLOCKS, INS, after) == {}
  {
    forall b | b in INS && b < |BLOCKS| ensures EmitBlock(BLOCKS, INS, after, b).reports == {} {
      BlockIsSilent(after, b);
    }
    NothingIsEmitted(BLOCKS, INS, after, 3);
  }

  const M1 := Assign(INITIAL, P, NullValue)
  const M2 := Allocated(M1, Q, 7)
  const M3 := Assign(M2, P, Obj(7))
  const M4 := M3.(alive := M3.alive - {7})

  lemma AllocatingVisit() returns (v: Visit)
    ensures v == Visit(1, [M1, M1, M2]) && VisitOk(BLOCKS, v)
  {
    v := Visit(1, [M1, M1, M2]);
    assert Steps(ALLOCATES.cmds[0], M1, M1) && Steps(ALLOCATES.cmds[1], M1, M2);
  }

  lemma MovingVisit() returns (v: Visit)
    ensures v.block == 2 && VisitOk(BLOCKS, v) && v.states[0] == M2 && !SafeVisit(BLOCKS, v)
  {
    v := Visit(2, [M2, M3, M4]);
    assert Steps(MOVES.cmds[0], M2, M3) && Steps(MOVES.cmds[1], M3, M4);
    assert VisitOk(BLOCKS, v);
    assert Violates(MOVES.cmds[2], v.states[2]) && BLOCKS[v.block].cmds[2] == MOVES.cmds[2];
  }

  /** The allocation succeeds and both destructions happen. */
  lemma DestroysTwice() returns (run: seq<Visit>)
    ensures IsRun(BLOCKS, 0, run) && !SafeRun(BLOCKS, run)
  {
    assert Steps(DECLARES.cmds[0], INITIAL, M1);
    var v0 := VisitOne(BLOCKS, 0, DECLARES.cmds[0], INITIAL, M1);
    var v1 := AllocatingVisit();
    var v2 := MovingVisit();
    assert TakesEdge(DECLARES, 0, 1, M1) && TakesEdge(ALLOCATES, 0, 2, M2);
    run := [v0, v1, v2];
    assert Continues(BLOCKS, run[0], run[1]) && Continues(BLOCKS, run[1], run[2]);
    assert !SafeVisit(BLOCKS, run[2]);
  }

  lemma StatesByBlock()
    ensures INS.Keys == {0, 1, 2} && INS[0] == EMPTY_STATE && INS[1] == AFTER_DECLARATION && INS[2] == AT_JOIN
  {
  }

  lemma BorrowFreeReliable(blocks: seq<Block>, ins: map<nat, FlowState>) returns (after: map<L.Point, set<Storage>>)
    requires InScope(blocks, 0) && NoStaleDeclarations(blocks)
    requires forall b, k :: 0 <= b < |blocks| && 0 <= k < |blocks[b].cmds| ==> !blocks[b].cmds[k].Borrow?
    requires PostFixed(blocks, 0, ins) && forall b :: b in ins ==> ArrivesAt(ins[b], blocks, 0, b)
    ensures Reliable(blocks, 0, ins, {}, after)
  {
    after := BorrowFreeAnalysed(blocks, ins);
    DeclarationsStayFresh(blocks, 0, ins, after);
  }

  lemma AllStatesArrive(b: nat)
    requires b in INS
    ensures ArrivesAt(INS[b], BLOCKS, 0, b)
  {
    StatesByBlock();
    StatesArrive();
    if b == 0 {} else if b == 1 {} else {}
  }

  /** Everything that the PASS theorem asks, except that no move is dropped; nothing is reported; and a
      run destroys an object twice. */
  lemma SilentMoveCanBeAFalsePass()
      returns (blocks: seq<Block>, ins: map<nat, FlowState>, after: map<L.Point, set<Storage>>, run: seq<Visit>)
    ensures Reliable(blocks, 0, ins, {}, after) && Emitted(blocks, ins, after) == {}
    ensures IsRun(blocks, 0, run) && !SafeRun(blocks, run)
  {
    blocks, ins := BLOCKS, INS;
    GraphIsInScope();
    StatesArePostFixed();
    forall b | b in INS ensures ArrivesAt(INS[b], BLOCKS, 0, b) { AllStatesArrive(b); }
    after := BorrowFreeReliable(BLOCKS, INS);
    NothingIsReported(after);
    run := DestroysTwice();
  }

  // ---------------------------------------------------------------------------------------------
  // What a dropped move loses
  // ---------------------------------------------------------------------------------------------

  /** The element takes some machine that the state represents to one that the next state represents
      under no names. */
  ghost predicate Loses(c: Cmd, st: FlowState, live: LiveAfter, m: Machine, m': Machine, mu: Naming) {
    && Represents(st, m, mu) && Steps(c, m, m')
    && forall mu' :: !Represents(Step(c, st, live).state, m', mu')
  }

  ghost predicate LosesMachine(c: Cmd, st: FlowState, live: LiveAfter) {
    exists m, m', mu :: Loses(c, st, live, m, m', mu)
  }

  /** `y` holds a dead object and nothing else holds any. */
  function DeadIn(y: Storage): Machine { Machine(map[y := Obj(0)], {}, {0}, map[]) }

  /** `y` and `w` hold one live object. */
  function SharedBy(y: Storage, w: Storage): Machine { Machine(map[y := Obj(0), w := Obj(0)], {0}, {0}, map[]) }

  /** `y` and `w` hold one live object each. */
  function ApartIn(y: Storage, w: Storage): Machine { Machine(map[y := Obj(0), w := Obj(1)], {0, 1}, {0, 1}, map[]) }

  lemma WitnessesAreRepresented(st: FlowState, y: Storage, w: Storage)
    requires y in st.storages && st.storages[y].id == UNKNOWN_ID
    ensures Represents(st, DeadIn(y), map[])
    ensures CanHold(st, w) ==> Represents(st, SharedBy(y, w), map[st.storages[w].id := 0])
    ensures CanHold(st, w) ==> Represents(st, ApartIn(y, w), map[st.storages[w].id := 1])
  {
  }

  lemma DeadContradicts(st: FlowState, m: Machine, x: Storage, mu: Naming)
    requires Claims(st, x) && ValueOf(m, x) == Obj(0) && m.alive == {}
    ensures !Represents(st, m, mu)
  {
    if StorageFits(st, m, mu, x) {
      assert x in st.storages && !ObjectFits(st, m, mu, st.storages[x].id);
    }
  }

  /** Two variables that are told apart do not hold one object, nor do two that share one hold two. */
  lemma NamesContradict(st: FlowState, m: Machine, x: Storage, w: Storage, mu: Naming)
    requires x in st.storages && w in st.storages && Names(st.storages[x].id) && Names(st.storages[w].id)
    requires ValueOf(m, x).Obj? && ValueOf(m, w).Obj?
    requires (st.storages[x].id == st.storages[w].id) != (ValueOf(m, x) == ValueOf(m, w))
    ensures !Represents(st, m, mu)
  {
    if StorageFits(st, m, mu, x) && StorageFits(st, m, mu, w) && Injective(mu) {
      assert false;
    }
  }

  /** A move that is dropped into a variable that is absent, null, or trusted to hold a live object. */
  lemma ClaimLosesMachine(x: Storage, y: Storage, decl: bool, at: nat, st: FlowState, live: LiveAfter)
    requires y in st.storages && st.storages[y].id == UNKNOWN_ID && Claims(st, x)
    ensures LosesMachine(Move(x, y, decl, at), st, live)
  {
    var c, m, m' := Move(x, y, decl, at), DeadIn(y), Assign(DeadIn(y), x, Obj(0));
    WitnessesAreRepresented(st, y, y);
    var st' := Written(st, x, decl);
    assert Step(c, st, live) == Silent(st');
    forall mu ensures !Represents(st', m', mu) { DeadContradicts(st', m', x, mu); }
    assert Loses(c, st, live, m, m', map[]);
  }

  /** One that is dropped into a variable whose object another variable shares, or is told apart from. */
  lemma NeighbourLosesMachine(x: Storage, y: Storage, decl: bool, at: nat, st: FlowState, live: LiveAfter, w: Storage)
    requires y in st.storages && st.storages[y].id == UNKNOWN_ID && CanHold(st, x) && CanHold(st, w) && w != x
    ensures LosesMachine(Move(x, y, decl, at), st, live)
  {
    var c, same := Move(x, y, decl, at), st.storages[x].id == st.storages[w].id;
    var m := if same then ApartIn(y, w) else SharedBy(y, w);
    var m' := Assign(m, x, Obj(0));
    WitnessesAreRepresented(st, y, w);
    var st' := Written(st, x, decl);
    assert Step(c, st, live) == Silent(st');
    forall mu ensures !Represents(st', m', mu) { NamesContradict(st', m', x, w, mu); }
    assert Loses(c, st, live, m, m', map[st.storages[w].id := if same then 1 else 0]);
  }

  /** A move without a report loses a machine if and only if it counts as dropped in silence. */
  lemma SilentMoveLosesMachine(c: Cmd, st: FlowState, live: LiveAfter)
    requires c.Move? && Sane(st) && Step(c, st, live).reports == {}
    ensures LosesMachine(c, st, live) <==> SilentMove(c, st)
  {
    if SilentMove(c, st) {
      if Claims(st, c.x) {
        ClaimLosesMachine(c.x, c.y, c.decl, c.at, st, live);
      } else {
        var w :| w in st.storages && w != c.x && CanHold(st, w);
        NeighbourLosesMachine(c.x, c.y, c.decl, c.at, st, live, w);
      }
    } else {
      forall m, m', mu ensures !Loses(c, st, live, m, m', mu) {
        if Represents(st, m, mu) && Steps(c, m, m') {
          var mu' := MoveElementSound(c.x, c.y, c.decl, c.at, st, m, mu);
        }
      }
    }
  }
}
