/** Unique ownership in programs with out-owner calls: elements and joins keep it, and an edge does
    exactly when it makes no second storage the owner of an object. It can: a program in scope comes to a
    state with two owners of one object. */
module Owners {
  import opened Flow
  import opened Height
  import opened Options
  import opened OutOwners
  import opened Transfer
  import opened Program
  import opened Ownership
  import opened Renaming
  import opened Guards
  import opened Soundness
  import opened Agreement
  import opened Borrowed
  import opened SmallPrograms
  import opened Verdict

  // ---------------------------------------------------------------------------------------------
  // Elements and edges
  // ---------------------------------------------------------------------------------------------

  lemma ProduceUnique(st: FlowState, p: Production, decl: bool, at: nat)
    requires UniqueOwner(st) && 1 <= p.site < GENERATION_STRIDE && ProductionFresh(Produce(p, decl, at), st)
    ensures UniqueOwner(ProduceStep(st, p, decl, at).state)
  {
    var st' := ProduceStep(st, p, decl, at).state;
    if Accepts(st, p) {
      ProduceShape(st, p, decl, at);
      RebindUnique(st, st', p.dest, st'.storages[p.dest]);
    } else {
      SameStoragesUnique(st, st');
    }
  }

  /** Every element keeps owners unique. */
  lemma ElementUnique(c: Cmd, st: FlowState, live: LiveAfter)
    requires Good(st) && UniqueOwner(st) && SmallSite(c) && ProductionFresh(c, st)
    ensures UniqueOwner(Step(c, st, live).state)
  {
    if c.Produce? {
      ProduceUnique(st, c.production, c.decl, c.at);
      SameStoragesUnique(ProduceStep(st, c.production, c.decl, c.at).state, Step(c, st, live).state);
    } else {
      StepUnique(c, st, live);
    }
  }

  /** Edge `i` makes `v` an owner of the object that `w` owns. */
  predicate Doubles(b: Block, i: nat, st: FlowState, v: Storage, w: Storage) {
    var st' := EdgeState(b, i, st);
    && v in st.storages && v in st'.storages && st'.storages[v] != st.storages[v] && st'.storages[v].relation == Owner
    && w != v && Owns(st, w, st.storages[v].id)
  }

  ghost predicate DoublesOwner(b: Block, i: nat, st: FlowState) {
    exists v, w :: Doubles(b, i, st, v, w)
  }

  lemma EdgeUniqueExactly(b: Block, i: nat, st: FlowState)
    requires UniqueOwner(st)
    ensures UniqueOwner(EdgeState(b, i, st)) <==> !DoublesOwner(b, i, st)
  {
    var st' := EdgeState(b, i, st);
    EdgeStateShape(b, i, st);
    if st'.storages == st.storages {
      SameStoragesUnique(st, st');
    } else {
      var x, nb :| x in st.storages && st'.storages == st.storages[x := nb] && RefinedTo(st.storages[x], nb);
      if v, w :| Doubles(b, i, st, v, w) {
        assert v == x && Owns(st', v, st.storages[v].id) && Owns(st', w, st.storages[v].id);
      } else {
        forall w | w != x && nb.relation == Owner ensures !Owns(st, w, nb.id) {
          assert !Doubles(b, i, st, x, w);
        }
        RebindUnique(st, st', x, nb);
      }
    }
  }

  // ---------------------------------------------------------------------------------------------
  // Whole analyses
  // ---------------------------------------------------------------------------------------------

  lemma {:induction false} PrefixUnique(blocks: seq<Block>, entry: nat, st: FlowState, live: seq<LiveAfter>, b: nat,
      k: nat)
    requires Ordinary(blocks, entry) && ArrivesAt(st, blocks, entry, b) && UniqueOwner(st)
    requires b < |blocks| && k <= |blocks[b].cmds| == |live|
    ensures UniqueOwner(StateBefore(blocks[b].cmds, st, live, k))
  {
    var cmds := blocks[b].cmds;
    if k == 0 {
      assert cmds[..0] == [] && live[..0] == [];
    } else {
      var before := StateBefore(cmds, st, live, k - 1);
      PrefixUnique(blocks, entry, st, live, b, k - 1);
      StateBeforeNext(cmds, st, live, k - 1);
      ArrivesReachable(st, blocks, entry, b);
      ReachableRun(st, blocks, b, k - 1, live[..k - 1]);
      ReachableIsSane(blocks, before);
      ProductionsAreFresh(blocks, entry, st, b, k - 1, live);
      assert SmallSite(cmds[k - 1]);
      ElementUnique(cmds[k - 1], before, live[k - 1]);
    }
  }

  /** No edge on the way made a second owner. */
  ghost predicate NeverDoubles(d: Arrival, blocks: seq<Block>) {
    match d
    case Begin => true
    case Along(before, from, i) =>
      NeverDoubles(before, blocks) &&
      (from < |blocks| ==> !DoublesOwner(blocks[from], i, TransferBlock(blocks[from], Arrived(before, blocks))))
    case Merge(l, r) => NeverDoubles(l, blocks) && NeverDoubles(r, blocks)
  }

  lemma TransferUnique(blocks: seq<Block>, entry: nat, st: FlowState, b: nat)
    requires Ordinary(blocks, entry) && ArrivesAt(st, blocks, entry, b) && UniqueOwner(st) && b < |blocks|
    ensures UniqueOwner(TransferBlock(blocks[b], st))
  {
    var cmds, none := blocks[b].cmds, NothingMeasured(|blocks[b].cmds|);
    PrefixUnique(blocks, entry, st, none, b, |cmds|);
    assert cmds[..|cmds|] == cmds && none[..|cmds|] == none;
  }

  lemma {:induction false} ArrivedOwnerIsUnique(d: Arrival, blocks: seq<Block>, entry: nat, b: nat)
    requires Ordinary(blocks, entry) && Arrives(d, blocks, entry, b) && NeverDoubles(d, blocks)
    ensures UniqueOwner(Arrived(d, blocks))
  {
    match d
    case Begin =>
    case Along(before, from, i) =>
      ArrivedOwnerIsUnique(before, blocks, entry, from);
      TransferUnique(blocks, entry, Arrived(before, blocks), from);
      EdgeUniqueExactly(blocks[from], i, TransferBlock(blocks[from], Arrived(before, blocks)));
    case Merge(l, r) =>
      ArrivedOwnerIsUnique(l, blocks, entry, b);
      ArrivedOwnerIsUnique(r, blocks, entry, b);
      JoinUnique(Arrived(l, blocks), Arrived(r, blocks));
  }

  /** In a state that comes about without an edge that makes a second owner, and in every state that
      either pass goes through in the block after it, an object has at most one owner. */
  lemma OwnerIsUnique(blocks: seq<Block>, entry: nat, d: Arrival, live: seq<LiveAfter>, b: nat, k: nat, v: Storage,
      w: Storage, id: ObjectId)
    requires Ordinary(blocks, entry) && Arrives(d, blocks, entry, b) && NeverDoubles(d, blocks)
    requires b < |blocks| && k <= |blocks[b].cmds| == |live|
    requires var st := StateBefore(blocks[b].cmds, Arrived(d, blocks), live, k); Owns(st, v, id) && Owns(st, w, id)
    ensures v == w
  {
    ArrivedOwnerIsUnique(d, blocks, entry, b);
    PrefixUnique(blocks, entry, Arrived(d, blocks), live, b, k);
  }

  // ---------------------------------------------------------------------------------------------
  // Two owners
  //
  //     T *w = malloc(n);  T *out = NULL;
  //     if (f(&out)) out = w;
  //     if (out) ...
  //
  // Where `f` failed, `out` is null and still unrefined. Joined with the other branch it is a possibly
  // null, unrefined binding of `w`'s object, which the null check makes an owner.
  // ---------------------------------------------------------------------------------------------

  const OUT: Storage := 0
  const W: Storage := 1

  const SIGNALS := OutOwner(true, true, false)
  const CALL := Production(0, 1, OUT, SIGNALS, None, {}, true, false)
  const ALLOCATES := Malloc(W, 2, true, 0)
  const CLEARS := SetNull(OUT, true, 1)
  const CALLS := Produce(CALL, false, 2)
  const ASKING := Block([CallPoint, ALLOCATES, CLEARS, CALLS], Some(Truth(ProducingCall(OUT, SIGNALS))), false,
    [Some(1), Some(2)])
  const COPYING := Block([Copy(OUT, W, false, 3)], None, false, [Some(2)])
  const CHECKING := Block([], Some(Truth(Variable(OUT))), false, [Some(3)])
  const BLOCKS := [ASKING, COPYING, CHECKING, Block([], None, false, [])]

  const W_OWNS := Binding(2, Owner, At(0), false)
  const ALLOCATED := BindOwned(EMPTY_STATE.(generations := map[2 := 0]), W, 2, 0)
  const CLEARED := Bind(ALLOCATED, OUT, NULL_ID, Null, 1)
  const CALLED := Step(CALLS, CLEARED, Unmeasured).state
  const SUCCEEDED := EdgeState(ASKING, 0, CALLED)
  const FAILED := EdgeState(ASKING, 1, CALLED)
  const COPIED := TransferBlock(COPYING, SUCCEEDED)
  const JOINED := JoinFlow(COPIED, FAILED)

  lemma CallResult()
    ensures CALLED.storages == map[OUT := Binding(1, MaybeNull, At(2), true), W := W_OWNS]
    ensures CALLED.borrows == map[] && CALLED.pending == map[]
  {
    assert ALLOCATED.storages == map[W := W_OWNS] &&
      CLEARED.storages == map[W := W_OWNS, OUT := Binding(NULL_ID, Null, At(1), false)];
    assert CLEARED.borrows == map[] && CLEARED.pending == map[];
    assert Accepts(CLEARED, CALL);
    var o := ProduceStep(CLEARED, CALL, false, 2).state;
    assert o.pending == map[];
    assert ExpireBorrows(o, Unmeasured) == o;
  }

  lemma AllocationResult()
    ensures Step(ALLOCATES, EMPTY_STATE, Unmeasured).state == ALLOCATED
  {
    var looked := EMPTY_STATE.(generations := map[2 := 0]);
    assert EMPTY_STATE.generations[2 := 0] == map[2 := 0] && !Retained(2, W, looked);
  }

  lemma FirstBlock()
    ensures TransferBlock(ASKING, EMPTY_STATE) == CALLED
  {
    var none := NothingMeasured(4);
    var states := [EMPTY_STATE, EMPTY_STATE, ALLOCATED, CLEARED, CALLED];
    assert ExpireBorrows(EMPTY_STATE, Unmeasured) == EMPTY_STATE;
    AllocationResult();
    forall k | 0 <= k < 4 ensures states[k + 1] == Step(ASKING.cmds[k], states[k], none[k]).state {
      if k == 0 {} else if k == 1 {} else if k == 2 {} else {}
    }
    assert Trace(ASKING.cmds, none, states);
    TraceRuns(ASKING.cmds, none, states);
  }

  lemma BothBranches()
    ensures SUCCEEDED.storages == map[OUT := Binding(1, Owner, At(2), false), W := W_OWNS] && SUCCEEDED.pending == map[]
    ensures FAILED.storages == map[OUT := Binding(NULL_ID, Null, At(2), true), W := W_OWNS] && FAILED.pending == map[]
  {
    CallResult();
  }

  lemma CopyResult()
    ensures COPIED.storages == map[OUT := Binding(2, Alias, At(3), false), W := W_OWNS] && COPIED.pending == map[]
  {
    BothBranches();
    var none := NothingMeasured(1);
    RunOne(COPYING.cmds[0], SUCCEEDED, none);
    var written := Written(SUCCEEDED, OUT, false);
    assert written.pending == map[] && written.storages == SUCCEEDED.storages;
    assert Bind(written, OUT, 2, Alias, 3).storages == map[OUT := Binding(2, Alias, At(3), false), W := W_OWNS];
  }

  /** Of any two states that look like that. */
  lemma JoinOfBranches(copied: FlowState, failed: FlowState)
    requires copied.storages == map[OUT := Binding(2, Alias, At(3), false), W := W_OWNS]
    requires failed.storages == map[OUT := Binding(NULL_ID, Null, At(2), true), W := W_OWNS] && failed.pending == map[]
    ensures var j := JoinFlow(copied, failed);
      j.storages == map[OUT := Binding(2, MaybeNull, At(2), true), W := W_OWNS] && j.pending == map[]
  {
    var j := JoinStorages(copied, failed);
    assert JoinBinding(copied.storages[OUT], failed.storages[OUT]) == Binding(2, MaybeNull, At(2), true);
    assert j.Keys == {OUT, W};
  }

  lemma NullCheckMakesOwner(st: FlowState)
    requires st.storages == map[OUT := Binding(2, MaybeNull, At(2), true), W := W_OWNS] && st.pending == map[]
    ensures var st' := EdgeState(CHECKING, 0, st); Owns(st', OUT, 2) && Owns(st', W, 2)
  {
  }

  lemma CheckResult()
    ensures var st := EdgeState(CHECKING, 0, JOINED); Owns(st, OUT, 2) && Owns(st, W, 2)
  {
    BothBranches();
    CopyResult();
    JoinOfBranches(COPIED, FAILED);
    NullCheckMakesOwner(JOINED);
  }

  lemma StatesArrive()
    ensures ArrivesAt(EdgeState(CHECKING, 0, JOINED), BLOCKS, 0, 3)
  {
    FirstBlock();
    ArrivesAtEntry(BLOCKS, 0);
    ArrivesAlong(EMPTY_STATE, BLOCKS, 0, 0, 0);
    ArrivesAlong(EMPTY_STATE, BLOCKS, 0, 0, 1);
    ArrivesAlong(SUCCEEDED, BLOCKS, 0, 1, 0);
    PlainEdge(COPYING, 0, COPIED);
    ArrivesMerged(COPIED, FAILED, BLOCKS, 0, 2);
    var none := NothingMeasured(0);
    assert TransferBlock(CHECKING, JOINED) == JOINED;
    ArrivesAlong(JOINED, BLOCKS, 0, 2, 0);
  }

  lemma Elements(b: nat, k: nat)
    requires b < |BLOCKS| && k < |BLOCKS[b].cmds|
    ensures var c := BLOCKS[b].cmds[k];
      && !c.Move? && !c.Borrow? && SmallSite(c) && (c.Malloc? || c.Produce? ==> b == 0)
      && (c.Malloc? ==> k == 1 && c.site == 2) && (c.Produce? ==> k == 3 && c.production == CALL)
  {
    if b == 0 {
      if k == 0 {} else if k == 1 {} else if k == 2 {} else {}
    } else if b == 1 {}
  }

  lemma GraphIsForward(p: nat, q: nat)
    requires Connects(BLOCKS, false, p, q)
    ensures p < q
  {
    if p == 0 {} else if p == 1 {} else if p == 2 {} else {}
  }

  lemma GraphIsInScope()
    ensures InScope(BLOCKS, 0) && NoMoves(BLOCKS)
  {
    forall b, k | 0 <= b < |BLOCKS| && 0 <= k < |BLOCKS[b].cmds|
      ensures var c := BLOCKS[b].cmds[k];
        && !c.Move? && !c.Borrow? && SmallSite(c) && (c.Malloc? || c.Produce? ==> b == 0)
        && (c.Malloc? ==> k == 1 && c.site == 2) && (c.Produce? ==> k == 3 && c.production == CALL)
    {
      Elements(b, k);
    }
    forall p, q | Connects(BLOCKS, false, p, q) ensures p < q { GraphIsForward(p, q); }
    ForwardGraphHasNoCycle(BLOCKS, 0);
    forall p | HasProduction(BLOCKS, p) ensures p == CALL {
      var b, k :| ProducesAt(BLOCKS, b, k, p);
    }
    forall b | b in BLOCKS ensures ConditionFollowsCall(b) && ConditionOnSignal(b) { }
  }

  /** So uniqueness fails with out-owner calls. */
  lemma ObjectCanHaveTwoOwners() returns (blocks: seq<Block>, st: FlowState)
    ensures InScope(blocks, 0) && NoMoves(blocks) && ArrivesAt(st, blocks, 0, 3)
    ensures Owns(st, OUT, 2) && Owns(st, W, 2) && OUT != W
  {
    blocks, st := BLOCKS, EdgeState(CHECKING, 0, JOINED);
    GraphIsInScope();
    StatesArrive();
    CheckResult();
  }
}
