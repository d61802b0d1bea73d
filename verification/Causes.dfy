/** When each report is made: for every kind of report, the element and the state that cause it. */
module Causes {
  import opened Flow
  import opened Height
  import opened Options
  import opened Transfer
  import opened Program
  import opened Ownership
  import opened Renaming
  import opened Soundness
  import opened Aftermath
  import L = Liveness

  // ---------------------------------------------------------------------------------------------
  // What is known of a variable
  // ---------------------------------------------------------------------------------------------

  predicate Bound(st: FlowState, x: Storage) { x in st.storages && !st.storages[x].producedMaybe }

  predicate Marked(st: FlowState, x: Storage) { x in st.storages && st.storages[x].producedMaybe }

  /** It is bound to a name for which there is no object. */
  predicate Orphaned(st: FlowState, x: Storage) {
    Bound(st, x) && Names(st.storages[x].id) && st.storages[x].id !in st.objects
  }

  /** It is bound to no object, but neither to null nor to anything unresolved. */
  predicate Disputed(st: FlowState, x: Storage) {
    Bound(st, x) && st.storages[x].id == NULL_ID && st.storages[x].relation !in {Null, UnknownRelation}
  }

  predicate Tells(st: FlowState, x: Storage) { Bound(st, x) && NamesObject(st, x) }

  function ObjectNow(st: FlowState, x: Storage): ObjectInfo
    requires NamesObject(st, x)
  {
    st.objects[st.storages[x].id]
  }

  predicate GivenAway(st: FlowState, x: Storage) { x in st.storages && MovedRelation(st.storages[x].relation) }

  predicate Perished(o: ObjectInfo) { o.state == Dead || o.state == MaybeDead }

  predicate OfUnknownState(o: ObjectInfo) { o.state == UnknownState || o.state == Untracked }

  predicate IsNull(b: Binding) { b.id == NULL_ID && b.relation == Null }

  /** A borrow whose object is gone, or may be. */
  predicate Stale(st: FlowState, x: Storage) {
    x in st.borrows &&
    (st.borrows[x].state in {Invalid, MaybeInvalid} || DeadOrMaybeDead(st, st.borrows[x].parent))
  }

  /** A borrow of which nothing is known. */
  predicate Doubtful(st: FlowState, x: Storage) {
    !Stale(st, x) && x in st.borrows && st.borrows[x].state == UnknownBorrow
  }

  /** An access is judged by the variable's own binding. */
  predicate Judged(st: FlowState, x: Storage) { !Stale(st, x) && !Doubtful(st, x) }

  /** This function may destroy the object. */
  predicate Destroyable(st: FlowState, x: Storage) {
    Tells(st, x) && !(ObjectNow(st, x).origin == Parameter && ObjectNow(st, x).capability == MayBorrow)
  }

  /** This function may give the object away. */
  predicate Givable(st: FlowState, y: Storage) {
    NamesObject(st, y) && y !in st.borrows && MayGive(ObjectNow(st, y))
  }

  // ---------------------------------------------------------------------------------------------
  // Allocations and productions
  // ---------------------------------------------------------------------------------------------

  /** Some other storage or borrow names an object of the site. */
  ghost predicate StillNamed(st: FlowState, x: Storage, site: Site) {
    || (exists v ::
      v in st.storages && v != x && Names(st.storages[v].id) && st.storages[v].id % GENERATION_STRIDE == site)
    || (exists v :: v in st.borrows && Names(st.borrows[v].parent) && st.borrows[v].parent % GENERATION_STRIDE == site)
  }

  /** Both generations of the site are taken, or it was given up before. */
  ghost predicate UsedUp(st: FlowState, x: Storage, site: Site) {
    site in st.widened || (StillNamed(st, x, site) && site in st.generations && st.generations[site] >= 1)
  }

  /** The generation that an allocation takes: the current one, or the next if that is still named. */
  ghost function NextGeneration(st: FlowState, x: Storage, site: Site): nat {
    if StillNamed(st, x, site) then 1 else if site in st.generations then st.generations[site] else 0
  }

  /** The slot can be written: it is known to be null, or it may be anything that was given away or never
      bound if the call always writes it. */
  predicate Takes(st: FlowState, p: Production) {
    && p.admissible && p.result != Some(p.dest)
    && (if p.contract.writeOnSuccess then p.dest in st.storages && st.storages[p.dest].relation == Null
        else p.dest in st.storages ==> st.storages[p.dest].relation in {Null, Moved, MaybeMoved})
  }

  /** The call gets the variable as an argument; what it takes as its slot it does not look at. */
  predicate PassedOn(v: Storage, p: Production, taken: bool) { v in p.arguments || (v == p.dest && !taken) }

  // ---------------------------------------------------------------------------------------------
  // The causes
  // ---------------------------------------------------------------------------------------------

  predicate AccessCause(r: Report, x: Storage, st: FlowState) {
    match r
    case BorrowUsedAfterDeath => Stale(st, x)
    case UnknownBorrowState => Doubtful(st, x)
    case BorrowConflict(v) => Judged(st, x) && x !in st.borrows && x in st.storages &&
      st.storages[x].relation == Owner && Lent(st, v, st.storages[x].id, Mutable)
    case UnrefinedOutOwnerUse => Judged(st, x) && Marked(st, x)
    case AmbiguousAliasTarget => Judged(st, x) && Bound(st, x) && Unresolved(st.storages[x])
    case AccessUnknownState => Judged(st, x) && (Orphaned(st, x) || Disputed(st, x) ||
      (Tells(st, x) && !GivenAway(st, x) && ObjectNow(st, x).state == UnknownState))
    case UseAfterMove => Judged(st, x) && Tells(st, x) && GivenAway(st, x)
    case UseAfterDestroy => Judged(st, x) && Tells(st, x) && !GivenAway(st, x) && Perished(ObjectNow(st, x))
    case _ => false
  }

  predicate DestructionCause(r: Report, x: Storage, st: FlowState, live: LiveAfter) {
    match r
    case FreeUntracked => x !in st.storages
    case UnrefinedOutOwnerUse => Marked(st, x)
    case AmbiguousAliasTarget => Bound(st, x) && !Names(st.storages[x].id) && !IsNull(st.storages[x])
    case FreeUnknownState =>
      Orphaned(st, x) || (Destroyable(st, x) && !GivenAway(st, x) && OfUnknownState(ObjectNow(st, x)))
    case DestroyBorrowedParameter => Tells(st, x) && !Destroyable(st, x)
    case DestroyedWhileBorrowed(v) => Destroyable(st, x) && LiveIn(live, v) &&
      (Lent(st, v, st.storages[x].id, Mutable) || Lent(st, v, st.storages[x].id, Shared))
    case DestroyFromNonOwner => Destroyable(st, x) && GivenAway(st, x)
    case DoubleDestroy => Destroyable(st, x) && !GivenAway(st, x) && Perished(ObjectNow(st, x))
    case _ => false
  }

  predicate MoveCause(r: Report, x: Storage, y: Storage, st: FlowState) {
    match r
    case MoveBorrowedStorage => y in st.storages && st.storages[y].id != UNKNOWN_ID && y in st.borrows
    case DoubleMove => Givable(st, y) && GivenAway(st, y)
    case MoveFromDead => Givable(st, y) && !GivenAway(st, y) && Perished(ObjectNow(st, y))
    case ConflictingOwner => Givable(st, y) && !GivenAway(st, y) && !Perished(ObjectNow(st, y)) &&
      (st.storages[y].relation != Owner || x == y || !Vacant(st, x))
    case _ => false
  }

  ghost predicate BorrowCause(r: Report, x: Storage, y: Storage, kind: BorrowKind, st: FlowState) {
    match r
    case BorrowUnknownParent => NamesObject(st, y) ==> Perished(ObjectNow(st, y))
    case NewBorrowConflict => NamesObject(st, y) && !Perished(ObjectNow(st, y)) && !CanLend(st, x, y, kind)
    case _ => false
  }

  ghost predicate AllocationCause(r: Report, x: Storage, site: Site, decl: bool, st: FlowState) {
    match r
    case HeapWidening => UsedUp(st, x, site)
    case IdExhausted => !UsedUp(st, x, site) && ObjectIdFor(site, NextGeneration(st, x, site)) == UNKNOWN_ID
    case OwnerOverwrite => !decl && !Vacant(st, x)
    case _ => false
  }

  predicate CopyCause(r: Report, y: Storage, st: FlowState) {
    r == AmbiguousAliasTarget && (y in st.storages ==> Unresolved(st.storages[y]))
  }

  ghost predicate ProductionCause(r: Report, p: Production, st: FlowState) {
    match r
    case PointerOutput => !Takes(st, p)
    case UnrefinedOutOwnerUse => exists v :: Marked(st, v) && PassedOn(v, p, Takes(st, p))
    case IdExhausted => Takes(st, p) && ObjectIdFor(p.site, 0) == UNKNOWN_ID
    case _ => false
  }

  /** What is reported of an element, and of nothing else. */
  ghost predicate Cause(r: Report, c: Cmd, st: FlowState, live: LiveAfter) {
    match c
    case Malloc(x, site, decl, _) => AllocationCause(r, x, site, decl, st)
    case Copy(_, y, _, _) => CopyCause(r, y, st)
    case Move(x, y, _, _) => MoveCause(r, x, y, st)
    case Borrow(x, y, kind, _) => BorrowCause(r, x, y, kind, st)
    case Free(x, _) => DestructionCause(r, x, st, live)
    case Deref(x, _) => AccessCause(r, x, st)
    case Produce(p, _, _) => ProductionCause(r, p, st)
    case Bump(_, _) => r == PointerArithmetic
    case Opaque => r == UnsupportedConstruct
    case _ => false
  }

  // ---------------------------------------------------------------------------------------------
  // They are exact
  // ---------------------------------------------------------------------------------------------

  lemma BindingExactly(st: FlowState, x: Storage, site: Site, at: nat)
    requires forall s :: s in st.generations ==> st.generations[s] <= 1
    ensures BindAllocation(st, x, site, at).reports ==
      if UsedUp(st, x, site) then {HeapWidening}
      else if ObjectIdFor(site, NextGeneration(st, x, site)) == UNKNOWN_ID then {IdExhausted} else {}
  {
    var looked := st.(generations := st.generations[site := Generation(st, site)]);
    assert Retained(site, x, looked) <==> StillNamed(st, x, site);
  }

  /** An allocation gives up when both generations of its site are still in use; an assignment of one must
      not overwrite an object that may be alive. */
  lemma AllocationReportsExactly(st: FlowState, x: Storage, site: Site, decl: bool, at: nat, r: Report)
    requires forall s :: s in st.generations ==> st.generations[s] <= 1
    ensures r in MallocStep(st, x, site, decl, at).reports <==> AllocationCause(r, x, site, decl, st)
  {
    BindingExactly(st, x, site, at);
    assert Overwrites(st, x) <==> !Vacant(st, x);
  }

  /** The reports of a move, in the order of the tests. */
  lemma GivingExactly(st: FlowState, x: Storage, y: Storage, at: nat)
    requires Givable(st, y) && Wf(st)
    ensures MoveStep(st, x, y, at).reports ==
      if GivenAway(st, y) then {DoubleMove}
      else if Perished(ObjectNow(st, y)) then {MoveFromDead}
      else if st.storages[y].relation != Owner || x == y || !Vacant(st, x) then {ConflictingOwner}
      else {}
  {
    assert Overwrites(st, x) <==> !Vacant(st, x);
  }

  lemma NotGivingExactly(st: FlowState, x: Storage, y: Storage, at: nat)
    requires Wf(st) && !Givable(st, y)
    ensures MoveStep(st, x, y, at).reports ==
      if y in st.storages && st.storages[y].id != UNKNOWN_ID && y in st.borrows then {MoveBorrowedStorage} else {}
  {
  }

  lemma MoveReportsExactly(st: FlowState, x: Storage, y: Storage, at: nat, r: Report)
    requires Wf(st)
    ensures r in MoveStep(st, x, y, at).reports <==> MoveCause(r, x, y, st)
  {
    if Givable(st, y) {
      GivingExactly(st, x, y, at);
    } else {
      NotGivingExactly(st, x, y, at);
    }
  }

  lemma BorrowReportsExactly(st: FlowState, x: Storage, y: Storage, kind: BorrowKind, at: nat, r: Report)
    requires Wf(st)
    ensures r in BorrowStep(st, x, y, kind, at).reports <==> BorrowCause(r, x, y, kind, st)
  {
    LendingExactly(st, Unmeasured, x, y, kind, at);
    var o := Step(Borrow(x, y, kind, at), st, Unmeasured);
    assert o == BorrowStep(st, x, y, kind, at);
    if CanLend(st, x, y, kind) { assert o.reports == {}; }
  }

  lemma ResolvedDestruction(st: FlowState, x: Storage, at: nat, live: LiveAfter, r: Report)
    requires Destroyable(st, x)
    ensures r in FreeStep(st, x, at, live).reports <==> DestructionCause(r, x, st, live)
  {
  }

  lemma DestructionReportsExactly(st: FlowState, x: Storage, at: nat, live: LiveAfter, r: Report)
    ensures r in FreeStep(st, x, at, live).reports <==> DestructionCause(r, x, st, live)
  {
    if Destroyable(st, x) { ResolvedDestruction(st, x, at, live, r); }
  }

  lemma BindingAccessExactly(st: FlowState, x: Storage, r: Report)
    requires Judged(st, x) && !r.BorrowConflict?
    ensures r in BindingAccessReports(st, x) <==> AccessCause(r, x, st)
  {
  }

  lemma OwnerAccessExactly(st: FlowState, x: Storage, r: Report)
    requires Judged(st, x)
    ensures r in OwnerAccessReports(st, x) <==> r.BorrowConflict? && AccessCause(r, x, st)
  {
  }

  lemma AccessReportsExactly(st: FlowState, x: Storage, r: Report)
    ensures r in AccessReports(st, x) <==> AccessCause(r, x, st)
  {
    if Judged(st, x) {
      OwnerAccessExactly(st, x, r);
      if !r.BorrowConflict? { BindingAccessExactly(st, x, r); }
    }
  }

  lemma UnrefinedPassedExactly(st: FlowState, p: Production, taken: bool)
    ensures PassesUnrefined(st, p, taken) <==> exists v :: Marked(st, v) && PassedOn(v, p, taken)
  {
    if v :| Marked(st, v) && PassedOn(v, p, taken) {
      assert v in st.storages && st.storages[v].producedMaybe;
    }
    if PassesUnrefined(st, p, taken) {
      var v :| v in st.storages && st.storages[v].producedMaybe && (v in p.arguments || (!taken && v == p.dest));
      assert Marked(st, v) && PassedOn(v, p, taken);
    }
  }

  lemma TakenExactly(st: FlowState, p: Production, decl: bool, at: nat)
    ensures Accepts(st, p) <==> Takes(st, p)
    ensures ProduceStep(st, p, decl, at).reports ==
      (if PassesUnrefined(st, p, Takes(st, p)) then {UnrefinedOutOwnerUse} else {}) +
      (if !Takes(st, p) then {PointerOutput} else if ObjectIdFor(p.site, 0) == UNKNOWN_ID then {IdExhausted} else {})
  {
  }

  /** A producing call is refused exactly when its slot cannot be written. */
  lemma ProductionReportsExactly(st: FlowState, p: Production, decl: bool, at: nat, r: Report)
    ensures r in ProduceStep(st, p, decl, at).reports <==> ProductionCause(r, p, st)
  {
    TakenExactly(st, p, decl, at);
    UnrefinedPassedExactly(st, p, Takes(st, p));
  }

  /** Assignments also end guards; that changes no cause. */
  lemma WrittenAllocation(x: Storage, site: Site, decl: bool, st: FlowState, r: Report)
    ensures AllocationCause(r, x, site, decl, Written(st, x, decl)) <==> AllocationCause(r, x, site, decl, st)
  {
    var st' := Written(st, x, decl);
    assert StillNamed(st', x, site) <==> StillNamed(st, x, site);
  }

  lemma WrittenMove(x: Storage, y: Storage, decl: bool, st: FlowState, r: Report)
    ensures MoveCause(r, x, y, Written(st, x, decl)) <==> MoveCause(r, x, y, st)
  {
  }

  lemma WrittenCopy(x: Storage, y: Storage, decl: bool, at: nat, st: FlowState, r: Report)
    ensures r in CopyStep(Written(st, x, decl), x, y, at).reports <==> CopyCause(r, y, st)
  {
  }

  lemma AssignmentReportsExactly(r: Report, c: Cmd, st: FlowState, live: LiveAfter)
    requires Wf(st) && forall s :: s in st.generations ==> st.generations[s] <= 1
    requires c.Malloc? || c.Move?
    ensures r in Step(c, st, live).reports <==> Cause(r, c, st, live)
  {
    if c.Malloc? {
      WrittenAllocation(c.x, c.site, c.decl, st, r);
      AllocationReportsExactly(Written(st, c.x, c.decl), c.x, c.site, c.decl, c.at, r);
    } else {
      WrittenMove(c.x, c.y, c.decl, st, r);
      MoveReportsExactly(Written(st, c.x, c.decl), c.x, c.y, c.at, r);
    }
  }

  lemma UseReportsExactly(r: Report, c: Cmd, st: FlowState, live: LiveAfter)
    requires c.Free? || c.Deref? || c.Produce?
    ensures r in Step(c, st, live).reports <==> Cause(r, c, st, live)
  {
    if c.Free? {
      DestructionReportsExactly(st, c.x, c.at, live, r);
    } else if c.Deref? {
      AccessReportsExactly(st, c.x, r);
    } else {
      ProductionReportsExactly(st, c.production, c.decl, c.at, r);
    }
  }

  lemma CopyReportsExactly(r: Report, c: Cmd, st: FlowState, live: LiveAfter)
    requires Wf(st) && (c.Copy? || c.Borrow?)
    ensures r in Step(c, st, live).reports <==> Cause(r, c, st, live)
  {
    if c.Copy? {
      WrittenCopy(c.x, c.y, c.decl, c.at, st, r);
    } else {
      BorrowReportsExactly(st, c.x, c.y, c.kind, c.at, r);
    }
  }

  lemma OtherReportsExactly(r: Report, c: Cmd, st: FlowState, live: LiveAfter)
    requires Simple(c) && !c.Deref?
    ensures r in Step(c, st, live).reports <==> Cause(r, c, st, live)
  {
  }

  /** Every report is made exactly when its cause is there. */
  lemma ReportedExactly(r: Report, c: Cmd, st: FlowState, live: LiveAfter)
    requires Wf(st) && forall s :: s in st.generations ==> st.generations[s] <= 1
    ensures r in Step(c, st, live).reports <==> Cause(r, c, st, live)
  {
    if c.Malloc? || c.Move? {
      AssignmentReportsExactly(r, c, st, live);
    } else if c.Copy? || c.Borrow? {
      CopyReportsExactly(r, c, st, live);
    } else if c.Free? || c.Deref? || c.Produce? {
      UseReportsExactly(r, c, st, live);
    } else {
      OtherReportsExactly(r, c, st, live);
    }
  }

  /** So it is in every state that a program in scope can come to. */
  lemma ReachableReportsExactly(blocks: seq<Block>, r: Report, c: Cmd, st: FlowState, live: LiveAfter)
    requires SmallSites(blocks) && Reachable(st, blocks)
    ensures r in Step(c, st, live).reports <==> Cause(r, c, st, live)
  {
    ReachableIsSane(blocks, st);
    ReportedExactly(r, c, st, live);
  }

  // ---------------------------------------------------------------------------------------------
  // Whole programs
  // ---------------------------------------------------------------------------------------------

  ghost predicate ReportedAt(r: Report, cmds: seq<Cmd>, st: FlowState, live: seq<LiveAfter>, k: nat) {
    k < |cmds| == |live| && r in Step(cmds[k], StateBefore(cmds, st, live, k), live[k]).reports
  }

  ghost predicate ReportedBelow(r: Report, cmds: seq<Cmd>, st: FlowState, live: seq<LiveAfter>, n: nat) {
    exists k: nat :: k < n && ReportedAt(r, cmds, st, live, k)
  }

  lemma ReportedNext(r: Report, cmds: seq<Cmd>, st: FlowState, live: seq<LiveAfter>, n: nat)
    ensures ReportedBelow(r, cmds, st, live, n + 1) <==>
      ReportedBelow(r, cmds, st, live, n) || ReportedAt(r, cmds, st, live, n)
  {
  }

  lemma {:induction false} BlockReportsExactly(r: Report, cmds: seq<Cmd>, st: FlowState, live: seq<LiveAfter>, n: nat)
    requires n <= |cmds| == |live|
    ensures r in ReportsBefore(cmds, st, live, n) <==> ReportedBelow(r, cmds, st, live, n)
  {
    if n == 0 {
      assert cmds[..0] == [] && live[..0] == [];
    } else {
      BlockReportsExactly(r, cmds, st, live, n - 1);
      ReportsBeforeNext(cmds, st, live, n - 1);
      ReportedNext(r, cmds, st, live, n - 1);
    }
  }

  lemma {:induction false} EmittedFrom(blocks: seq<Block>, ins: map<nat, FlowState>, after: map<L.Point, set<Storage>>,
      n: nat, r: Report)
    requires n <= |blocks| && r in EmittedBelow(blocks, ins, after, n)
    ensures exists b :: b in ins && b < n && r in EmitBlock(blocks, ins, after, b).reports
  {
    if !(n - 1 in ins && r in EmitBlock(blocks, ins, after, n - 1).reports) {
      EmittedFrom(blocks, ins, after, n - 1, r);
    }
  }

  /** Element `k` of block `b` has a cause for the report in the reporting pass. */
  ghost predicate CausedAt(r: Report, blocks: seq<Block>, ins: map<nat, FlowState>, after: map<L.Point, set<Storage>>,
      b: nat, k: nat) {
    && b in ins && b < |blocks| && k < |blocks[b].cmds|
    && Cause(r, blocks[b].cmds[k], StateBefore(blocks[b].cmds, ins[b], LiveOf(blocks, after, b), k),
         LiveOf(blocks, after, b)[k])
  }

  lemma ReportedIsCaused(r: Report, blocks: seq<Block>, ins: map<nat, FlowState>, after: map<L.Point, set<Storage>>,
      b: nat, k: nat)
    requires SmallSites(blocks) && b in ins && b < |blocks| && Reachable(ins[b], blocks)
    ensures ReportedAt(r, blocks[b].cmds, ins[b], LiveOf(blocks, after, b), k) <==>
      CausedAt(r, blocks, ins, after, b, k)
  {
    if k < |blocks[b].cmds| {
      var cmds, live := blocks[b].cmds, LiveOf(blocks, after, b);
      ReachableRun(ins[b], blocks, b, k, live[..k]);
      ReachableReportsExactly(blocks, r, cmds[k], StateBefore(cmds, ins[b], live, k), live[k]);
    }
  }

  lemma BlockIsCaused(r: Report, blocks: seq<Block>, ins: map<nat, FlowState>,
      after: map<L.Point, set<Storage>>, b: nat)
    requires SmallSites(blocks) && b in ins && b < |blocks| && Reachable(ins[b], blocks)
    ensures r in EmitBlock(blocks, ins, after, b).reports <==> exists k :: CausedAt(r, blocks, ins, after, b, k)
  {
    var cmds, live := blocks[b].cmds, LiveOf(blocks, after, b);
    assert cmds[..|cmds|] == cmds && live[..|cmds|] == live;
    BlockReportsExactly(r, cmds, ins[b], live, |cmds|);
    forall k: nat ensures ReportedAt(r, cmds, ins[b], live, k) <==> CausedAt(r, blocks, ins, after, b, k) {
      ReportedIsCaused(r, blocks, ins, after, b, k);
    }
  }

  /** The analysis reports something exactly if some element has a cause for it, so a program passes exactly
      if no element has any. */
  lemma EmittedExactly(r: Report, blocks: seq<Block>, ins: map<nat, FlowState>, after: map<L.Point, set<Storage>>)
    requires SmallSites(blocks) && forall b :: b in ins ==> Reachable(ins[b], blocks)
    ensures r in Emitted(blocks, ins, after) <==> exists b, k :: CausedAt(r, blocks, ins, after, b, k)
  {
    if r in Emitted(blocks, ins, after) {
      EmittedFrom(blocks, ins, after, |blocks|, r);
      var b :| b in ins && b < |blocks| && r in EmitBlock(blocks, ins, after, b).reports;
      BlockIsCaused(r, blocks, ins, after, b);
    }
    if b, k :| CausedAt(r, blocks, ins, after, b, k) {
      BlockIsCaused(r, blocks, ins, after, b);
      EmittedContains(blocks, ins, after, |blocks|, b);
    }
  }
}
