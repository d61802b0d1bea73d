/** Destroying an object while a borrow of it is live and still used: which of these destructions the
    reporting pass reports, and when it reports them all. */
module Borrowed {
  import opened Flow
  import opened Options
  import opened Transfer
  import opened Program
  import opened Ownership
  import opened Renaming
  import opened Worklist
  import opened Soundness
  import opened Agreement
  import L = Liveness

  // ---------------------------------------------------------------------------------------------
  // Which destructions are reported
  // ---------------------------------------------------------------------------------------------

  /** The storage names an object that the destruction may go on to destroy. */
  predicate Destructible(st: FlowState, x: Storage) {
    && x in st.storages && !st.storages[x].producedMaybe && st.storages[x].id != NULL_ID
    && st.storages[x].id != UNKNOWN_ID && st.storages[x].id in st.objects
    && !(st.objects[st.storages[x].id].origin == Parameter && st.objects[st.storages[x].id].capability == MayBorrow)
  }

  predicate LiveBorrowOf(st: FlowState, v: Storage, id: ObjectId) {
    v in st.borrows && st.borrows[v].parent == id && st.borrows[v].state == Live
  }

  lemma FreeReportsLiveBorrows(st: FlowState, x: Storage, at: nat, live: LiveAfter, v: Storage)
    ensures DestroyedWhileBorrowed(v) in FreeStep(st, x, at, live).reports <==>
      Destructible(st, x) && LiveBorrowOf(st, v, st.storages[x].id) && LiveIn(live, v)
  {
    if Destructible(st, x) {
      assert DestroyedWhileBorrowed(v) !in DestroyStep(st, x, st.storages[x], at).reports;
    }
  }

  /** Element `k` of block `b` destroys an object of which `v` is a live borrow in the reporting pass,
      and some path from there uses `v` before overwriting it. */
  ghost predicate DestroysUsedBorrow(blocks: seq<Block>, ins: map<nat, FlowState>, after: map<L.Point, set<Storage>>,
      b: nat, k: nat, v: Storage)
    requires b in ins && b < |blocks| && k < |blocks[b].cmds| && blocks[b].cmds[k].Free?
  {
    var st, x := StateBefore(blocks[b].cmds, ins[b], LiveOf(blocks, after, b), k), blocks[b].cmds[k].x;
    Destructible(st, x) && LiveBorrowOf(st, v, st.storages[x].id) && L.UsedLater(FullGraph(blocks), (b, k + 1), v)
  }

  ghost predicate ReportedThere(blocks: seq<Block>, ins: map<nat, FlowState>, after: map<L.Point, set<Storage>>, b: nat,
      k: nat, v: Storage)
    requires b in ins && b < |blocks| && k < |blocks[b].cmds|
  {
    var live := LiveOf(blocks, after, b);
    DestroyedWhileBorrowed(v) in Step(blocks[b].cmds[k], StateBefore(blocks[b].cmds, ins[b], live, k), live[k]).reports
  }

  /** A destruction reports exactly the live borrows of its object that some path of the program still
      uses, among those that the converging pass managed to create. */
  lemma DestructionReportsUsedBorrows(blocks: seq<Block>, entry: nat, ins: map<nat, FlowState>, known: set<Storage>,
      after: map<L.Point, set<Storage>>, b: nat, k: nat, v: Storage)
    requires Analysed(blocks, entry, ins, known, after)
    requires b in ins && b < |blocks| && k < |blocks[b].cmds| && blocks[b].cmds[k].Free?
    ensures ReportedThere(blocks, ins, after, b, k, v) <==>
      DestroysUsedBorrow(blocks, ins, after, b, k, v) && v in known
  {
    var live := LiveOf(blocks, after, b);
    var st := StateBefore(blocks[b].cmds, ins[b], live, k);
    LiveMeansUsedLater(blocks, known, after, b, k, v);
    TrackedUses(blocks, known, (b, k + 1), v);
    FreeReportsLiveBorrows(st, blocks[b].cmds[k].x, blocks[b].cmds[k].at, live[k], v);
  }

  // ---------------------------------------------------------------------------------------------
  // Shared borrows never conflict
  // ---------------------------------------------------------------------------------------------

  ghost predicate NoMutableBorrows(blocks: seq<Block>) {
    forall b, k :: 0 <= b < |blocks| && 0 <= k < |blocks[b].cmds| ==>
      !(blocks[b].cmds[k].Borrow? && blocks[b].cmds[k].kind == Mutable)
  }

  predicate OnlyShared(st: FlowState) {
    forall v :: v in st.borrows ==> st.borrows[v].kind == Shared
  }

  lemma FreeShared(st: FlowState, x: Storage, at: nat, live: LiveAfter)
    requires OnlyShared(st)
    ensures OnlyShared(FreeStep(st, x, at, live).state)
  {
  }

  lemma BorrowShared(st: FlowState, x: Storage, y: Storage, at: nat)
    requires OnlyShared(st)
    ensures OnlyShared(BorrowStep(st, x, y, Shared, at).state)
    ensures NewBorrowConflict !in BorrowStep(st, x, y, Shared, at).reports
  {
  }

  lemma CopyShared(st: FlowState, x: Storage, y: Storage, at: nat)
    requires OnlyShared(st)
    ensures OnlyShared(CopyStep(st, x, y, at).state)
  {
  }

  lemma StepShared(c: Cmd, st: FlowState, live: LiveAfter)
    requires OnlyShared(st) && !(c.Borrow? && c.kind == Mutable)
    ensures OnlyShared(Step(c, st, live).state)
  {
    match c
    case Malloc(x, site, decl, at) => MallocBorrows(Written(st, x, decl), x, site, decl, at);
    case Move(x, y, decl, at) => MoveBorrows(Written(st, x, decl), x, y, at);
    case Copy(x, y, decl, at) => CopyShared(Written(st, x, decl), x, y, at);
    case Borrow(x, y, _, at) => BorrowShared(st, x, y, at);
    case Free(x, at) => FreeShared(st, x, at, live);
    case Produce(p, decl, at) => ProduceBorrows(st, p, decl, at);
    case _ =>
  }

  lemma {:induction false} DerivedShared(d: Derivation, blocks: seq<Block>)
    requires DerivesFrom(d, blocks) && NoMutableBorrows(blocks)
    ensures OnlyShared(Derived(d))
  {
    match d
    case Start =>
    case Element(before, c, live) =>
      DerivedShared(before, blocks);
      StepShared(c, Derived(before), live);
    case Edge(before, block, i) =>
      DerivedShared(before, blocks);
      EdgeStateShape(block, i, Derived(before));
    case Join(l, r) =>
      DerivedShared(l, blocks);
      DerivedShared(r, blocks);
  }

  lemma ReachableShared(st: FlowState, blocks: seq<Block>)
    requires Reachable(st, blocks) && NoMutableBorrows(blocks)
    ensures OnlyShared(st)
  {
    var d :| DerivesFrom(d, blocks) && Derived(d) == st;
    DerivedShared(d, blocks);
  }

  // ---------------------------------------------------------------------------------------------
  // After silence, what the reporting pass borrows the converging pass borrows too
  // ---------------------------------------------------------------------------------------------

  /** If the reporting pass creates a shared borrow, so does the converging pass. */
  lemma SharedIsCreated(e: FlowState, s: FlowState, x: Storage, y: Storage, at: nat, live: LiveAfter)
    requires Renamed(e, s) && OnlyShared(s)
    requires x in Step(Borrow(x, y, Shared, at), e, live).created
    ensures x in Step(Borrow(x, y, Shared, at), s, Unmeasured).created
  {
    assert RenamedAt(e, s, y);
    BorrowShared(s, x, y, at);
  }

  lemma CreationIsRecorded(cmds: seq<Cmd>, st: FlowState, live: seq<LiveAfter>, k: nat, v: Storage)
    requires k < |cmds| == |live| && v in Step(cmds[k], StateBefore(cmds, st, live, k), live[k]).created
    ensures v in CreatedBefore(cmds, st, live, k + 1)
  {
    RunBlockNext(cmds, st, live, k);
  }

  lemma CreatedBeforeEnd(b: Block, st: FlowState)
    ensures CreatedBefore(b.cmds, st, NothingMeasured(|b.cmds|), |b.cmds|) == CreatedIn(b, st)
  {
    var none := NothingMeasured(|b.cmds|);
    assert b.cmds[..|b.cmds|] == b.cmds && none[..|b.cmds|] == none;
  }

  lemma CreationIsKnown(blocks: seq<Block>, entry: nat, ins: map<nat, FlowState>, known: set<Storage>,
      after: map<L.Point, set<Storage>>, b: nat, k: nat, v: Storage)
    requires Analysed(blocks, entry, ins, known, after) && b in ins && b < |blocks| && k < |blocks[b].cmds|
    requires v in Step(blocks[b].cmds[k], StateBefore(blocks[b].cmds, ins[b], NothingMeasured(|blocks[b].cmds|), k),
      Unmeasured).created
    ensures v in known
  {
    var cmds, none := blocks[b].cmds, NothingMeasured(|blocks[b].cmds|);
    CreationIsRecorded(cmds, ins[b], none, k, v);
    PrefixCreates(cmds, ins[b], none, k + 1, |cmds|);
    CreatedBeforeEnd(blocks[b], ins[b]);
  }

  lemma SilentCreationIsKnown(blocks: seq<Block>, entry: nat, ins: map<nat, FlowState>, known: set<Storage>,
      after: map<L.Point, set<Storage>>, b: nat, k: nat, v: Storage)
    requires Ordinary(blocks, entry) && NoMutableBorrows(blocks) && Analysed(blocks, entry, ins, known, after)
    requires b in ins && b < |blocks| && k < |blocks[b].cmds| &&
      forall l: nat :: l < k ==> SilentAt(blocks, ins, after, b, l)
    requires var live := LiveOf(blocks, after, b);
      v in Step(blocks[b].cmds[k], StateBefore(blocks[b].cmds, ins[b], live, k), live[k]).created
    ensures v in known
  {
    var c, live, none := blocks[b].cmds[k], LiveOf(blocks, after, b), NothingMeasured(|blocks[b].cmds|);
    var e, s := StateBefore(blocks[b].cmds, ins[b], live, k), StateBefore(blocks[b].cmds, ins[b], none, k);
    CreatesBorrowVariables(c, e, live[k], v);
    PrefixesAgree(blocks, entry, ins, known, after, b, k);
    PrefixFacts(blocks, entry, ins, none, b, k);
    ReachableShared(s, blocks);
    SharedIsCreated(e, s, c.x, c.y, c.at, live[k]);
    CreationIsKnown(blocks, entry, ins, known, after, b, k, v);
  }

  lemma BorrowsNext(cmds: seq<Cmd>, st: FlowState, live: seq<LiveAfter>, k: nat, v: Storage)
    requires k < |cmds| == |live| && v in StateBefore(cmds, st, live, k + 1).borrows
    ensures v in StateBefore(cmds, st, live, k).borrows ||
      v in Step(cmds[k], StateBefore(cmds, st, live, k), live[k]).created
  {
    StateBeforeNext(cmds, st, live, k);
    StepBorrows(cmds[k], StateBefore(cmds, st, live, k), live[k]);
  }

  /** A borrow of the reporting pass is known, if no element before it in the block is reported. */
  lemma {:induction false} SilentBorrowsAreKnown(blocks: seq<Block>, entry: nat, ins: map<nat, FlowState>,
      known: set<Storage>, after: map<L.Point, set<Storage>>, b: nat, k: nat, v: Storage)
    requires Ordinary(blocks, entry) && NoMutableBorrows(blocks) && Analysed(blocks, entry, ins, known, after)
    requires b in ins && b < |blocks| && k <= |blocks[b].cmds| &&
      forall l: nat :: l < k ==> SilentAt(blocks, ins, after, b, l)
    requires v in StateBefore(blocks[b].cmds, ins[b], LiveOf(blocks, after, b), k).borrows
    ensures v in known
  {
    var cmds, live := blocks[b].cmds, LiveOf(blocks, after, b);
    if k == 0 {
      assert cmds[..0] == [] && live[..0] == [];
    } else {
      BorrowsNext(cmds, ins[b], live, k - 1, v);
      if v in StateBefore(cmds, ins[b], live, k - 1).borrows {
        SilentBorrowsAreKnown(blocks, entry, ins, known, after, b, k - 1, v);
      } else {
        SilentCreationIsKnown(blocks, entry, ins, known, after, b, k - 1, v);
      }
    }
  }

  /** Without mutable borrows: a destruction that no report precedes in its block reports exactly the
      live borrows of its object that some path still uses. */
  lemma UsedSharedBorrowsAreReported(blocks: seq<Block>, entry: nat, ins: map<nat, FlowState>, known: set<Storage>,
      after: map<L.Point, set<Storage>>, b: nat, k: nat, v: Storage)
    requires Ordinary(blocks, entry) && NoMutableBorrows(blocks) && Analysed(blocks, entry, ins, known, after)
    requires b in ins && b < |blocks| && k < |blocks[b].cmds| && blocks[b].cmds[k].Free?
    requires forall l: nat :: l < k ==> SilentAt(blocks, ins, after, b, l)
    ensures ReportedThere(blocks, ins, after, b, k, v) <==> DestroysUsedBorrow(blocks, ins, after, b, k, v)
  {
    DestructionReportsUsedBorrows(blocks, entry, ins, known, after, b, k, v);
    if DestroysUsedBorrow(blocks, ins, after, b, k, v) {
      SilentBorrowsAreKnown(blocks, entry, ins, known, after, b, k, v);
    }
  }

  // ---------------------------------------------------------------------------------------------
  // Without moves either, the reporting pass only forgets
  // ---------------------------------------------------------------------------------------------

  /** The two states differ only in borrows that `e` has forgotten. */
  ghost predicate Forgets(e: FlowState, c: FlowState) {
    && e == c.(borrows := e.borrows)
    && forall v :: v in e.borrows ==> v in c.borrows && e.borrows[v] == c.borrows[v]
  }

  lemma BorrowForgets(e: FlowState, c: FlowState, x: Storage, y: Storage, at: nat)
    requires Forgets(e, c) && OnlyShared(c)
    ensures Forgets(BorrowStep(e, x, y, Shared, at).state, BorrowStep(c, x, y, Shared, at).state)
  {
    BorrowShared(e, x, y, at);
    BorrowShared(c, x, y, at);
  }

  lemma FreeForgets(e: FlowState, c: FlowState, x: Storage, at: nat, le: LiveAfter, lc: LiveAfter)
    requires Forgets(e, c)
    ensures Forgets(FreeStep(e, x, at, le).state, FreeStep(c, x, at, lc).state)
  {
    if Destructible(c, x) {
      DestroyForgets(e, c, x, c.storages[x], at);
    }
  }

  lemma DestroyForgets(e: FlowState, c: FlowState, x: Storage, b: Binding, at: nat)
    requires Forgets(e, c) && b.id in c.objects
    ensures Forgets(DestroyStep(e, x, b, at).state, DestroyStep(c, x, b, at).state)
  {
    InvalidationForgets(Destroyed(e, x, b.id, Dead, at), Destroyed(c, x, b.id, Dead, at), b.id, at);
  }

  lemma InvalidationForgets(e: FlowState, c: FlowState, id: ObjectId, at: nat)
    requires Forgets(e, c)
    ensures Forgets(InvalidateBorrows(e, id, at), InvalidateBorrows(c, id, at))
  {
  }

  lemma AllocateForgets(e: FlowState, c: FlowState, x: Storage, site: Site, generation: nat, at: nat)
    requires Forgets(e, c)
    ensures Forgets(AllocateAs(e, x, site, generation, at).state, AllocateAs(c, x, site, generation, at).state)
  {
  }

  lemma MallocForgets(e: FlowState, c: FlowState, x: Storage, site: Site, at: nat)
    requires Forgets(e, c)
    requires site !in c.widened ==> Retained(site, x, e) == Retained(site, x, c)
    ensures Forgets(BindAllocation(e, x, site, at).state, BindAllocation(c, x, site, at).state)
  {
    var g := Generation(c, site);
    var e1, c1 := e.(generations := e.generations[site := g]), c.(generations := c.generations[site := g]);
    assert Forgets(e1, c1);
    if site !in c.widened {
      assert Retained(site, x, e1) == Retained(site, x, e) && Retained(site, x, c1) == Retained(site, x, c);
      if !Retained(site, x, c1) {
        AllocateForgets(e1, c1, x, site, g, at);
      } else if g == 0 {
        var e2 := e1.(generations := e1.generations[site := 1]);
        var c2 := c1.(generations := c1.generations[site := 1]);
        AllocateForgets(e2, c2, x, site, 1, at);
      }
    }
  }

  lemma MallocStepForgets(e: FlowState, s: FlowState, x: Storage, site: Site, decl: bool, at: nat)
    requires Forgets(e, s)
    requires site !in s.widened ==> Retained(site, x, e) == Retained(site, x, s)
    ensures Forgets(MallocStep(e, x, site, decl, at).state, MallocStep(s, x, site, decl, at).state)
  {
    MallocForgets(e, s, x, site, at);
  }

  lemma WrittenForgets(e: FlowState, s: FlowState, x: Storage, decl: bool)
    requires Forgets(e, s)
    ensures Forgets(Written(e, x, decl), Written(s, x, decl)) &&
      Forgets(KillForWrite(e, x, None), KillForWrite(s, x, None))
  {
  }

  lemma ExpiryForgets(e: FlowState, s: FlowState, live: LiveAfter)
    requires Forgets(e, s)
    ensures Forgets(ExpireBorrows(e, live), ExpireBorrows(s, Unmeasured))
  {
    assert ExpireBorrows(s, Unmeasured).borrows == s.borrows;
  }

  lemma CopyForgets(e: FlowState, s: FlowState, x: Storage, y: Storage, at: nat)
    requires Forgets(e, s)
    ensures Forgets(CopyStep(e, x, y, at).state, CopyStep(s, x, y, at).state)
  {
  }

  lemma ProduceForgets(e: FlowState, s: FlowState, p: Production, decl: bool, at: nat)
    requires Forgets(e, s)
    ensures Forgets(ProduceStep(e, p, decl, at).state, ProduceStep(s, p, decl, at).state)
  {
    var accepted := Accepts(s, p);
    var e1, s1 := KillInCall(e, p, accepted), KillInCall(s, p, accepted);
    assert Forgets(e1, s1);
    if accepted {
      ApplyForgets(e1, s1, p, at);
      e1, s1 := RecordGuard(ApplyProduce(e1, p, at).state, p), RecordGuard(ApplyProduce(s1, p, at).state, p);
    }
    if p.result.Some? && !decl {
      KillForgets(e1, s1, p.result.value, Some(p.call));
    }
  }

  lemma ApplyForgets(e: FlowState, s: FlowState, p: Production, at: nat)
    requires Forgets(e, s)
    ensures Forgets(RecordGuard(ApplyProduce(e, p, at).state, p), RecordGuard(ApplyProduce(s, p, at).state, p))
  {
  }

  lemma KillForgets(e: FlowState, s: FlowState, x: Storage, exempt: Option<nat>)
    requires Forgets(e, s)
    ensures Forgets(KillForWrite(e, x, exempt), KillForWrite(s, x, exempt))
  {
  }

  /** Elements that assign. */
  lemma AssignmentForgets(c: Cmd, e: FlowState, s: FlowState, live: LiveAfter)
    requires Forgets(e, s) && (c.Malloc? || c.Copy? || c.SetNull? || c.StoreScalar?)
    requires c.Malloc? && c.site !in s.widened ==> Retained(c.site, c.x, e) == Retained(c.site, c.x, s)
    ensures Forgets(Step(c, e, live).state, Step(c, s, Unmeasured).state)
  {
    WrittenForgets(e, s, c.x, c.decl);
    var e', s' := Written(e, c.x, c.decl), Written(s, c.x, c.decl);
    match c
    case Malloc(x, site, decl, at) => MallocStepForgets(e', s', x, site, decl, at);
    case Copy(x, y, decl, at) => CopyForgets(e', s', x, y, at);
    case _ =>
  }

  lemma BumpForgets(e: FlowState, s: FlowState, x: Storage, at: nat, live: LiveAfter)
    requires Forgets(e, s)
    ensures Forgets(Step(Bump(x, at), e, live).state, Step(Bump(x, at), s, Unmeasured).state)
  {
    WrittenForgets(e, s, x, false);
    var e', s' := BindUnresolved(KillForWrite(e, x, None), x, at), BindUnresolved(KillForWrite(s, x, None), x, at);
    ExpiryForgets(e', s', live);
  }

  lemma StepForgets(c: Cmd, e: FlowState, s: FlowState, live: LiveAfter)
    requires Forgets(e, s) && OnlyShared(s) && !c.Move? && !(c.Borrow? && c.kind == Mutable)
    requires c.Malloc? && c.site !in s.widened ==> Retained(c.site, c.x, e) == Retained(c.site, c.x, s)
    ensures Forgets(Step(c, e, live).state, Step(c, s, Unmeasured).state)
  {
    match c
    case Borrow(x, y, _, at) => BorrowForgets(e, s, x, y, at);
    case Free(x, at) =>
      FreeForgets(e, s, x, at, live, Unmeasured);
      ExpiryForgets(FreeStep(e, x, at, live).state, FreeStep(s, x, at, Unmeasured).state, live);
    case Deref(_, _) => ExpiryForgets(e, s, live);
    case CallPoint => ExpiryForgets(e, s, live);
    case Enclosing(_) =>
    case Bump(x, at) => BumpForgets(e, s, x, at, live);
    case Produce(p, decl, at) =>
      ProduceForgets(e, s, p, decl, at);
      ExpiryForgets(ProduceStep(e, p, decl, at).state, ProduceStep(s, p, decl, at).state, live);
    case Declare(_) =>
    case Opaque =>
    case _ => AssignmentForgets(c, e, s, live);
  }

  lemma ForgottenRetention(e: FlowState, c: FlowState, site: Site, x: Storage)
    requires Forgets(e, c)
    ensures Retained(site, x, e) ==> Retained(site, x, c)
  {
  }

  ghost predicate NoMoves(blocks: seq<Block>) {
    forall b, k :: 0 <= b < |blocks| && 0 <= k < |blocks[b].cmds| ==> !blocks[b].cmds[k].Move?
  }

  lemma {:induction false} PrefixForgets(blocks: seq<Block>, entry: nat, ins: map<nat, FlowState>, live: seq<LiveAfter>,
      b: nat, k: nat)
    requires Ordinary(blocks, entry) && NoMutableBorrows(blocks) && NoMoves(blocks)
    requires PostFixed(blocks, entry, ins) && (forall c :: c in ins ==> ArrivesAt(ins[c], blocks, entry, c))
    requires b in ins && b < |blocks| && k <= |blocks[b].cmds| == |live|
    ensures Forgets(StateBefore(blocks[b].cmds, ins[b], live, k),
      StateBefore(blocks[b].cmds, ins[b], NothingMeasured(|blocks[b].cmds|), k))
  {
    var cmds := blocks[b].cmds;
    var none := NothingMeasured(|cmds|);
    if k == 0 {
      assert cmds[..0] == [] && live[..0] == [] && none[..0] == [];
    } else {
      PrefixForgets(blocks, entry, ins, live, b, k - 1);
      var e, s := StateBefore(cmds, ins[b], live, k - 1), StateBefore(cmds, ins[b], none, k - 1);
      StateBeforeNext(cmds, ins[b], live, k - 1);
      StateBeforeNext(cmds, ins[b], none, k - 1);
      PrefixFacts(blocks, entry, ins, none, b, k - 1);
      ReachableShared(s, blocks);
      if cmds[k - 1].Malloc? {
        BorrowsDoNotDecide(blocks, entry, ins, b, k - 1);
        ForgottenRetention(e, s, cmds[k - 1].site, cmds[k - 1].x);
      }
      StepForgets(cmds[k - 1], e, s, live[k - 1]);
    }
  }

  /** Without mutable borrows and moves, which can be seen from the text: every destruction reports
      exactly the live borrows of its object that some path still uses. */
  lemma UsedBorrowsAreReported(blocks: seq<Block>, entry: nat, ins: map<nat, FlowState>, known: set<Storage>,
      after: map<L.Point, set<Storage>>, b: nat, k: nat, v: Storage)
    requires Ordinary(blocks, entry) && NoMutableBorrows(blocks) && NoMoves(blocks) &&
      Analysed(blocks, entry, ins, known, after)
    requires b in ins && b < |blocks| && k < |blocks[b].cmds| && blocks[b].cmds[k].Free?
    ensures ReportedThere(blocks, ins, after, b, k, v) <==> DestroysUsedBorrow(blocks, ins, after, b, k, v)
  {
    DestructionReportsUsedBorrows(blocks, entry, ins, known, after, b, k, v);
    PrefixForgets(blocks, entry, ins, LiveOf(blocks, after, b), b, k);
    ConvergingBorrowsAreKnown(blocks, entry, ins, known, after, b, k);
  }
}
