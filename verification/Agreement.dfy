/** The reporting pass forgets borrows that the converging pass keeps, and creates borrows that the
    converging pass refuses because of those. Nevertheless, as long as the reporting pass is silent,
    both leave behind the same storages and objects up to the names of the objects: an allocation that
    a kept borrow could influence lies on a cycle around which generations and widenings have already
    flowed, and a borrow that is still moved from is not forgotten. */
module Agreement {
  import opened Flow
  import opened Height
  import opened Options
  import opened Transfer
  import opened Program
  import opened Ownership
  import opened Guards
  import opened Renaming
  import opened Worklist
  import opened Soundness
  import L = Liveness

  predicate AllocatesAt(c: Cmd, s: Site) {
    (c.Malloc? && c.site == s) || (c.Produce? && c.production.site == s)
  }

  /** Every allocating or producing call has its own site. */
  ghost predicate UniqueSites(blocks: seq<Block>) {
    forall b, k, c, l, s ::
      0 <= b < |blocks| && 0 <= k < |blocks[b].cmds| && 0 <= c < |blocks| && 0 <= l < |blocks[c].cmds|
      && AllocatesAt(blocks[b].cmds[k], s) && AllocatesAt(blocks[c].cmds[l], s)
      ==> b == c && k == l
  }

  /** An admissible production is not on a cycle, not even one made of gotos. */
  ghost predicate ProductionsOffCycles(blocks: seq<Block>) {
    forall b, k :: 0 <= b < |blocks| && 0 <= k < |blocks[b].cmds| ==>
      blocks[b].cmds[k].Produce? && blocks[b].cmds[k].production.admissible ==> !Downstream(blocks, false, b, b)
  }

  ghost predicate MentionsSite(st: FlowState, s: Site) {
    || (exists v :: v in st.storages && BelongsToSite(s, st.storages[v].id))
    || (exists v :: v in st.borrows && BelongsToSite(s, st.borrows[v].parent))
  }

  // ---------------------------------------------------------------------------------------------
  // A site is mentioned only downstream of its allocation
  // ---------------------------------------------------------------------------------------------

  lemma RebindMentions(st: FlowState, st': FlowState, x: Storage, b: Binding, s: Site)
    requires !MentionsSite(st, s) && st'.storages == st.storages[x := b] && !BelongsToSite(s, b.id)
    requires forall v :: v in st'.borrows ==> v in st.borrows && st'.borrows[v].parent == st.borrows[v].parent
    ensures !MentionsSite(st', s)
  {
  }

  lemma SameMentions(st: FlowState, st': FlowState, s: Site)
    requires !MentionsSite(st, s) && st'.storages == st.storages
    requires forall v :: v in st'.borrows ==> v in st.borrows && st'.borrows[v].parent == st.borrows[v].parent
    ensures !MentionsSite(st', s)
  {
  }

  lemma MallocMentions(st: FlowState, x: Storage, site: Site, at: nat, s: Site)
    requires !MentionsSite(st, s) && TwoGenerations(st) && 1 <= site < GENERATION_STRIDE && site != s
    ensures !MentionsSite(BindAllocation(st, x, site, at).state, s)
  {
    var g := AllocationShape(st, x, site, at);
    var st' := BindAllocation(st, x, site, at).state;
    if st'.storages[x].id != UNKNOWN_ID {
      IdentityNamesItsSite(site, g);
    }
    RebindMentions(st, st', x, st'.storages[x], s);
  }

  lemma MoveMentions(st: FlowState, x: Storage, y: Storage, at: nat, s: Site)
    requires !MentionsSite(st, s)
    ensures !MentionsSite(MoveStep(st, x, y, at).state, s)
  {
    var st' := MoveStep(st, x, y, at).state;
    if st' != st {
      if KnownNull(st.storages[y]) {
        RebindMentions(st, st', x, st'.storages[x], s);
      } else {
        var given := st.(storages := st.storages[y := st'.storages[y]]);
        RebindMentions(st, given, y, given.storages[y], s);
        RebindMentions(given, st', x, st'.storages[x], s);
      }
    }
  }

  lemma BorrowMentions(st: FlowState, x: Storage, y: Storage, kind: BorrowKind, at: nat, s: Site)
    requires !MentionsSite(st, s)
    ensures !MentionsSite(BorrowStep(st, x, y, kind, at).state, s)
  {
    if y in st.storages && st.storages[y].id != UNKNOWN_ID && st.storages[y].id != NULL_ID {
      var bound := Bind(st, x, st.storages[y].id, Alias, at);
      RebindMentions(st, bound, x, bound.storages[x], s);
    }
  }

  lemma FreeMentions(st: FlowState, x: Storage, at: nat, live: LiveAfter, s: Site)
    requires !MentionsSite(st, s)
    ensures !MentionsSite(ExpireBorrows(FreeStep(st, x, at, live).state, live), s)
  {
    SameMentions(st, ExpireBorrows(FreeStep(st, x, at, live).state, live), s);
  }

  lemma CopyMentions(st: FlowState, x: Storage, y: Storage, at: nat, s: Site)
    requires !MentionsSite(st, s)
    ensures !MentionsSite(CopyStep(st, x, y, at).state, s)
  {
    var st' := CopyStep(st, x, y, at).state;
    if st' != st {
      RebindMentions(st, st', x, st'.storages[x], s);
    }
  }

  lemma ProduceMentions(st: FlowState, p: Production, decl: bool, at: nat, s: Site)
    requires !MentionsSite(st, s) && 1 <= p.site < GENERATION_STRIDE && p.site != s
    ensures !MentionsSite(ProduceStep(st, p, decl, at).state, s)
  {
    var st' := ProduceStep(st, p, decl, at).state;
    if Accepts(st, p) {
      ProduceShape(st, p, decl, at);
      RebindMentions(st, st', p.dest, st'.storages[p.dest], s);
    } else {
      SameMentions(st, st', s);
    }
  }

  lemma StepMentions(c: Cmd, st: FlowState, live: LiveAfter, s: Site)
    requires !MentionsSite(st, s) && TwoGenerations(st) && SmallSite(c) && !AllocatesAt(c, s)
    ensures !MentionsSite(Step(c, st, live).state, s)
  {
    match c
    case Malloc(x, site, decl, at) =>
      SameMentions(st, Written(st, x, decl), s);
      MallocMentions(Written(st, x, decl), x, site, at, s);
    case Move(x, y, decl, at) =>
      SameMentions(st, Written(st, x, decl), s);
      MoveMentions(Written(st, x, decl), x, y, at, s);
    case Borrow(x, y, kind, at) => BorrowMentions(st, x, y, kind, at, s);
    case SetNull(x, decl, at) =>
      var st' := Bind(Written(st, x, decl), x, NULL_ID, Null, at);
      RebindMentions(st, st', x, st'.storages[x], s);
    case Copy(x, y, decl, at) =>
      SameMentions(st, Written(st, x, decl), s);
      CopyMentions(Written(st, x, decl), x, y, at, s);
    case Bump(x, at) =>
      var st' := ExpireBorrows(BindUnresolved(KillForWrite(st, x, None), x, at), live);
      RebindMentions(st, st', x, st'.storages[x], s);
    case Free(x, at) => FreeMentions(st, x, at, live, s);
    case Deref(_, _) => SameMentions(st, ExpireBorrows(st, live), s);
    case CallPoint => SameMentions(st, ExpireBorrows(st, live), s);
    case Enclosing(_) =>
    case StoreScalar(x, decl) => SameMentions(st, Written(st, x, decl), s);
    case Produce(p, decl, at) =>
      ProduceMentions(st, p, decl, at, s);
      SameMentions(ProduceStep(st, p, decl, at).state, Step(c, st, live).state, s);
    case Declare(_) =>
    case Opaque =>
  }

  lemma EdgeMentions(b: Block, i: nat, st: FlowState, s: Site)
    requires !MentionsSite(st, s)
    ensures !MentionsSite(EdgeState(b, i, st), s)
  {
    var st' := EdgeState(b, i, st);
    EdgeStateShape(b, i, st);
    if st'.storages == st.storages {
      SameMentions(st, st', s);
    } else {
      var x, nb :| x in st.storages && st'.storages == st.storages[x := nb] && RefinedTo(st.storages[x], nb);
      RebindMentions(st, st', x, nb, s);
    }
  }

  lemma JoinMentions(a: FlowState, b: FlowState, s: Site)
    requires !MentionsSite(a, s) && !MentionsSite(b, s)
    ensures !MentionsSite(JoinFlow(a, b), s)
  {
    var j := JoinFlow(a, b);
    forall v | v in j.storages ensures !BelongsToSite(s, j.storages[v].id) {
      JoinedId(BindingAt(a, v), BindingAt(b, v));
    }
  }

  lemma {:induction false} RunMentions(cmds: seq<Cmd>, st: FlowState, live: seq<LiveAfter>, s: Site)
    requires |live| == |cmds| && !MentionsSite(st, s) && TwoGenerations(st)
    requires forall k :: 0 <= k < |cmds| ==> SmallSite(cmds[k]) && !AllocatesAt(cmds[k], s)
    ensures !MentionsSite(RunBlock(cmds, st, live).state, s) && TwoGenerations(RunBlock(cmds, st, live).state)
  {
    if cmds != [] {
      var n := |cmds| - 1;
      RunMentions(cmds[..n], st, live[..n], s);
      StepMentions(cmds[n], RunBlock(cmds[..n], st, live[..n]).state, live[n], s);
      StepGenerations(cmds[n], RunBlock(cmds[..n], st, live[..n]).state, live[n]);
    }
  }

  /** `b` is the only block that allocates at `s`. */
  ghost predicate Home(blocks: seq<Block>, b: nat, s: Site) {
    forall c, k :: 0 <= c < |blocks| && 0 <= k < |blocks[c].cmds| && AllocatesAt(blocks[c].cmds[k], s) ==> c == b
  }

  lemma {:induction false} MentionedDownstream(d: Arrival, blocks: seq<Block>, entry: nat, c: nat, b: nat, s: Site)
    requires SmallSites(blocks) && Home(blocks, b, s)
    requires Arrives(d, blocks, entry, c) && !Downstream(blocks, false, b, c)
    ensures !MentionsSite(Arrived(d, blocks), s)
  {
    match d
    case Begin =>
    case Along(before, from, i) =>
      if from == b || Downstream(blocks, false, b, from) {
        DownstreamExtends(blocks, false, b, from, c);
        assert false;
      }
      MentionedDownstream(before, blocks, entry, from, b, s);
      ArrivalIsReachable(before, blocks, entry, from);
      ReachableIsSane(blocks, Arrived(before, blocks));
      var n := |blocks[from].cmds|;
      RunMentions(blocks[from].cmds, Arrived(before, blocks), NothingMeasured(n), s);
      EdgeMentions(blocks[from], i, TransferBlock(blocks[from], Arrived(before, blocks)), s);
    case Merge(l, r) =>
      MentionedDownstream(l, blocks, entry, c, b, s);
      MentionedDownstream(r, blocks, entry, c, b, s);
      JoinMentions(Arrived(l, blocks), Arrived(r, blocks), s);
  }

  // ---------------------------------------------------------------------------------------------
  // Generations and widenings flow along paths
  // ---------------------------------------------------------------------------------------------

  ghost predicate NoLower(st: FlowState, st': FlowState, s: Site) {
    Generation(st, s) <= Generation(st', s) && (s in st.widened ==> s in st'.widened)
  }

  lemma MallocRaises(st: FlowState, x: Storage, site: Site, at: nat, s: Site)
    requires TwoGenerations(st) && 1 <= site < GENERATION_STRIDE
    ensures NoLower(st, BindAllocation(st, x, site, at).state, s)
    ensures s != site ==> NoLower(BindAllocation(st, x, site, at).state, st, s)
  {
    var g := AllocationShape(st, x, site, at);
    AllocationWidens(st, x, site, at);
  }

  lemma StepRaises(c: Cmd, st: FlowState, live: LiveAfter, s: Site)
    requires TwoGenerations(st) && SmallSite(c)
    ensures NoLower(st, Step(c, st, live).state, s)
    ensures !AllocatesAt(c, s) ==> NoLower(Step(c, st, live).state, st, s)
  {
    if c.Malloc? {
      MallocRaises(Written(st, c.x, c.decl), c.x, c.site, c.at, s);
    } else {
      OtherGenerations(c, st, live);
    }
  }

  lemma AllocationWidens(st: FlowState, x: Storage, site: Site, at: nat)
    ensures var st' := BindAllocation(st, x, site, at).state;
      st'.widened == st.widened || st'.widened == st.widened + {site}
  {
  }

  lemma {:induction false} PrefixKeepsGenerations(cmds: seq<Cmd>, st: FlowState, live: seq<LiveAfter>, k: nat)
    requires k <= |cmds| == |live| && TwoGenerations(st)
    requires forall i :: 0 <= i < |cmds| ==> SmallSite(cmds[i])
    ensures TwoGenerations(StateBefore(cmds, st, live, k))
  {
    if k == 0 {
      assert cmds[..0] == [] && live[..0] == [];
    } else {
      PrefixKeepsGenerations(cmds, st, live, k - 1);
      StateBeforeNext(cmds, st, live, k - 1);
      StepGenerations(cmds[k - 1], StateBefore(cmds, st, live, k - 1), live[k - 1]);
    }
  }

  lemma ElementRaises(cmds: seq<Cmd>, st: FlowState, live: seq<LiveAfter>, k: nat, s: Site)
    requires k < |cmds| == |live| && TwoGenerations(st)
    requires forall i :: 0 <= i < |cmds| ==> SmallSite(cmds[i])
    ensures NoLower(StateBefore(cmds, st, live, k), StateBefore(cmds, st, live, k + 1), s)
    ensures !AllocatesAt(cmds[k], s) ==> NoLower(StateBefore(cmds, st, live, k + 1), StateBefore(cmds, st, live, k), s)
  {
    PrefixKeepsGenerations(cmds, st, live, k);
    StateBeforeNext(cmds, st, live, k);
    StepRaises(cmds[k], StateBefore(cmds, st, live, k), live[k], s);
  }

  lemma LowerTransitive(a: FlowState, b: FlowState, c: FlowState, s: Site)
    requires NoLower(a, b, s) && NoLower(b, c, s)
    ensures NoLower(a, c, s)
  {
  }

  /** The elements from `j` up to `k` raise generations. */
  lemma {:induction false} SegmentRaises(cmds: seq<Cmd>, st: FlowState, live: seq<LiveAfter>, j: nat, k: nat, s: Site)
    requires j <= k <= |cmds| == |live| && TwoGenerations(st)
    requires forall i :: 0 <= i < |cmds| ==> SmallSite(cmds[i])
    ensures NoLower(StateBefore(cmds, st, live, j), StateBefore(cmds, st, live, k), s)
    decreases k
  {
    if j < k {
      SegmentRaises(cmds, st, live, j, k - 1, s);
      ElementRaises(cmds, st, live, k - 1, s);
      LowerTransitive(StateBefore(cmds, st, live, j), StateBefore(cmds, st, live, k - 1),
        StateBefore(cmds, st, live, k), s);
    }
  }

  lemma TransferRaises(blocks: seq<Block>, b: nat, st: FlowState, s: Site)
    requires SmallSites(blocks) && b < |blocks| && TwoGenerations(st)
    ensures NoLower(st, TransferBlock(blocks[b], st), s)
  {
    var cmds := blocks[b].cmds;
    var live := NothingMeasured(|cmds|);
    SegmentRaises(cmds, st, live, 0, |cmds|, s);
    assert cmds[..0] == [] && live[..0] == [] && cmds[..|cmds|] == cmds && live[..|cmds|] == live;
  }

  lemma EdgeRaises(blocks: seq<Block>, entry: nat, ins: map<nat, FlowState>, p: nat, c: nat, s: Site)
    requires ValidGraph(blocks, entry) && PostFixed(blocks, entry, ins) && p in ins && Connects(blocks, false, p, c)
    ensures c in ins && NoLower(TransferBlock(blocks[p], ins[p]), ins[c], s)
  {
    var out := TransferBlock(blocks[p], ins[p]);
    var i :| 0 <= i < |blocks[p].succs| && blocks[p].succs[i] == Some(c);
    assert EdgesAbsorbed(blocks, ins, p, out);
    assert EdgeAbsorbed(blocks, ins, p, i, out);
    EdgeStateShape(blocks[p], i, out);
    var e := EdgeState(blocks[p], i, out);
    assert JoinFlow(ins[c], e).generations == ins[c].generations && JoinFlow(ins[c], e).widened == ins[c].widened;
    assert s in e.generations ==> s in JoinGenerations(ins[c].generations, e.generations);
  }

  lemma {:induction false} PathRaises(blocks: seq<Block>, entry: nat, ins: map<nat, FlowState>, b: nat, c: nat, n: nat,
      s: Site)
    requires ValidGraph(blocks, entry) && SmallSites(blocks) && PostFixed(blocks, entry, ins)
    requires b in ins && Leads(blocks, false, b, c, n) && forall p :: p in ins ==> TwoGenerations(ins[p])
    ensures c in ins && NoLower(TransferBlock(blocks[b], ins[b]), ins[c], s)
    decreases n
  {
    if n == 1 {
      EdgeRaises(blocks, entry, ins, b, c, s);
    } else {
      var p: nat :| Leads(blocks, false, b, p, n - 1) && Connects(blocks, false, p, c);
      PathRaises(blocks, entry, ins, b, p, n - 1, s);
      TransferRaises(blocks, p, ins[p], s);
      EdgeRaises(blocks, entry, ins, p, c, s);
    }
  }

  // ---------------------------------------------------------------------------------------------
  // Borrows decide no allocation
  // ---------------------------------------------------------------------------------------------

  lemma SitesAreHome(blocks: seq<Block>, b: nat, k: nat, s: Site)
    requires UniqueSites(blocks) && b < |blocks| && k < |blocks[b].cmds| && AllocatesAt(blocks[b].cmds[k], s)
    ensures Home(blocks, b, s)
    ensures forall i :: 0 <= i < |blocks[b].cmds| && i != k ==> !AllocatesAt(blocks[b].cmds[i], s)
  {
  }

  lemma InStatesAreGood(blocks: seq<Block>, entry: nat, ins: map<nat, FlowState>)
    requires SmallSites(blocks) && forall c :: c in ins ==> ArrivesAt(ins[c], blocks, entry, c)
    ensures forall c :: c in ins ==> TwoGenerations(ins[c])
  {
    forall c | c in ins ensures TwoGenerations(ins[c]) {
      ArrivesReachable(ins[c], blocks, entry, c);
      ReachableIsSane(blocks, ins[c]);
    }
  }

  /** A site mentioned at the start of its own block got there around a cycle. */
  lemma MentionsCameAround(blocks: seq<Block>, entry: nat, ins: map<nat, FlowState>, b: nat, s: Site)
    requires ValidGraph(blocks, entry) && SmallSites(blocks) && Home(blocks, b, s)
    requires PostFixed(blocks, entry, ins) && (forall c :: c in ins ==> ArrivesAt(ins[c], blocks, entry, c))
    requires b in ins && MentionsSite(ins[b], s)
    ensures b < |blocks| && NoLower(TransferBlock(blocks[b], ins[b]), ins[b], s)
  {
    InStatesAreGood(blocks, entry, ins);
    var d :| Arrives(d, blocks, entry, b) && Arrived(d, blocks) == ins[b];
    if !Downstream(blocks, false, b, b) {
      MentionedDownstream(d, blocks, entry, b, b, s);
      assert false;
    }
    var n: nat :| Leads(blocks, false, b, b, n);
    PathRaises(blocks, entry, ins, b, b, n, s);
  }

  /** If a kept borrow decided an allocation of a converged block, its generation or widening would
      already have come back around a cycle. */
  lemma BorrowsDoNotDecide(blocks: seq<Block>, entry: nat, ins: map<nat, FlowState>, b: nat, k: nat)
    requires ValidGraph(blocks, entry) && SmallSites(blocks) && UniqueSites(blocks)
    requires PostFixed(blocks, entry, ins) && (forall c :: c in ins ==> ArrivesAt(ins[c], blocks, entry, c))
    requires b in ins && b < |blocks| && k < |blocks[b].cmds| && blocks[b].cmds[k].Malloc?
    ensures var c := blocks[b].cmds[k];
      var st := StateBefore(blocks[b].cmds, ins[b], NothingMeasured(|blocks[b].cmds|), k);
      c.site in st.widened || !Retained(c.site, c.x, st)
  {
    var cmds := blocks[b].cmds;
    var live := NothingMeasured(|cmds|);
    var s := cmds[k].site;
    var st := StateBefore(cmds, ins[b], live, k);
    assert cmds[..|cmds|] == cmds && live[..|cmds|] == live;
    SitesAreHome(blocks, b, k, s);
    InStatesAreGood(blocks, entry, ins);
    PrefixMentions(cmds, ins[b], live, k, s);
    if MentionsSite(st, s) && s !in st.widened && Retained(s, cmds[k].x, st) {
      MentionsCameAround(blocks, entry, ins, b, s);
      RetentionIsSeen(cmds, ins[b], live, k);
      assert false;
    }
  }

  lemma PrefixMentions(cmds: seq<Cmd>, st: FlowState, live: seq<LiveAfter>, k: nat, s: Site)
    requires k <= |cmds| == |live| && TwoGenerations(st)
    requires forall i :: 0 <= i < k ==> SmallSite(cmds[i]) && !AllocatesAt(cmds[i], s)
    ensures MentionsSite(StateBefore(cmds, st, live, k), s) ==> MentionsSite(st, s)
  {
    if !MentionsSite(st, s) {
      RunMentions(cmds[..k], st, live[..k], s);
    }
  }

  lemma RetainedElementRaises(c: Cmd, st: FlowState, s: Site)
    requires c.Malloc? && c.site == s && s !in st.widened && Retained(s, c.x, st) && TwoGenerations(st)
    ensures !NoLower(Step(c, st, Unmeasured).state, st, s)
  {
    RetainedAllocationRaises(Written(st, c.x, c.decl), c.x, s, c.at);
  }

  /** A retained allocation leaves a mark at the end of its block that the start does not have. */
  lemma RetentionIsSeen(cmds: seq<Cmd>, st: FlowState, live: seq<LiveAfter>, k: nat)
    requires k < |cmds| == |live| && TwoGenerations(st) && cmds[k].Malloc? && live[k] == Unmeasured
    requires forall i :: 0 <= i < |cmds| ==> SmallSite(cmds[i])
    requires var before := StateBefore(cmds, st, live, k);
      cmds[k].site !in before.widened && Retained(cmds[k].site, cmds[k].x, before)
    ensures !NoLower(StateBefore(cmds, st, live, |cmds|), StateBefore(cmds, st, live, 0), cmds[k].site)
  {
    var s := cmds[k].site;
    var first, before := StateBefore(cmds, st, live, 0), StateBefore(cmds, st, live, k);
    var next, last := StateBefore(cmds, st, live, k + 1), StateBefore(cmds, st, live, |cmds|);
    PrefixKeepsGenerations(cmds, st, live, k);
    StateBeforeNext(cmds, st, live, k);
    RetainedElementRaises(cmds[k], before, s);
    SegmentRaises(cmds, st, live, 0, k, s);
    SegmentRaises(cmds, st, live, k + 1, |cmds|, s);
    if NoLower(last, first, s) {
      LowerTransitive(next, last, first, s);
      LowerTransitive(next, first, before, s);
    }
  }

  lemma RetainedAllocationRaises(st: FlowState, x: Storage, site: Site, at: nat)
    requires site !in st.widened && Retained(site, x, st)
    ensures var st' := BindAllocation(st, x, site, at).state;
      if Generation(st, site) >= 1 then site in st'.widened else Generation(st', site) == 1
  {
    var looked := st.(generations := st.generations[site := Generation(st, site)]);
    assert Retained(site, x, looked);
  }

  // ---------------------------------------------------------------------------------------------
  // A borrow that is still used is not forgotten
  // ---------------------------------------------------------------------------------------------

  /** A variable that is declared as a borrow has no other declaration. */
  ghost predicate BorrowVariables(blocks: seq<Block>) {
    forall c, d :: InProgram(c, blocks) && InProgram(d, blocks) && c.Borrow? && Declares(d, c.x) ==> d.Borrow?
  }

  ghost predicate BorrowVariable(blocks: seq<Block>, y: Storage) {
    exists c :: InProgram(c, blocks) && c.Borrow? && c.x == y
  }

  lemma CreatesBorrowVariables(c: Cmd, st: FlowState, live: LiveAfter, y: Storage)
    requires y in Step(c, st, live).created
    ensures c.Borrow? && c.x == y && y in Step(c, st, live).state.borrows
  {
  }

  lemma {:induction false} DerivedBorrowVariables(d: Derivation, blocks: seq<Block>, y: Storage)
    requires DerivesFrom(d, blocks) && y in Derived(d).borrows
    ensures BorrowVariable(blocks, y)
  {
    match d
    case Start =>
    case Element(before, c, live) =>
      StepBorrows(c, Derived(before), live);
      if y in Derived(before).borrows {
        DerivedBorrowVariables(before, blocks, y);
      } else {
        CreatesBorrowVariables(c, Derived(before), live, y);
      }
    case Edge(before, block, i) =>
      EdgeBorrows(block, i, Derived(before));
      DerivedBorrowVariables(before, blocks, y);
    case Join(l, r) =>
      if y in Derived(l).borrows {
        DerivedBorrowVariables(l, blocks, y);
      } else {
        DerivedBorrowVariables(r, blocks, y);
      }
  }

  lemma LiveMeansUsedLater(blocks: seq<Block>, known: set<Storage>, after: map<L.Point, set<Storage>>, b: nat, k: nat,
      v: Storage)
    requires L.Exact(EventGraph(blocks, known), after) && b < |blocks| && k < |blocks[b].cmds|
    ensures LiveIn(LiveOf(blocks, after, b)[k], v) <==> L.UsedLater(EventGraph(blocks, known), (b, k + 1), v)
  {
    var g := EventGraph(blocks, known);
    assert k < |g[b].events|;
    assert L.ExactAt(g, after, (b, k), v);
  }

  /** What an element mentions, or spares and is used after it, is used before it. */
  lemma UsedAtOrAfter(blocks: seq<Block>, known: set<Storage>, b: nat, k: nat, y: Storage)
    requires b < |blocks| && k < |blocks[b].cmds| && y in known
    requires y in Mentions(blocks[b].cmds[k]) ||
      (y !in Overwritten(blocks[b].cmds[k]) && L.UsedLater(EventGraph(blocks, known), (b, k + 1), y))
    ensures L.UsedLater(EventGraph(blocks, known), (b, k), y)
  {
    var g := EventGraph(blocks, known);
    assert k < |g[b].events| &&
      g[b].events[k] == L.Event(Mentions(blocks[b].cmds[k]) * known, Overwritten(blocks[b].cmds[k]) * known);
    if y in Mentions(blocks[b].cmds[k]) {
      L.UsedHere(g, (b, k), y);
    } else {
      L.PathExtends(g, (b, k), (b, k + 1), y);
    }
  }

  /** Only declarations overwrite a variable that they do not mention. */
  lemma OverwrittenUnmentioned(c: Cmd, y: Storage)
    requires y in Overwritten(c) && y !in Mentions(c)
    ensures Declares(c, y)
  {
  }

  lemma UnusedExpires(c: Cmd, st: FlowState, live: LiveAfter, y: Storage)
    requires y in st.borrows && LiveIn(live, y)
    ensures y in Step(c, st, live).state.borrows
  {
    match c
    case Malloc(x, site, decl, at) => MallocBorrows(Written(st, x, decl), x, site, decl, at);
    case Move(x, y', decl, at) => MoveBorrows(Written(st, x, decl), x, y', at);
    case Free(x, at) => FreeBorrows(st, x, at, live);
    case Produce(p, decl, at) => ProduceBorrows(st, p, decl, at);
    case _ =>
  }

  /** If the converging pass has the borrow `y` before element `k` and something still uses it, the
      reporting pass has it too. */
  ghost predicate KeptAt(blocks: seq<Block>, known: set<Storage>, b: nat, k: nat, e: FlowState, s: FlowState,
      y: Storage) {
    y in s.borrows && L.UsedLater(EventGraph(blocks, known), (b, k), y) ==> y in e.borrows
  }

  lemma KeptNext(blocks: seq<Block>, known: set<Storage>, after: map<L.Point, set<Storage>>, b: nat, k: nat,
      e: FlowState, s: FlowState, y: Storage)
    requires L.Exact(EventGraph(blocks, known), after) && b < |blocks| && k < |blocks[b].cmds| && y in known
    requires KeptAt(blocks, known, b, k, e, s, y)
    requires var c, live := blocks[b].cmds[k], LiveOf(blocks, after, b)[k];
      && (Declares(c, y) && y in Step(c, s, Unmeasured).state.borrows ==> c.Borrow?)
      && (c.Borrow? && c.x == y ==> y in Step(c, e, live).state.borrows)
    ensures var c, live := blocks[b].cmds[k], LiveOf(blocks, after, b)[k];
      KeptAt(blocks, known, b, k + 1, Step(c, e, live).state, Step(c, s, Unmeasured).state, y)
  {
    var c, live := blocks[b].cmds[k], LiveOf(blocks, after, b)[k];
    var s' := Step(c, s, Unmeasured).state;
    if y in s'.borrows && L.UsedLater(EventGraph(blocks, known), (b, k + 1), y) && !(c.Borrow? && c.x == y) {
      LiveMeansUsedLater(blocks, known, after, b, k, y);
      StepBorrows(c, s, Unmeasured);
      if y !in s.borrows { CreatesBorrowVariables(c, s, Unmeasured, y); }
      if y in Overwritten(c) && y !in Mentions(c) { OverwrittenUnmentioned(c, y); }
      UsedAtOrAfter(blocks, known, b, k, y);
      UnusedExpires(c, e, live, y);
    }
  }

  // ---------------------------------------------------------------------------------------------
  // The passes agree
  // ---------------------------------------------------------------------------------------------

  /** What the agreement of the passes asks of the program. */
  ghost predicate Ordinary(blocks: seq<Block>, entry: nat) {
    && ValidGraph(blocks, entry) && SmallSites(blocks) && UniqueSites(blocks) && ProductionsOffCycles(blocks)
    && BorrowVariables(blocks)
  }

  /** The result of convergence and liveness measurement: every in-state came about by the analysis
      and contains what flows into it, the borrows it holds and creates are known, and liveness is
      exact for the known ones. */
  ghost predicate Analysed(blocks: seq<Block>, entry: nat, ins: map<nat, FlowState>, known: set<Storage>,
      after: map<L.Point, set<Storage>>) {
    && PostFixed(blocks, entry, ins)
    && (forall b :: b in ins ==> ArrivesAt(ins[b], blocks, entry, b) && ins[b].borrows.Keys <= known)
    && (forall b :: b in ins && b < |blocks| ==> CreatedIn(blocks[b], ins[b]) <= known)
    && L.Exact(EventGraph(blocks, known), after)
  }

  ghost function CreatedBefore(cmds: seq<Cmd>, st: FlowState, live: seq<LiveAfter>, k: nat): set<Storage>
    requires k <= |cmds| == |live|
  {
    RunBlock(cmds[..k], st, live[..k]).created
  }

  lemma CreatedBeforeNext(cmds: seq<Cmd>, st: FlowState, live: seq<LiveAfter>, k: nat)
    requires k < |cmds| == |live|
    ensures CreatedBefore(cmds, st, live, k) <= CreatedBefore(cmds, st, live, k + 1)
  {
    RunBlockNext(cmds, st, live, k);
  }

  lemma {:induction false} PrefixCreates(cmds: seq<Cmd>, st: FlowState, live: seq<LiveAfter>, k: nat, n: nat)
    requires k <= n <= |cmds| == |live|
    ensures CreatedBefore(cmds, st, live, k) <= CreatedBefore(cmds, st, live, n)
    decreases n
  {
    if k < n {
      PrefixCreates(cmds, st, live, k, n - 1);
      CreatedBeforeNext(cmds, st, live, n - 1);
    } else {
      assert k == n;
    }
  }

  /** Every borrow of the converging pass is known. */
  lemma ConvergingBorrowsAreKnown(blocks: seq<Block>, entry: nat, ins: map<nat, FlowState>, known: set<Storage>,
      after: map<L.Point, set<Storage>>, b: nat, k: nat)
    requires Analysed(blocks, entry, ins, known, after) && b in ins && b < |blocks| && k <= |blocks[b].cmds|
    ensures StateBefore(blocks[b].cmds, ins[b], NothingMeasured(|blocks[b].cmds|), k).borrows.Keys <= known
  {
    var cmds := blocks[b].cmds;
    var none := NothingMeasured(|cmds|);
    RunBorrows(cmds[..k], ins[b], none[..k]);
    PrefixCreates(cmds, ins[b], none, k, |cmds|);
    assert cmds[..|cmds|] == cmds && none[..|cmds|] == none;
  }

  /** In both passes, before every element. */
  lemma PrefixFacts(blocks: seq<Block>, entry: nat, ins: map<nat, FlowState>, live: seq<LiveAfter>, b: nat, k: nat)
    requires Ordinary(blocks, entry) && (forall c :: c in ins ==> ArrivesAt(ins[c], blocks, entry, c))
    requires b in ins && b < |blocks| && k < |blocks[b].cmds| == |live|
    ensures Reachable(StateBefore(blocks[b].cmds, ins[b], live, k), blocks)
    ensures Sane(StateBefore(blocks[b].cmds, ins[b], live, k))
    ensures ProductionFresh(blocks[b].cmds[k], StateBefore(blocks[b].cmds, ins[b], live, k))
  {
    ArrivesReachable(ins[b], blocks, entry, b);
    ReachableRun(ins[b], blocks, b, k, live[..k]);
    ReachableIsSane(blocks, StateBefore(blocks[b].cmds, ins[b], live, k));
    ProductionsAreFresh(blocks, entry, ins[b], b, k, live);
  }

  /** Before element `k` of block `b`, the reporting pass (`e`) and the converging one (`s`). */
  ghost predicate AgreeBefore(blocks: seq<Block>, known: set<Storage>, b: nat, k: nat, e: FlowState, s: FlowState) {
    Renamed(e, s) && NotAhead(s, e) && forall y :: y in known ==> KeptAt(blocks, known, b, k, e, s, y)
  }

  /** A move whose source the converging pass takes for a borrow: so does the reporting pass. */
  lemma MoveNotRefused(blocks: seq<Block>, known: set<Storage>, b: nat, k: nat, e: FlowState, s: FlowState)
    requires b < |blocks| && k < |blocks[b].cmds| && AgreeBefore(blocks, known, b, k, e, s) && s.borrows.Keys <= known
    ensures var c := blocks[b].cmds[k]; c.Move? && c.y in s.borrows ==> c.y in e.borrows
  {
    var c := blocks[b].cmds[k];
    if c.Move? && c.y in s.borrows {
      UsedAtOrAfter(blocks, known, b, k, c.y);
      assert KeptAt(blocks, known, b, k, e, s, c.y);
    }
  }

  lemma SilentBorrowIsCreated(c: Cmd, st: FlowState, live: LiveAfter)
    requires c.Borrow? && Step(c, st, live).reports == {}
    ensures c.x in Step(c, st, live).state.borrows
  {
  }

  lemma AgreeStart(blocks: seq<Block>, known: set<Storage>, b: nat, st: FlowState)
    requires Good(st)
    ensures AgreeBefore(blocks, known, b, 0, st, st)
  {
    RenamedSelf(st);
  }

  lemma KeptStep(blocks: seq<Block>, known: set<Storage>, after: map<L.Point, set<Storage>>, b: nat, k: nat,
      e: FlowState, s: FlowState)
    requires BorrowVariables(blocks) && L.Exact(EventGraph(blocks, known), after) && b < |blocks| &&
      k < |blocks[b].cmds|
    requires forall y :: y in known ==> KeptAt(blocks, known, b, k, e, s, y)
    requires Reachable(s, blocks) && Step(blocks[b].cmds[k], e, LiveOf(blocks, after, b)[k]).reports == {}
    ensures var c, live := blocks[b].cmds[k], LiveOf(blocks, after, b)[k];
      forall y ::
        y in known ==> KeptAt(blocks, known, b, k + 1, Step(c, e, live).state, Step(c, s, Unmeasured).state, y)
  {
    var c, live := blocks[b].cmds[k], LiveOf(blocks, after, b)[k];
    ReachableElement(s, blocks, b, k, Unmeasured);
    forall y | y in known
      ensures KeptAt(blocks, known, b, k + 1, Step(c, e, live).state, Step(c, s, Unmeasured).state, y) {
      if c.Borrow? { SilentBorrowIsCreated(c, e, live); }
      if Declares(c, y) && y in Step(c, s, Unmeasured).state.borrows {
        OnlyBorrowsDeclare(blocks, Step(c, s, Unmeasured).state, c, y, b, k);
      }
      KeptNext(blocks, known, after, b, k, e, s, y);
    }
  }

  lemma OnlyBorrowsDeclare(blocks: seq<Block>, st: FlowState, c: Cmd, y: Storage, b: nat, k: nat)
    requires BorrowVariables(blocks) && Reachable(st, blocks) && y in st.borrows && Declares(c, y)
    requires b < |blocks| && k < |blocks[b].cmds| && c == blocks[b].cmds[k]
    ensures c.Borrow?
  {
    var d :| DerivesFrom(d, blocks) && Derived(d) == st;
    DerivedBorrowVariables(d, blocks, y);
    assert InProgram(c, blocks);
  }

  /** A silent element keeps the passes in agreement. */
  lemma AgreeNext(blocks: seq<Block>, entry: nat, ins: map<nat, FlowState>, known: set<Storage>,
      after: map<L.Point, set<Storage>>, b: nat, k: nat)
    requires Ordinary(blocks, entry) && Analysed(blocks, entry, ins, known, after) && b in ins && b < |blocks| &&
      k < |blocks[b].cmds|
    requires SilentAt(blocks, ins, after, b, k)
    requires AgreeBefore(blocks, known, b, k, StateBefore(blocks[b].cmds, ins[b], LiveOf(blocks, after, b), k),
      StateBefore(blocks[b].cmds, ins[b], NothingMeasured(|blocks[b].cmds|), k))
    ensures AgreeBefore(blocks, known, b, k + 1, StateBefore(blocks[b].cmds, ins[b], LiveOf(blocks, after, b), k + 1),
      StateBefore(blocks[b].cmds, ins[b], NothingMeasured(|blocks[b].cmds|), k + 1))
  {
    var cmds, live, none := blocks[b].cmds, LiveOf(blocks, after, b), NothingMeasured(|blocks[b].cmds|);
    var e, s := StateBefore(cmds, ins[b], live, k), StateBefore(cmds, ins[b], none, k);
    StateBeforeNext(cmds, ins[b], live, k);
    StateBeforeNext(cmds, ins[b], none, k);
    PrefixFacts(blocks, entry, ins, live, b, k);
    PrefixFacts(blocks, entry, ins, none, b, k);
    ConvergingBorrowsAreKnown(blocks, entry, ins, known, after, b, k);
    assert QuietAt(cmds, ins[b], live, k);
    assert SmallSite(cmds[k]);
    if cmds[k].Malloc? { BorrowsDoNotDecide(blocks, entry, ins, b, k); }
    MoveNotRefused(blocks, known, b, k, e, s);
    StepRenamed(cmds[k], e, s, live[k]);
    KeptStep(blocks, known, after, b, k, e, s);
  }

  /** What agrees at the start of a block goes on agreeing as far as the reporting pass is silent. */
  lemma {:induction false} PrefixesAgree(blocks: seq<Block>, entry: nat, ins: map<nat, FlowState>, known: set<Storage>,
      after: map<L.Point, set<Storage>>, b: nat, k: nat)
    requires Ordinary(blocks, entry) && Analysed(blocks, entry, ins, known, after) && b in ins && b < |blocks| &&
      k <= |blocks[b].cmds|
    requires forall l: nat :: l < k ==> SilentAt(blocks, ins, after, b, l)
    ensures AgreeBefore(blocks, known, b, k, StateBefore(blocks[b].cmds, ins[b], LiveOf(blocks, after, b), k),
      StateBefore(blocks[b].cmds, ins[b], NothingMeasured(|blocks[b].cmds|), k))
  {
    if k == 0 {
      var cmds, live, none := blocks[b].cmds, LiveOf(blocks, after, b), NothingMeasured(|blocks[b].cmds|);
      assert cmds[..0] == [] && live[..0] == [] && none[..0] == [];
      ArrivesReachable(ins[b], blocks, entry, b);
      ReachableIsSane(blocks, ins[b]);
      AgreeStart(blocks, known, b, ins[b]);
    } else {
      PrefixesAgree(blocks, entry, ins, known, after, b, k - 1);
      AgreeNext(blocks, entry, ins, known, after, b, k - 1);
    }
  }

  lemma SilentBlockAgrees(blocks: seq<Block>, entry: nat, ins: map<nat, FlowState>, known: set<Storage>,
      after: map<L.Point, set<Storage>>, b: nat)
    requires Ordinary(blocks, entry) && Analysed(blocks, entry, ins, known, after) && b in ins && b < |blocks|
    requires SilentBlock(blocks, ins, after, b)
    ensures Renamed(EmitBlock(blocks, ins, after, b).state, TransferBlock(blocks[b], ins[b]))
  {
    var cmds := blocks[b].cmds;
    var live, none := LiveOf(blocks, after, b), NothingMeasured(|cmds|);
    PrefixesAgree(blocks, entry, ins, known, after, b, |cmds|);
    assert cmds[..|cmds|] == cmds && live[..|cmds|] == live && none[..|cmds|] == none;
  }

  /** Where the reporting pass is silent, it ends a block like the converging pass, up to the names of
      objects. */
  lemma PassesDoAgree(blocks: seq<Block>, entry: nat, ins: map<nat, FlowState>, known: set<Storage>,
      after: map<L.Point, set<Storage>>)
    requires Ordinary(blocks, entry) && Analysed(blocks, entry, ins, known, after)
    ensures PassesAgree(blocks, ins, after)
  {
    forall b: nat ensures PassesAgreeAt(blocks, ins, after, b) {
      if b in ins && b < |blocks| && SilentBlock(blocks, ins, after, b) {
        SilentBlockAgrees(blocks, entry, ins, known, after, b);
      }
    }
  }

  // ---------------------------------------------------------------------------------------------
  // Order
  // ---------------------------------------------------------------------------------------------

  /** A production off all cycles finds nothing left of an earlier execution of itself. */
  lemma ProductionsAreFresh(blocks: seq<Block>, entry: nat, st: FlowState, b: nat, k: nat, live: seq<LiveAfter>)
    requires SmallSites(blocks) && UniqueSites(blocks) && ProductionsOffCycles(blocks)
    requires b < |blocks| && k < |blocks[b].cmds| && |live| == |blocks[b].cmds| && ArrivesAt(st, blocks, entry, b)
    ensures ProductionFresh(blocks[b].cmds[k], StateBefore(blocks[b].cmds, st, live, k))
  {
    var c := blocks[b].cmds[k];
    if c.Produce? && c.production.admissible {
      var s := c.production.site;
      var d :| Arrives(d, blocks, entry, b) && Arrived(d, blocks) == st;
      SitesAreHome(blocks, b, k, s);
      MentionedDownstream(d, blocks, entry, b, b, s);
      ArrivesReachable(st, blocks, entry, b);
      ReachableIsSane(blocks, st);
      PrefixMentions(blocks[b].cmds, st, live, k, s);
      AbsentIsUnbound(StateBefore(blocks[b].cmds, st, live, k), c.production.dest, s);
    }
  }

  lemma AbsentIsUnbound(st: FlowState, x: Storage, s: Site)
    requires !MentionsSite(st, s) && 1 <= s < GENERATION_STRIDE
    ensures Unbound(st, x, ObjectIdFor(s, 0))
  {
    assert BelongsToSite(s, ObjectIdFor(s, 0));
  }

  /** In the reporting pass no declaration meets a guard that outlives it. */
  ghost predicate FreshDeclarations(blocks: seq<Block>, ins: map<nat, FlowState>, after: map<L.Point, set<Storage>>) {
    forall b, k :: b in ins && b < |blocks| && 0 <= k < |blocks[b].cmds| ==>
      DeclarationsFresh(blocks[b].cmds[k], StateBefore(blocks[b].cmds, ins[b], LiveOf(blocks, after, b), k))
  }

  /** For which it is enough that control does not come back to a declaration under a guard. */
  lemma DeclarationsStayFresh(blocks: seq<Block>, entry: nat, ins: map<nat, FlowState>,
      after: map<L.Point, set<Storage>>)
    requires NoStaleDeclarations(blocks) && forall b :: b in ins ==> ArrivesAt(ins[b], blocks, entry, b)
    ensures FreshDeclarations(blocks, ins, after)
  {
    forall b, k | b in ins && b < |blocks| && 0 <= k < |blocks[b].cmds|
      ensures DeclarationsFresh(blocks[b].cmds[k], StateBefore(blocks[b].cmds, ins[b], LiveOf(blocks, after, b), k))
    {
      var live := LiveOf(blocks, after, b);
      DeclarationsAreFresh(blocks, entry, ins[b], b, k, live[..k]);
    }
  }

  lemma ProgramIsOrderly(blocks: seq<Block>, entry: nat, ins: map<nat, FlowState>, after: map<L.Point, set<Storage>>)
    requires Ordinary(blocks, entry) && FreshDeclarations(blocks, ins, after)
    requires forall b :: b in ins ==> ArrivesAt(ins[b], blocks, entry, b)
    ensures Orderly(blocks, ins, after)
  {
    forall b: nat, k: nat ensures OrderlyIn(blocks, ins, after, b, k) {
      if b in ins && b < |blocks| && k < |blocks[b].cmds| {
        ProductionsAreFresh(blocks, entry, ins[b], b, k, LiveOf(blocks, after, b));
      }
    }
  }
}
