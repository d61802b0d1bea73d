/** Allocation identities are fresh, and at most one storage owns an object, in every abstract state
    a program can give rise to. */
module Ownership {
  import opened Flow
  import opened Height
  import opened Options
  import opened Transfer
  import opened Program

  /** Sites small enough for an object's identity to name its site. */
  ghost predicate SmallSites(blocks: seq<Block>) {
    forall b, k :: 0 <= b < |blocks| && 0 <= k < |blocks[b].cmds| ==> SmallSite(blocks[b].cmds[k])
  }

  predicate SmallSite(c: Cmd) {
    && (c.Malloc? ==> 1 <= c.site < GENERATION_STRIDE)
    && (c.Produce? ==> 1 <= c.production.site < GENERATION_STRIDE)
  }

  // ---------------------------------------------------------------------------------------------
  // Identities
  // ---------------------------------------------------------------------------------------------

  /** An identity names its site exactly when the site number is below the generation stride; for
      larger sites the retained-reference test of `BindAllocation` looks for the wrong site. */
  lemma IdentityNamesItsSite(site: Site, generation: nat)
    requires generation <= 1 && ObjectIdFor(site, generation) != UNKNOWN_ID
    ensures ObjectIdFor(site, generation) < PARAMETER_BASE
    ensures ObjectIdFor(site, generation) == site + generation * GENERATION_STRIDE
    ensures ObjectIdFor(site, generation) % GENERATION_STRIDE == site <==> site < GENERATION_STRIDE
  {
  }

  /** For instance the second generation of site 1 and the first of site 1000001 are one object. */
  lemma LargeSitesCollide()
    ensures ObjectIdFor(1, 1) == ObjectIdFor(1_000_001, 0) != UNKNOWN_ID
    ensures !BelongsToSite(1_000_001, ObjectIdFor(1_000_001, 0))
  {
  }

  /** The identity is one of a site's two, and its second only if the state has seen it begin. */
  predicate Identified(id: ObjectId, generations: map<Site, nat>) {
    && 1 <= id < 2 * GENERATION_STRIDE && id != GENERATION_STRIDE
    && (GENERATION_STRIDE <= id ==>
          id - GENERATION_STRIDE in generations && generations[id - GENERATION_STRIDE] >= 1)
  }

  ghost predicate BindingIdentified(st: FlowState, v: Storage) {
    v in st.storages && st.storages[v].id != NULL_ID && st.storages[v].id != UNKNOWN_ID ==>
      Identified(st.storages[v].id, st.generations) && st.storages[v].id in st.objects
  }

  ghost predicate BorrowIdentified(st: FlowState, v: Storage) {
    v in st.borrows ==> Identified(st.borrows[v].parent, st.generations)
  }

  ghost predicate AllIdentified(st: FlowState) {
    && (forall v :: BindingIdentified(st, v))
    && (forall v :: BorrowIdentified(st, v))
  }

  /** Generations only grow, so identities stay identified. */
  ghost predicate Later(st: FlowState, st': FlowState) {
    && (forall s :: s in st.generations ==> s in st'.generations && st.generations[s] <= st'.generations[s])
    && st.objects.Keys <= st'.objects.Keys
  }

  lemma RebindIdentified(st: FlowState, st': FlowState, x: Storage, b: Binding)
    requires AllIdentified(st) && Later(st, st') && st'.storages == st.storages[x := b] && st'.borrows == st.borrows
    requires b.id == NULL_ID || b.id == UNKNOWN_ID || (Identified(b.id, st'.generations) && b.id in st'.objects)
    ensures AllIdentified(st')
  {
    forall v ensures BindingIdentified(st', v) && BorrowIdentified(st', v) {
      assert BindingIdentified(st, v) && BorrowIdentified(st, v);
    }
  }

  lemma SameStoragesIdentified(st: FlowState, st': FlowState)
    requires AllIdentified(st) && Later(st, st') && st'.storages == st.storages
    requires forall v :: v in st'.borrows ==> v in st.borrows && st'.borrows[v].parent == st.borrows[v].parent
    ensures AllIdentified(st')
  {
    forall v ensures BindingIdentified(st', v) && BorrowIdentified(st', v) {
      assert BindingIdentified(st, v) && BorrowIdentified(st, v);
    }
  }

  /** What an allocation may change: the target's binding, its object, its site's generation. */
  ghost predicate BindsAllocation(st: FlowState, x: Storage, site: Site, g: nat, st': FlowState) {
    && x in st'.storages && st'.storages == st.storages[x := st'.storages[x]]
    && st'.borrows == st.borrows && st'.pending == st.pending && st'.generations == st.generations[site := g]
    && !st'.storages[x].producedMaybe
    && (if st'.storages[x].id == UNKNOWN_ID then
          st'.objects == st.objects && st'.storages[x].relation == UnknownRelation
        else
          var id := ObjectIdFor(site, g);
          && st'.storages[x].id == id && st'.storages[x].relation == Owner
          && id in st'.objects && st'.objects == st.objects[id := st'.objects[id]] && st'.objects[id].state == Owned)
  }

  lemma UnresolvedBinds(st: FlowState, st1: FlowState, x: Storage, site: Site, g: nat, at: nat)
    requires st1.storages == st.storages && st1.objects == st.objects && st1.borrows == st.borrows &&
      st1.pending == st.pending
    requires st1.generations == st.generations[site := g]
    ensures BindsAllocation(st, x, site, g, BindUnresolved(st1, x, at))
  {
  }

  lemma AllocateAsBinds(st: FlowState, x: Storage, site: Site, g: nat, at: nat)
    ensures
      BindsAllocation(st, x, site, g, AllocateAs(st.(generations := st.generations[site := g]), x, site, g, at).state)
  {
    UnresolvedBinds(st, st.(generations := st.generations[site := g]), x, site, g, at);
  }

  lemma AllocationShape(st: FlowState, x: Storage, site: Site, at: nat) returns (g: nat)
    requires 1 <= site < GENERATION_STRIDE && Generation(st, site) <= 1
    ensures Generation(st, site) <= g <= 1 && BindsAllocation(st, x, site, g, BindAllocation(st, x, site, at).state)
  {
    g := Generation(st, site);
    var looked := st.(generations := st.generations[site := g]);
    if site in st.widened {
      UnresolvedBinds(st, looked, x, site, g, at);
    } else if !Retained(site, x, looked) {
      AllocateAsBinds(st, x, site, g, at);
    } else if g >= 1 {
      UnresolvedBinds(st, looked.(widened := looked.widened + {site}), x, site, g, at);
    } else {
      g := 1;
      assert st.generations[site := 0][site := 1] == st.generations[site := 1];
      AllocateAsBinds(st, x, site, g, at);
    }
  }

  lemma AllocationIdentified(st: FlowState, x: Storage, site: Site, at: nat)
    requires AllIdentified(st) && 1 <= site < GENERATION_STRIDE
    requires Generation(st, site) <= 1
    ensures AllIdentified(BindAllocation(st, x, site, at).state)
  {
    var st' := BindAllocation(st, x, site, at).state;
    var g := AllocationShape(st, x, site, at);
    if st'.storages[x].id != UNKNOWN_ID {
      IdentityNamesItsSite(site, g);
    }
    RebindIdentified(st, st', x, st'.storages[x]);
  }

  lemma MoveIdentified(st: FlowState, x: Storage, y: Storage, at: nat)
    requires AllIdentified(st)
    ensures AllIdentified(MoveStep(st, x, y, at).state)
  {
    var st' := MoveStep(st, x, y, at).state;
    assert BindingIdentified(st, y);
    if st' != st {
      if KnownNull(st.storages[y]) {
        RebindIdentified(st, st', x, st'.storages[x]);
      } else {
        var given := st.(storages := st.storages[y := st'.storages[y]]);
        RebindIdentified(st, given, y, st'.storages[y]);
        RebindIdentified(given, st', x, st'.storages[x]);
      }
    }
  }

  lemma BorrowStepIdentified(st: FlowState, x: Storage, y: Storage, kind: BorrowKind, at: nat)
    requires AllIdentified(st)
    ensures AllIdentified(BorrowStep(st, x, y, kind, at).state)
  {
    var st' := BorrowStep(st, x, y, kind, at).state;
    assert BindingIdentified(st, y);
    if st' != st {
      var bound := Bind(st, x, st.storages[y].id, Alias, at);
      RebindIdentified(st, bound, x, bound.storages[x]);
      forall v ensures BindingIdentified(st', v) && BorrowIdentified(st', v) {
        assert BindingIdentified(bound, v) && BorrowIdentified(bound, v);
      }
    }
  }

  lemma CopyIdentified(st: FlowState, x: Storage, y: Storage, at: nat)
    requires AllIdentified(st)
    ensures AllIdentified(CopyStep(st, x, y, at).state)
  {
    var st' := CopyStep(st, x, y, at).state;
    assert BindingIdentified(st, y);
    if st' != st {
      RebindIdentified(st, st', x, st'.storages[x]);
    }
  }

  lemma FreeIdentified(st: FlowState, x: Storage, at: nat, live: LiveAfter)
    requires AllIdentified(st)
    ensures AllIdentified(FreeStep(st, x, at, live).state)
  {
    SameStoragesIdentified(st, FreeStep(st, x, at, live).state);
  }

  lemma ProduceIdentified(st: FlowState, p: Production, decl: bool, at: nat)
    requires AllIdentified(st) && 1 <= p.site < GENERATION_STRIDE
    ensures AllIdentified(ProduceStep(st, p, decl, at).state)
  {
    var st' := ProduceStep(st, p, decl, at).state;
    if Accepts(st, p) {
      RebindIdentified(st, st', p.dest, st'.storages[p.dest]);
    } else {
      SameStoragesIdentified(st, st');
    }
  }

  // ---------------------------------------------------------------------------------------------
  // Generations stay at 0 or 1
  // ---------------------------------------------------------------------------------------------

  ghost predicate TwoGenerations(st: FlowState) {
    forall s :: s in st.generations ==> st.generations[s] <= 1
  }

  lemma StepGenerations(c: Cmd, st: FlowState, live: LiveAfter)
    requires TwoGenerations(st) && SmallSite(c)
    ensures TwoGenerations(Step(c, st, live).state)
  {
    if c.Malloc? {
      var g := AllocationShape(Written(st, c.x, c.decl), c.x, c.site, c.at);
    } else {
      OtherGenerations(c, st, live);
    }
  }

  ghost predicate SameCounters(st: FlowState, st': FlowState) {
    st'.generations == st.generations && st'.widened == st.widened
  }

  lemma MoveCounters(st: FlowState, x: Storage, y: Storage, at: nat)
    ensures SameCounters(st, MoveStep(st, x, y, at).state)
  {
  }

  lemma BorrowCounters(st: FlowState, x: Storage, y: Storage, kind: BorrowKind, at: nat)
    ensures SameCounters(st, BorrowStep(st, x, y, kind, at).state)
  {
  }

  lemma FreeCounters(st: FlowState, x: Storage, at: nat, live: LiveAfter)
    ensures SameCounters(st, FreeStep(st, x, at, live).state)
  {
  }

  lemma CopyCounters(st: FlowState, x: Storage, y: Storage, at: nat)
    ensures SameCounters(st, CopyStep(st, x, y, at).state)
  {
  }

  lemma ProduceCounters(st: FlowState, p: Production, decl: bool, at: nat)
    ensures SameCounters(st, ProduceStep(st, p, decl, at).state)
  {
  }

  /** Only allocations touch generations and widenings. */
  lemma OtherGenerations(c: Cmd, st: FlowState, live: LiveAfter)
    requires !c.Malloc?
    ensures SameCounters(st, Step(c, st, live).state)
  {
    match c
    case Copy(x, y, decl, at) => CopyCounters(Written(st, x, decl), x, y, at);
    case Move(x, y, decl, at) => MoveCounters(Written(st, x, decl), x, y, at);
    case Borrow(x, y, kind, at) => BorrowCounters(st, x, y, kind, at);
    case Free(x, at) => FreeCounters(st, x, at, live);
    case Produce(p, decl, at) => ProduceCounters(st, p, decl, at);
    case _ =>
  }

  // ---------------------------------------------------------------------------------------------
  // One owner
  // ---------------------------------------------------------------------------------------------

  predicate Owns(st: FlowState, v: Storage, id: ObjectId) {
    v in st.storages && st.storages[v].relation == Owner && st.storages[v].id == id
  }

  ghost predicate UniqueOwner(st: FlowState) {
    forall v, w, id :: Owns(st, v, id) && Owns(st, w, id) ==> v == w
  }

  predicate Unmarked(st: FlowState) {
    forall v :: v in st.storages ==> !st.storages[v].producedMaybe
  }

  lemma RebindUnique(st: FlowState, st': FlowState, x: Storage, b: Binding)
    requires UniqueOwner(st) && st'.storages == st.storages[x := b]
    requires b.relation == Owner ==> forall v :: v != x ==> !Owns(st, v, b.id)
    ensures UniqueOwner(st')
  {
    forall v, w, id | Owns(st', v, id) && Owns(st', w, id) ensures v == w {
      if v != x { assert Owns(st, v, id); }
      if w != x { assert Owns(st, w, id); }
    }
  }

  // ---------------------------------------------------------------------------------------------
  // Freshness of one allocation
  // ---------------------------------------------------------------------------------------------

  /** No other storage and no borrow refers to `id`. */
  ghost predicate Unreferenced(st: FlowState, x: Storage, id: ObjectId) {
    && (forall v :: v in st.storages && v != x ==> st.storages[v].id != id)
    && (forall v :: v in st.borrows ==> st.borrows[v].parent != id)
  }

  /** The allocation gave up with a report, or bound `x` as the owner of an identity of its site that
      nothing else refers to; it left every other storage alone. */
  ghost predicate AllocatedFresh(st: FlowState, x: Storage, site: Site, o: Outcome) {
    && x in o.state.storages
    && var b := o.state.storages[x];
    && o.state.storages == st.storages[x := b]
    && (if b.id == UNKNOWN_ID then o.reports != {} && b.relation == UnknownRelation
        else && o.reports == {} && b.relation == Owner
             && b.id % GENERATION_STRIDE == site && b.id < PARAMETER_BASE
             && Unreferenced(st, x, b.id) && Unreferenced(o.state, x, b.id))
  }

  /** Under an identity that nothing else refers to, also with other counters. */
  lemma AllocateAsIsFresh(st: FlowState, st1: FlowState, x: Storage, site: Site, generation: nat, at: nat)
    requires st1.storages == st.storages && st1.borrows == st.borrows && 1 <= site < GENERATION_STRIDE &&
      generation <= 1
    requires ObjectIdFor(site, generation) != UNKNOWN_ID ==>
      Unreferenced(st, x, ObjectIdFor(site, generation)) && ObjectIdFor(site, generation) % GENERATION_STRIDE == site
    ensures AllocatedFresh(st, x, site, AllocateAs(st1, x, site, generation, at))
  {
    var o := AllocateAs(st1, x, site, generation, at);
    assert o.state.storages == st.storages[x := o.state.storages[x]] && o.state.borrows == st.borrows;
  }

  /** Under a good state every allocation is fresh. */
  lemma AllocationIsFresh(st: FlowState, x: Storage, site: Site, at: nat)
    requires AllIdentified(st) && TwoGenerations(st) && 1 <= site < GENERATION_STRIDE
    ensures AllocatedFresh(st, x, site, BindAllocation(st, x, site, at))
  {
    var generation := Generation(st, site);
    var looked := st.(generations := st.generations[site := generation]);
    assert Retained(site, x, looked) == Retained(site, x, st);
    if site !in st.widened {
      if !Retained(site, x, looked) {
        NotRetainedIsUnreferenced(st, x, site, generation);
        AllocateAsIsFresh(st, looked, x, site, generation, at);
      } else if generation == 0 {
        SecondGenerationIsUnreferenced(st, x, site);
        AllocateAsIsFresh(st, looked.(generations := looked.generations[site := 1]), x, site, 1, at);
      }
    }
  }

  lemma NotRetainedIsUnreferenced(st: FlowState, x: Storage, site: Site, generation: nat)
    requires !Retained(site, x, st) && 1 <= site < GENERATION_STRIDE && generation <= 1
    ensures ObjectIdFor(site, generation) != UNKNOWN_ID ==>
      Unreferenced(st, x, ObjectIdFor(site, generation)) && ObjectIdFor(site, generation) % GENERATION_STRIDE == site
  {
    if ObjectIdFor(site, generation) != UNKNOWN_ID {
      IdentityNamesItsSite(site, generation);
      assert BelongsToSite(site, ObjectIdFor(site, generation));
    }
  }

  lemma SecondGenerationIsUnreferenced(st: FlowState, x: Storage, site: Site)
    requires AllIdentified(st) && Generation(st, site) == 0 && 1 <= site < GENERATION_STRIDE
    ensures ObjectIdFor(site, 1) != UNKNOWN_ID ==>
      Unreferenced(st, x, ObjectIdFor(site, 1)) && ObjectIdFor(site, 1) % GENERATION_STRIDE == site
  {
    if ObjectIdFor(site, 1) != UNKNOWN_ID {
      IdentityNamesItsSite(site, 1);
      forall v | v in st.storages ensures st.storages[v].id != ObjectIdFor(site, 1) {
        assert BindingIdentified(st, v);
      }
      forall v | v in st.borrows ensures st.borrows[v].parent != ObjectIdFor(site, 1) {
        assert BorrowIdentified(st, v);
      }
    }
  }

  // ---------------------------------------------------------------------------------------------
  // Identities over whole derivations
  // ---------------------------------------------------------------------------------------------

  ghost predicate Good(st: FlowState) {
    AllIdentified(st) && TwoGenerations(st)
  }

  lemma ExpiryIdentified(st: FlowState, live: LiveAfter)
    requires AllIdentified(st)
    ensures AllIdentified(ExpireBorrows(st, live))
  {
    SameStoragesIdentified(st, ExpireBorrows(st, live));
  }

  lemma WrittenIdentified(st: FlowState, x: Storage, decl: bool)
    requires AllIdentified(st)
    ensures AllIdentified(Written(st, x, decl)) && AllIdentified(KillForWrite(st, x, None))
  {
    SameStoragesIdentified(st, Written(st, x, decl));
    SameStoragesIdentified(st, KillForWrite(st, x, None));
  }

  lemma StepIdentified(c: Cmd, st: FlowState, live: LiveAfter)
    requires Good(st) && SmallSite(c)
    ensures AllIdentified(Step(c, st, live).state)
  {
    match c
    case Malloc(x, site, decl, at) =>
      WrittenIdentified(st, x, decl);
      AllocationIdentified(Written(st, x, decl), x, site, at);
    case SetNull(x, decl, at) =>
      WrittenIdentified(st, x, decl);
      var st' := Step(c, st, live).state;
      RebindIdentified(Written(st, x, decl), st', x, st'.storages[x]);
    case Copy(x, y, decl, at) =>
      WrittenIdentified(st, x, decl);
      CopyIdentified(Written(st, x, decl), x, y, at);
    case Move(x, y, decl, at) =>
      WrittenIdentified(st, x, decl);
      MoveIdentified(Written(st, x, decl), x, y, at);
    case Borrow(x, y, kind, at) => BorrowStepIdentified(st, x, y, kind, at);
    case Declare(_) =>
    case Free(x, at) =>
      FreeIdentified(st, x, at, live);
      ExpiryIdentified(FreeStep(st, x, at, live).state, live);
    case Deref(x, _) => ExpiryIdentified(st, live);
    case Bump(x, at) =>
      WrittenIdentified(st, x, false);
      var st0 := KillForWrite(st, x, None);
      var bound := BindUnresolved(st0, x, at);
      RebindIdentified(st0, bound, x, bound.storages[x]);
      ExpiryIdentified(bound, live);
    case StoreScalar(x, decl) => WrittenIdentified(st, x, decl);
    case Produce(p, decl, at) =>
      ProduceIdentified(st, p, decl, at);
      ExpiryIdentified(ProduceStep(st, p, decl, at).state, live);
    case CallPoint => ExpiryIdentified(st, live);
    case Enclosing(_) =>
    case Opaque =>
  }

  predicate RefinedTo(a: Binding, b: Binding) {
    (b.id == NULL_ID && b.relation == Null) || (b.id == a.id && b.relation == Owner)
  }

  /** An edge refines one marked binding, to null or to the owner of the object it already names. */
  ghost predicate EdgeShape(st: FlowState, st': FlowState) {
    && st'.objects == st.objects && st'.generations == st.generations && st'.borrows == st.borrows
    && st'.widened == st.widened
    && (st'.storages == st.storages ||
        exists x, b :: x in st.storages && st.storages[x].producedMaybe && st'.storages == st.storages[x := b]
          && RefinedTo(st.storages[x], b))
  }

  lemma PolarityShape(st: FlowState, dest: Storage, successNonzero: bool, equal: bool, zero: bool)
    ensures EdgeShape(st, RefineByPolarity(st, dest, successNonzero, equal, zero))
  {
    var st' := RefineByPolarity(st, dest, successNonzero, equal, zero);
    if st' != st {
      assert st'.storages == st.storages[dest := st'.storages[dest]] &&
        RefinedTo(st.storages[dest], st'.storages[dest]);
    }
  }

  lemma NullCheckShape(st: FlowState, dest: Storage, nonNull: bool)
    ensures EdgeShape(st, RefineByNullCheck(st, dest, nonNull))
  {
    var st' := RefineByNullCheck(st, dest, nonNull);
    if st' != st {
      assert st'.storages == st.storages[dest := st'.storages[dest]] &&
        RefinedTo(st.storages[dest], st'.storages[dest]);
    }
  }

  lemma SubjectShape(st: FlowState, s: Subject, equal: bool, zero: bool)
    ensures EdgeShape(st, RefineSubject(st, s, equal, zero))
  {
    match s
    case ProducingCall(dest, contract) => PolarityShape(st, dest, contract.successNonzero, equal, zero);
    case OtherSubject =>
    case _ =>
      if s.v in st.pending {
        PolarityShape(st, st.pending[s.v].dest, st.pending[s.v].successNonzero, equal, zero);
      } else {
        NullCheckShape(st, s.v, !equal);
      }
  }

  lemma {:induction false} RefineShape(st: FlowState, c: Cond, holds: bool)
    ensures EdgeShape(st, Refine(st, c, holds))
  {
    match c
    case Not(inner) => RefineShape(st, inner, !holds);
    case Equal(s, k) => SubjectShape(st, s, holds, k.Some? && k.value == 0);
    case NotEqual(s, k) => SubjectShape(st, s, !holds, k.Some? && k.value == 0);
    case Truth(s) => SubjectShape(st, s, !holds, true);
    case OtherCond =>
  }

  lemma EdgeStateShape(b: Block, i: nat, st: FlowState)
    ensures EdgeShape(st, EdgeState(b, i, st))
  {
    if b.cond.Some? {
      RefineShape(st, b.cond.value, i == 0);
    }
  }

  lemma EdgeGood(b: Block, i: nat, st: FlowState)
    requires Good(st)
    ensures Good(EdgeState(b, i, st))
  {
    var st' := EdgeState(b, i, st);
    EdgeStateShape(b, i, st);
    if st'.storages != st.storages {
      var x, nb :| x in st.storages && st'.storages == st.storages[x := nb] && RefinedTo(st.storages[x], nb);
      assert BindingIdentified(st, x);
      RebindIdentified(st, st', x, nb);
    } else {
      SameStoragesIdentified(st, st');
    }
  }

  lemma JoinedId(a: Binding, b: Binding)
    ensures var id := JoinBinding(a, b).id; id == a.id || id == b.id || id == UNKNOWN_ID
  {
  }

  lemma JoinedBindingIdentified(a: FlowState, b: FlowState, v: Storage)
    requires BindingIdentified(a, v) && BindingIdentified(b, v)
    ensures BindingIdentified(JoinFlow(a, b), v)
  {
    JoinedId(BindingAt(a, v), BindingAt(b, v));
  }

  lemma JoinedBorrowIdentified(a: FlowState, b: FlowState, v: Storage)
    requires BorrowIdentified(a, v) && BorrowIdentified(b, v)
    ensures BorrowIdentified(JoinFlow(a, b), v)
  {
  }

  lemma JoinGood(a: FlowState, b: FlowState)
    requires Good(a) && Good(b)
    ensures Good(JoinFlow(a, b))
  {
    forall v ensures BindingIdentified(JoinFlow(a, b), v) && BorrowIdentified(JoinFlow(a, b), v) {
      assert BindingIdentified(a, v) && BindingIdentified(b, v) && BorrowIdentified(a, v) && BorrowIdentified(b, v);
      JoinedBindingIdentified(a, b, v);
      JoinedBorrowIdentified(a, b, v);
    }
    JoinedGenerations(a, b);
  }

  lemma JoinedGenerations(a: FlowState, b: FlowState)
    requires TwoGenerations(a) && TwoGenerations(b)
    ensures TwoGenerations(JoinFlow(a, b))
  {
  }

  lemma {:induction false} DerivedIsGood(d: Derivation, blocks: seq<Block>)
    requires SmallSites(blocks) && DerivesFrom(d, blocks)
    ensures Good(Derived(d))
  {
    match d
    case Start =>
    case Element(before, c, live) =>
      DerivedIsGood(before, blocks);
      assert SmallSite(c);
      StepIdentified(c, Derived(before), live);
      StepGenerations(c, Derived(before), live);
    case Edge(before, block, i) =>
      DerivedIsGood(before, blocks);
      EdgeGood(block, i, Derived(before));
    case Join(l, r) =>
      DerivedIsGood(l, blocks);
      DerivedIsGood(r, blocks);
      JoinGood(Derived(l), Derived(r));
  }

  /** Freshness, in every state the program can give rise to. */
  lemma ReachableAllocationIsFresh(blocks: seq<Block>, st: FlowState, x: Storage, site: Site, at: nat)
    requires SmallSites(blocks) && Reachable(st, blocks) && 1 <= site < GENERATION_STRIDE
    ensures AllocatedFresh(st, x, site, BindAllocation(st, x, site, at))
  {
    var d :| DerivesFrom(d, blocks) && Derived(d) == st;
    DerivedIsGood(d, blocks);
    AllocationIsFresh(st, x, site, at);
  }

  // ---------------------------------------------------------------------------------------------
  // Objects come from allocations
  // ---------------------------------------------------------------------------------------------

  /** Every object was allocated in the analysed function: none is a parameter's. */
  ghost predicate Local(st: FlowState) {
    forall id :: id in st.objects ==> st.objects[id].origin == Allocation
  }

  lemma AllocateLocal(st: FlowState, x: Storage, site: Site, generation: nat, at: nat)
    requires Local(st)
    ensures Local(AllocateAs(st, x, site, generation, at).state) && Local(BindUnresolved(st, x, at))
  {
  }

  lemma AllocationLocal(st: FlowState, x: Storage, site: Site, decl: bool, at: nat)
    requires Local(st)
    ensures Local(MallocStep(st, x, site, decl, at).state)
  {
    var looked := st.(generations := st.generations[site := Generation(st, site)]);
    AllocateLocal(looked, x, site, Generation(st, site), at);
    AllocateLocal(looked.(generations := looked.generations[site := 1]), x, site, 1, at);
  }

  lemma MoveLocal(st: FlowState, x: Storage, y: Storage, at: nat)
    requires Local(st)
    ensures Local(MoveStep(st, x, y, at).state)
  {
  }

  lemma FreeLocal(st: FlowState, x: Storage, at: nat, live: LiveAfter)
    requires Local(st)
    ensures Local(FreeStep(st, x, at, live).state)
  {
  }

  lemma ProduceLocal(st: FlowState, p: Production, decl: bool, at: nat)
    requires Local(st)
    ensures Local(ProduceStep(st, p, decl, at).state)
  {
  }

  lemma CopyLocal(st: FlowState, x: Storage, y: Storage, kind: BorrowKind, at: nat)
    requires Local(st)
    ensures Local(CopyStep(st, x, y, at).state) && Local(BorrowStep(st, x, y, kind, at).state)
  {
  }

  lemma StepLocal(c: Cmd, st: FlowState, live: LiveAfter)
    requires Local(st)
    ensures Local(Step(c, st, live).state)
  {
    match c
    case Malloc(x, site, decl, at) => AllocationLocal(Written(st, x, decl), x, site, decl, at);
    case Move(x, y, decl, at) => MoveLocal(Written(st, x, decl), x, y, at);
    case Copy(x, y, decl, at) => CopyLocal(Written(st, x, decl), x, y, Shared, at);
    case Borrow(x, y, kind, at) => CopyLocal(st, x, y, kind, at);
    case Free(x, at) => FreeLocal(st, x, at, live);
    case Produce(p, decl, at) => ProduceLocal(st, p, decl, at);
    case _ =>
  }

  lemma {:induction false} DerivedIsLocal(d: Derivation, blocks: seq<Block>)
    requires DerivesFrom(d, blocks)
    ensures Local(Derived(d))
  {
    match d
    case Start =>
    case Element(before, c, live) =>
      DerivedIsLocal(before, blocks);
      StepLocal(c, Derived(before), live);
    case Edge(before, block, i) =>
      DerivedIsLocal(before, blocks);
      EdgeStateShape(block, i, Derived(before));
    case Join(l, r) =>
      DerivedIsLocal(l, blocks);
      DerivedIsLocal(r, blocks);
  }

  // ---------------------------------------------------------------------------------------------
  // Unique ownership over whole derivations
  // ---------------------------------------------------------------------------------------------

  ghost predicate NoProductions(blocks: seq<Block>) {
    forall b, k :: 0 <= b < |blocks| && 0 <= k < |blocks[b].cmds| ==> !blocks[b].cmds[k].Produce?
  }

  lemma SameStoragesUnique(st: FlowState, st': FlowState)
    requires UniqueOwner(st) && st'.storages == st.storages
    ensures UniqueOwner(st')
  {
    forall v, w, id | Owns(st', v, id) && Owns(st', w, id) ensures v == w {
      assert Owns(st, v, id) && Owns(st, w, id);
    }
  }

  lemma MoveUnique(st: FlowState, x: Storage, y: Storage, at: nat)
    requires UniqueOwner(st)
    ensures UniqueOwner(MoveStep(st, x, y, at).state)
  {
    var st' := MoveStep(st, x, y, at).state;
    if st' != st {
      if KnownNull(st.storages[y]) {
        RebindUnique(st, st', x, st'.storages[x]);
      } else {
        assert Owns(st, y, st.storages[y].id);
        var given := st.(storages := st.storages[y := st'.storages[y]]);
        RebindUnique(st, given, y, given.storages[y]);
        forall v | v != x ensures !Owns(given, v, st.storages[y].id) {
          if Owns(given, v, st.storages[y].id) { assert Owns(st, v, st.storages[y].id); }
        }
        RebindUnique(given, st', x, st'.storages[x]);
      }
    }
  }

  lemma CopyUnique(st: FlowState, x: Storage, y: Storage, at: nat)
    requires UniqueOwner(st)
    ensures UniqueOwner(CopyStep(st, x, y, at).state)
  {
    var st' := CopyStep(st, x, y, at).state;
    if st' != st { RebindUnique(st, st', x, st'.storages[x]); }
  }

  lemma BorrowUnique(st: FlowState, x: Storage, y: Storage, kind: BorrowKind, at: nat)
    requires UniqueOwner(st)
    ensures UniqueOwner(BorrowStep(st, x, y, kind, at).state)
  {
    var st' := BorrowStep(st, x, y, kind, at).state;
    if st' != st { RebindUnique(st, st', x, st'.storages[x]); }
  }

  lemma MallocUnique(st: FlowState, x: Storage, site: Site, decl: bool, at: nat)
    requires Good(st) && UniqueOwner(st) && 1 <= site < GENERATION_STRIDE
    ensures UniqueOwner(MallocStep(st, x, site, decl, at).state)
  {
    var st' := MallocStep(st, x, site, decl, at).state;
    AllocationIsFresh(st, x, site, at);
    RebindUnique(st, st', x, st'.storages[x]);
  }

  lemma FreeUnique(st: FlowState, x: Storage, at: nat, live: LiveAfter)
    requires UniqueOwner(st)
    ensures UniqueOwner(ExpireBorrows(FreeStep(st, x, at, live).state, live))
  {
    SameStoragesUnique(st, ExpireBorrows(FreeStep(st, x, at, live).state, live));
  }

  lemma StepUnique(c: Cmd, st: FlowState, live: LiveAfter)
    requires Good(st) && UniqueOwner(st) && SmallSite(c) && !c.Produce?
    ensures UniqueOwner(Step(c, st, live).state)
  {
    match c
    case Malloc(x, site, decl, at) =>
      WrittenIdentified(st, x, decl);
      SameStoragesUnique(st, Written(st, x, decl));
      MallocUnique(Written(st, x, decl), x, site, decl, at);
    case Move(x, y, decl, at) =>
      SameStoragesUnique(st, Written(st, x, decl));
      MoveUnique(Written(st, x, decl), x, y, at);
    case SetNull(x, decl, at) => RebindUnique(st, Step(c, st, live).state, x, Step(c, st, live).state.storages[x]);
    case Copy(x, y, decl, at) =>
      SameStoragesUnique(st, Written(st, x, decl));
      CopyUnique(Written(st, x, decl), x, y, at);
    case Borrow(x, y, kind, at) => BorrowUnique(st, x, y, kind, at);
    case Bump(x, at) => RebindUnique(st, Step(c, st, live).state, x, Step(c, st, live).state.storages[x]);
    case Free(x, at) => FreeUnique(st, x, at, live);
    case StoreScalar(x, decl) => SameStoragesUnique(st, Written(st, x, decl));
    case _ => SameStoragesUnique(st, Step(c, st, live).state);
  }

  lemma StepUnmarked(c: Cmd, st: FlowState, live: LiveAfter)
    requires Unmarked(st) && !c.Produce? && SmallSite(c) && TwoGenerations(st)
    ensures Unmarked(Step(c, st, live).state)
  {
    if c.Malloc? {
      var g := AllocationShape(Written(st, c.x, c.decl), c.x, c.site, c.at);
    } else {
      OtherUnmarked(c, st, live);
    }
  }

  lemma MoveUnmarked(st: FlowState, x: Storage, y: Storage, at: nat)
    requires Unmarked(st)
    ensures Unmarked(MoveStep(st, x, y, at).state)
  {
  }

  lemma BorrowUnmarked(st: FlowState, x: Storage, y: Storage, kind: BorrowKind, at: nat)
    requires Unmarked(st)
    ensures Unmarked(BorrowStep(st, x, y, kind, at).state)
  {
  }

  lemma FreeUnmarked(st: FlowState, x: Storage, at: nat, live: LiveAfter)
    requires Unmarked(st)
    ensures Unmarked(FreeStep(st, x, at, live).state)
  {
  }

  lemma OtherUnmarked(c: Cmd, st: FlowState, live: LiveAfter)
    requires Unmarked(st) && !c.Produce? && !c.Malloc?
    ensures Unmarked(Step(c, st, live).state)
  {
    match c
    case Move(x, y, decl, at) => MoveUnmarked(Written(st, x, decl), x, y, at);
    case Borrow(x, y, kind, at) => BorrowUnmarked(st, x, y, kind, at);
    case Free(x, at) => FreeUnmarked(st, x, at, live);
    case _ =>
  }

  lemma JoinUnique(a: FlowState, b: FlowState)
    requires UniqueOwner(a)
    ensures UniqueOwner(JoinFlow(a, b))
  {
    var j := JoinFlow(a, b);
    forall v, w, id | Owns(j, v, id) && Owns(j, w, id) ensures v == w {
      JoinedOwnerOwned(a, b, v, id);
      JoinedOwnerOwned(a, b, w, id);
    }
  }

  /** Ownership after a join was ownership on the left (and on the right). */
  lemma JoinedOwnerOwned(a: FlowState, b: FlowState, v: Storage, id: ObjectId)
    requires Owns(JoinFlow(a, b), v, id)
    ensures Owns(a, v, id) && Owns(b, v, id)
  {
  }

  ghost predicate Single(st: FlowState) {
    UniqueOwner(st) && Unmarked(st)
  }

  lemma StepSingle(c: Cmd, st: FlowState, live: LiveAfter)
    requires Good(st) && Single(st) && SmallSite(c) && !c.Produce?
    ensures Single(Step(c, st, live).state)
  {
    StepUnique(c, st, live);
    StepUnmarked(c, st, live);
  }

  /** Without productions nothing is marked, so an edge has nothing to refine. */
  lemma EdgeSingle(b: Block, i: nat, st: FlowState)
    requires Single(st)
    ensures EdgeState(b, i, st).storages == st.storages
    ensures Single(EdgeState(b, i, st))
  {
    EdgeStateShape(b, i, st);
    SameStoragesUnique(st, EdgeState(b, i, st));
  }

  lemma JoinSingle(a: FlowState, b: FlowState)
    requires Single(a) && Single(b)
    ensures Single(JoinFlow(a, b))
  {
    JoinUnique(a, b);
    var j := JoinFlow(a, b);
    forall v | v in j.storages ensures !j.storages[v].producedMaybe {
      assert !BindingAt(a, v).producedMaybe && !BindingAt(b, v).producedMaybe;
    }
  }

  lemma {:induction false} DerivedOwnerIsUnique(d: Derivation, blocks: seq<Block>)
    requires SmallSites(blocks) && NoProductions(blocks) && DerivesFrom(d, blocks)
    ensures Single(Derived(d))
  {
    match d
    case Start =>
    case Element(before, c, live) =>
      DerivedOwnerIsUnique(before, blocks);
      DerivedIsGood(before, blocks);
      StepSingle(c, Derived(before), live);
    case Edge(before, block, i) =>
      DerivedOwnerIsUnique(before, blocks);
      EdgeSingle(block, i, Derived(before));
    case Join(l, r) =>
      DerivedOwnerIsUnique(l, blocks);
      DerivedOwnerIsUnique(r, blocks);
      JoinSingle(Derived(l), Derived(r));
  }

  /** In every state the program can give rise to, an object has at most one owning storage. */
  lemma ReachableOwnerIsUnique(blocks: seq<Block>, st: FlowState, v: Storage, w: Storage, id: ObjectId)
    requires SmallSites(blocks) && NoProductions(blocks) && Reachable(st, blocks)
    requires Owns(st, v, id) && Owns(st, w, id)
    ensures v == w
  {
    var d :| DerivesFrom(d, blocks) && Derived(d) == st;
    DerivedOwnerIsUnique(d, blocks);
  }
}
