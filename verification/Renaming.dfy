/** Two abstract states that differ only in how they name objects. The two passes of the analysis end
    up with such states: a borrow that one of them remembers and the other does not may make them
    number the next object of a site differently. */
module Renaming {
  import opened Flow
  import opened Height
  import opened Options
  import opened Transfer
  import opened Ownership

  predicate Names(id: ObjectId) {
    id != NULL_ID && id != UNKNOWN_ID
  }

  /** The two bindings differ at most in which object they name. */
  predicate SameKind(a: Binding, b: Binding) {
    && a.relation == b.relation && a.producedMaybe == b.producedMaybe
    && (a.id == NULL_ID <==> b.id == NULL_ID) && (a.id == UNKNOWN_ID <==> b.id == UNKNOWN_ID)
  }

  predicate SameObject(e: FlowState, s: FlowState, i: ObjectId, j: ObjectId) {
    i in e.objects && j in s.objects && e.objects[i].state == s.objects[j].state
  }

  predicate RenamedAt(e: FlowState, s: FlowState, v: Storage) {
    && (v in e.storages <==> v in s.storages)
    && (v in e.storages ==>
          && SameKind(e.storages[v], s.storages[v])
          && (Names(e.storages[v].id) ==> SameObject(e, s, e.storages[v].id, s.storages[v].id)))
  }

  predicate RenamedTogether(e: FlowState, s: FlowState, v: Storage, w: Storage) {
    v in e.storages && w in e.storages && v in s.storages && w in s.storages ==>
      (e.storages[v].id == e.storages[w].id <==> s.storages[v].id == s.storages[w].id)
  }

  /** The same storages with the same relations; storages share an object in one state exactly when
      they do in the other, and corresponding objects are in the same state. The guards and the widened
      sites are the same; borrows and generations need not be. */
  ghost predicate Renamed(e: FlowState, s: FlowState) {
    && (forall v :: RenamedAt(e, s, v)) && (forall v, w :: RenamedTogether(e, s, v, w))
    && e.pending == s.pending && e.widened == s.widened
  }

  /** No generation of `s` is ahead of `e`'s. */
  ghost predicate NotAhead(s: FlowState, e: FlowState) {
    forall site :: Generation(s, site) <= Generation(e, site)
  }

  lemma RenamedSelf(st: FlowState)
    requires Good(st)
    ensures Renamed(st, st) && NotAhead(st, st)
  {
    forall v ensures RenamedAt(st, st, v) { assert BindingIdentified(st, v); }
  }

  lemma ViewRenamed(e: FlowState, s: FlowState, e': FlowState, s': FlowState)
    requires Renamed(e, s) && e'.storages == e.storages && e'.objects == e.objects
    requires s'.storages == s.storages && s'.objects == s.objects
    requires e'.pending == s'.pending && e'.widened == s'.widened
    ensures Renamed(e', s')
  {
    forall v ensures RenamedAt(e', s', v) { assert RenamedAt(e, s, v); }
    forall v, w ensures RenamedTogether(e', s', v, w) { assert RenamedTogether(e, s, v, w); }
  }

  // ---------------------------------------------------------------------------------------------
  // One storage is bound anew
  // ---------------------------------------------------------------------------------------------

  /** `x` is bound anew and the objects that other storages name stay as they are. */
  ghost predicate Rebound(st: FlowState, st': FlowState, x: Storage) {
    && x in st'.storages && st'.storages == st.storages[x := st'.storages[x]]
    && forall w :: w in st.storages && w != x && st.storages[w].id in st.objects ==>
         st.storages[w].id in st'.objects && st'.objects[st.storages[w].id] == st.objects[st.storages[w].id]
  }

  lemma ReboundRenamed(e: FlowState, s: FlowState, e': FlowState, s': FlowState, x: Storage)
    requires Renamed(e, s) && Rebound(e, e', x) && Rebound(s, s', x)
    requires e'.pending == s'.pending && e'.widened == s'.widened
    requires RenamedAt(e', s', x) && forall w :: w != x ==> RenamedTogether(e', s', x, w)
    ensures Renamed(e', s')
  {
    forall v ensures RenamedAt(e', s', v) { assert RenamedAt(e, s, v); }
    forall v, w ensures RenamedTogether(e', s', v, w) {
      assert RenamedTogether(e, s, v, w);
      if v == x && w != x { assert RenamedTogether(e', s', x, w); }
      if w == x && v != x { assert RenamedTogether(e', s', x, v); }
    }
  }

  /** `x` becomes null. */
  lemma NullRenamed(e: FlowState, s: FlowState, x: Storage, at: nat)
    requires Renamed(e, s)
    ensures Renamed(Bind(e, x, NULL_ID, Null, at), Bind(s, x, NULL_ID, Null, at))
  {
    var e', s' := Bind(e, x, NULL_ID, Null, at), Bind(s, x, NULL_ID, Null, at);
    forall w | w != x ensures RenamedTogether(e', s', x, w) { assert RenamedAt(e, s, w); }
    ReboundRenamed(e, s, e', s', x);
  }

  /** `x` is bound to what `y` names. */
  lemma SharedRenamed(e: FlowState, s: FlowState, x: Storage, y: Storage, r: Relation, at: nat)
    requires Renamed(e, s) && y in e.storages && y in s.storages
    ensures Renamed(Bind(e, x, e.storages[y].id, r, at), Bind(s, x, s.storages[y].id, r, at))
  {
    var e', s' := Bind(e, x, e.storages[y].id, r, at), Bind(s, x, s.storages[y].id, r, at);
    assert RenamedAt(e, s, y);
    forall w | w != x ensures RenamedTogether(e', s', x, w) {
      assert RenamedAt(e, s, w) && RenamedTogether(e, s, y, w);
    }
    ReboundRenamed(e, s, e', s', x);
  }

  /** No other storage is bound to `id`. */
  ghost predicate Unbound(st: FlowState, x: Storage, id: ObjectId) {
    forall v :: v in st.storages && v != x ==> st.storages[v].id != id
  }

  /** `x` is bound to an object of its own. */
  ghost predicate BoundAlone(st: FlowState, st': FlowState, x: Storage) {
    && x in st'.storages && st'.storages == st.storages[x := st'.storages[x]]
    && var id := st'.storages[x].id;
    Names(id) && Unbound(st, x, id) && id in st'.objects && st'.objects == st.objects[id := st'.objects[id]]
  }

  lemma AloneRenamed(e: FlowState, s: FlowState, e': FlowState, s': FlowState, x: Storage)
    requires Renamed(e, s) && BoundAlone(e, e', x) && BoundAlone(s, s', x)
    requires SameKind(e'.storages[x], s'.storages[x]) && SameObject(e', s', e'.storages[x].id, s'.storages[x].id)
    requires e'.pending == s'.pending && e'.widened == s'.widened
    ensures Renamed(e', s')
  {
    forall w | w != x ensures RenamedTogether(e', s', x, w) { assert RenamedAt(e, s, w); }
    ReboundRenamed(e, s, e', s', x);
  }

  // ---------------------------------------------------------------------------------------------
  // Allocation
  // ---------------------------------------------------------------------------------------------

  /** An allocation that the state does not retain keeps its generation. */
  lemma FirstChoice(st: FlowState, x: Storage, site: Site, at: nat)
    requires 1 <= site < GENERATION_STRIDE && site !in st.widened && !Retained(site, x, st)
    ensures var looked := st.(generations := st.generations[site := Generation(st, site)]);
      BindAllocation(st, x, site, at) == AllocateAs(looked, x, site, Generation(st, site), at)
  {
    var looked := st.(generations := st.generations[site := Generation(st, site)]);
    assert Retained(site, x, looked) == Retained(site, x, st);
  }

  /** A silent allocation binds its target alone, to the state's present generation or the next. */
  lemma SilentAllocation(st: FlowState, x: Storage, site: Site, at: nat)
    requires AllIdentified(st) && TwoGenerations(st) && 1 <= site < GENERATION_STRIDE
    requires BindAllocation(st, x, site, at).reports == {}
    ensures var st' := BindAllocation(st, x, site, at).state;
      && BoundAlone(st, st', x) && st'.storages[x].relation == Owner && !st'.storages[x].producedMaybe
      && st'.objects[st'.storages[x].id].state == Owned
      && st'.pending == st.pending && st'.widened == st.widened && site !in st.widened
    ensures Generation(st, site) <= Generation(BindAllocation(st, x, site, at).state, site) <= 1
    ensures ObjectIdFor(site, Generation(BindAllocation(st, x, site, at).state, site)) != UNKNOWN_ID
    ensures forall other :: other != site ==>
      Generation(BindAllocation(st, x, site, at).state, other) == Generation(st, other)
  {
    AllocationIsFresh(st, x, site, at);
    var g := AllocationShape(st, x, site, at);
    IdentityNamesItsSite(site, g);
  }

  lemma SameSecondGeneration(site: Site, g: nat, h: nat)
    requires 1 <= site < GENERATION_STRIDE && g <= h <= 1 && ObjectIdFor(site, h) != UNKNOWN_ID
    ensures ObjectIdFor(site, g) != UNKNOWN_ID
  {
  }

  lemma MallocRenamed(e: FlowState, s: FlowState, x: Storage, site: Site, decl: bool, at: nat)
    requires Renamed(e, s) && NotAhead(s, e) && Good(e) && Good(s) && 1 <= site < GENERATION_STRIDE
    requires MallocStep(e, x, site, decl, at).reports == {}
    requires site in s.widened || !Retained(site, x, s)
    ensures Renamed(MallocStep(e, x, site, decl, at).state, MallocStep(s, x, site, decl, at).state)
    ensures NotAhead(MallocStep(s, x, site, decl, at).state, MallocStep(e, x, site, decl, at).state)
  {
    var e', s' := BindAllocation(e, x, site, at).state, BindAllocation(s, x, site, at).state;
    SilentAllocation(e, x, site, at);
    FirstChoice(s, x, site, at);
    SameSecondGeneration(site, Generation(s, site), Generation(e', site));
    SilentAllocation(s, x, site, at);
    AloneRenamed(e, s, e', s', x);
    forall other ensures Generation(s', other) <= Generation(e', other) {
      assert Generation(s, other) <= Generation(e, other);
    }
  }

  // ---------------------------------------------------------------------------------------------
  // The other elements
  // ---------------------------------------------------------------------------------------------

  lemma WrittenRenamed(e: FlowState, s: FlowState, x: Storage, decl: bool)
    requires Renamed(e, s)
    ensures Renamed(Written(e, x, decl), Written(s, x, decl))
  {
    ViewRenamed(e, s, Written(e, x, decl), Written(s, x, decl));
  }

  lemma ExpiryRenamed(e: FlowState, s: FlowState, live: LiveAfter)
    requires Renamed(e, s)
    ensures Renamed(ExpireBorrows(e, live), ExpireBorrows(s, Unmeasured))
  {
    ViewRenamed(e, s, ExpireBorrows(e, live), ExpireBorrows(s, Unmeasured));
  }

  lemma CopyRenamed(e: FlowState, s: FlowState, x: Storage, y: Storage, at: nat)
    requires Renamed(e, s) && CopyStep(e, x, y, at).reports == {}
    ensures Renamed(CopyStep(e, x, y, at).state, CopyStep(s, x, y, at).state)
  {
    assert RenamedAt(e, s, y);
    if e.storages[y].id == NULL_ID {
      NullRenamed(e, s, x, at);
    } else {
      SharedRenamed(e, s, x, y, CopiedRelation(e.storages[y].relation), at);
    }
  }

  /** The source of a successful move stays bound to the object it gives away. */
  lemma GivenRenamed(e: FlowState, s: FlowState, y: Storage, at: nat)
    requires Renamed(e, s) && y in e.storages && y in s.storages && Names(e.storages[y].id)
    ensures Renamed(
      e.(storages := e.storages[y := e.storages[y].(relation := Moved, where := At(at))]),
      s.(storages := s.storages[y := s.storages[y].(relation := Moved, where := At(at))]))
  {
    var e' := e.(storages := e.storages[y := e.storages[y].(relation := Moved, where := At(at))]);
    var s' := s.(storages := s.storages[y := s.storages[y].(relation := Moved, where := At(at))]);
    assert RenamedAt(e, s, y);
    forall w | w != y ensures RenamedTogether(e', s', y, w) { assert RenamedTogether(e, s, y, w); }
    ReboundRenamed(e, s, e', s', y);
  }

  lemma SameIgnored(e: FlowState, s: FlowState, y: Storage)
    requires Renamed(e, s) && Good(e) && Good(s) && Local(e) && Local(s) && Wf(e) && Wf(s)
    ensures MoveIgnored(e, y) <==> MoveIgnored(s, y)
    ensures MoveIgnored(e, y) <==> y !in e.storages || e.storages[y].id == UNKNOWN_ID
  {
    assert RenamedAt(e, s, y);
    if y in e.storages {
      assert BindingIdentified(e, y) && BindingIdentified(s, y);
      assert WfBinding(e.storages[y]) && WfBinding(s.storages[y]);
    }
  }

  /** A successful move: the null, or the object that `y` owns. */
  lemma MoveRenamed(e: FlowState, s: FlowState, x: Storage, y: Storage, at: nat)
    requires Renamed(e, s) && Good(e) && Good(s) && Local(e) && Local(s) && Wf(e) && Wf(s)
    requires MoveStep(e, x, y, at).reports == {} && (y in s.borrows ==> y in e.borrows)
    ensures Renamed(MoveStep(e, x, y, at).state, MoveStep(s, x, y, at).state)
  {
    SameIgnored(e, s, y);
    if !MoveIgnored(e, y) {
      assert RenamedAt(e, s, y) && RenamedAt(e, s, x);
      if KnownNull(e.storages[y]) {
        NullRenamed(e, s, x, at);
      } else {
        MoveGives(e, s, x, y, at);
      }
    }
  }

  lemma MoveGives(e: FlowState, s: FlowState, x: Storage, y: Storage, at: nat)
    requires Renamed(e, s) && !MoveIgnored(e, y) && !MoveIgnored(s, y) && y !in s.borrows
    requires !KnownNull(e.storages[y]) && MoveStep(e, x, y, at).reports == {} && Wf(e) && Wf(s)
    ensures Renamed(MoveStep(e, x, y, at).state, MoveStep(s, x, y, at).state)
  {
    assert RenamedAt(e, s, y) && RenamedAt(e, s, x);
    assert WfBinding(e.storages[y]) && WfBinding(s.storages[y]);
    var given := e.(storages := e.storages[y := e.storages[y].(relation := Moved, where := At(at))]);
    var given' := s.(storages := s.storages[y := s.storages[y].(relation := Moved, where := At(at))]);
    GivenRenamed(e, s, y, at);
    SharedRenamed(given, given', x, y, Owner, at);
    assert Overwrites(e, x) == Overwrites(s, x);
  }

  /** Whether or not the borrow is created, its storage is bound. */
  lemma BorrowRenamed(e: FlowState, s: FlowState, x: Storage, y: Storage, kind: BorrowKind, at: nat)
    requires Renamed(e, s) && BorrowStep(e, x, y, kind, at).reports == {}
    ensures Renamed(BorrowStep(e, x, y, kind, at).state, BorrowStep(s, x, y, kind, at).state)
  {
    assert RenamedAt(e, s, y);
    SharedRenamed(e, s, x, y, Alias, at);
    ViewRenamed(Bind(e, x, e.storages[y].id, Alias, at), Bind(s, x, s.storages[y].id, Alias, at),
      BorrowStep(e, x, y, kind, at).state, BorrowStep(s, x, y, kind, at).state);
  }

  /** The object that `x` names changes its state. */
  lemma ChangedRenamed(e: FlowState, s: FlowState, e': FlowState, s': FlowState, x: Storage)
    requires Renamed(e, s) && x in e.storages && x in s.storages && Names(e.storages[x].id)
    requires e'.storages == e.storages && e'.pending == e.pending && e'.widened == e.widened
    requires s'.storages == s.storages && s'.pending == s.pending && s'.widened == s.widened
    requires var i, j := e.storages[x].id, s.storages[x].id;
      && i in e'.objects && e'.objects == e.objects[i := e'.objects[i]]
      && j in s'.objects && s'.objects == s.objects[j := s'.objects[j]] && e'.objects[i].state == s'.objects[j].state
    ensures Renamed(e', s')
  {
    forall v ensures RenamedAt(e', s', v) { assert RenamedAt(e, s, v) && RenamedTogether(e, s, x, v); }
    forall v, w ensures RenamedTogether(e', s', v, w) { assert RenamedTogether(e, s, v, w); }
  }

  /** What becomes of an object whose destruction is not reported. */
  function DestroyedState(r: Relation, s: ObjectState): ObjectState {
    if s == NullObject then NullObject else if r == MaybeNull then MaybeDead else Dead
  }

  lemma FreeEffect(st: FlowState, x: Storage, at: nat, live: LiveAfter)
    requires Local(st) && x in st.storages && Names(st.storages[x].id) && st.storages[x].id in st.objects
    requires !st.storages[x].producedMaybe && !MovedRelation(st.storages[x].relation)
    requires var s := st.objects[st.storages[x].id].state; s == Owned || s == NullObject
    ensures var id, st' := st.storages[x].id, FreeStep(st, x, at, live).state;
      && st'.storages == st.storages && st'.pending == st.pending && st'.widened == st.widened
      && id in st'.objects && st'.objects == st.objects[id := st'.objects[id]]
      && st'.objects[id].state == DestroyedState(st.storages[x].relation, st.objects[id].state)
  {
  }

  lemma FreeRenamed(e: FlowState, s: FlowState, x: Storage, at: nat, live: LiveAfter)
    requires Renamed(e, s) && Local(e) && Local(s) && FreeStep(e, x, at, live).reports == {}
    ensures Renamed(FreeStep(e, x, at, live).state, FreeStep(s, x, at, Unmeasured).state)
  {
    assert RenamedAt(e, s, x);
    if !KnownNull(e.storages[x]) {
      SilentFree(e, x, at, live);
      FreeEffect(e, x, at, live);
      FreeEffect(s, x, at, Unmeasured);
      ChangedRenamed(e, s, FreeStep(e, x, at, live).state, FreeStep(s, x, at, Unmeasured).state, x);
    }
  }

  lemma SilentFree(st: FlowState, x: Storage, at: nat, live: LiveAfter)
    requires x in st.storages && !KnownNull(st.storages[x]) && FreeStep(st, x, at, live).reports == {}
    ensures Names(st.storages[x].id) && st.storages[x].id in st.objects
    ensures !st.storages[x].producedMaybe && !MovedRelation(st.storages[x].relation)
    ensures var s := st.objects[st.storages[x].id].state; s == Owned || s == NullObject
  {
  }

  /** No other storage is bound to what an admissible production makes. */
  ghost predicate ProductionFresh(c: Cmd, st: FlowState) {
    c.Produce? && c.production.admissible ==> Unbound(st, c.production.dest, ObjectIdFor(c.production.site, 0))
  }

  /** What an accepted production changes: its slot's binding and object. */
  lemma ProduceShape(st: FlowState, p: Production, decl: bool, at: nat)
    requires Accepts(st, p) && 1 <= p.site < GENERATION_STRIDE
    ensures var st' := ProduceStep(st, p, decl, at).state;
      && p.dest in st'.storages && st'.storages == st.storages[p.dest := ProducedBinding(p, p.site, at)]
      && st'.storages[p.dest].id == p.site == ObjectIdFor(p.site, 0)
      && p.site in st'.objects && st'.objects == st.objects[p.site := st'.objects[p.site]]
      && st'.objects[p.site].state == Owned && st'.widened == st.widened
  {
  }

  lemma AppliesSamePending(e: FlowState, s: FlowState, p: Production, at: nat)
    requires e.pending == s.pending
    ensures RecordGuard(ApplyProduce(e, p, at).state, p).pending == RecordGuard(ApplyProduce(s, p, at).state, p).pending
  {
  }

  lemma KillsSamePending(e: FlowState, s: FlowState, p: Production, accepted: bool, x: Storage, exempt: Option<nat>)
    requires e.pending == s.pending
    ensures KillInCall(e, p, accepted).pending == KillInCall(s, p, accepted).pending
    ensures KillForWrite(e, x, exempt).pending == KillForWrite(s, x, exempt).pending
  {
  }

  lemma ProducesSamePending(e: FlowState, s: FlowState, p: Production, decl: bool, at: nat)
    requires e.pending == s.pending && Accepts(e, p) && Accepts(s, p)
    ensures ProduceStep(e, p, decl, at).state.pending == ProduceStep(s, p, decl, at).state.pending
  {
    KillsSamePending(e, s, p, true, 0, None);
    var e1, s1 := KillInCall(e, p, true), KillInCall(s, p, true);
    AppliesSamePending(e1, s1, p, at);
    if p.result.Some? {
      KillsSamePending(RecordGuard(ApplyProduce(e1, p, at).state, p), RecordGuard(ApplyProduce(s1, p, at).state, p),
        p, true, p.result.value, Some(p.call));
    }
  }

  lemma ProduceRenamed(e: FlowState, s: FlowState, p: Production, decl: bool, at: nat)
    requires Renamed(e, s) && 1 <= p.site < GENERATION_STRIDE && ProduceStep(e, p, decl, at).reports == {}
    requires ProductionFresh(Produce(p, decl, at), e) && ProductionFresh(Produce(p, decl, at), s)
    ensures Renamed(ProduceStep(e, p, decl, at).state, ProduceStep(s, p, decl, at).state)
  {
    assert RenamedAt(e, s, p.dest);
    assert Accepts(e, p) && Accepts(s, p);
    ProduceShape(e, p, decl, at);
    ProduceShape(s, p, decl, at);
    ProducesSamePending(e, s, p, decl, at);
    AloneRenamed(e, s, ProduceStep(e, p, decl, at).state, ProduceStep(s, p, decl, at).state, p.dest);
  }

  lemma OtherNotAhead(c: Cmd, e: FlowState, s: FlowState, live: LiveAfter)
    requires !c.Malloc? && NotAhead(s, e)
    ensures NotAhead(Step(c, s, Unmeasured).state, Step(c, e, live).state)
  {
    OtherGenerations(c, e, live);
    OtherGenerations(c, s, Unmeasured);
    forall site ensures Generation(Step(c, s, Unmeasured).state, site) <= Generation(Step(c, e, live).state, site) {
      assert Generation(s, site) <= Generation(e, site);
    }
  }

  /** What is known of every state that the program can give rise to. */
  ghost predicate Sane(st: FlowState) {
    Good(st) && Local(st) && Wf(st)
  }

  lemma WrittenIsSane(st: FlowState, x: Storage, decl: bool)
    requires Sane(st)
    ensures Sane(Written(st, x, decl))
  {
    WrittenIdentified(st, x, decl);
  }

  lemma AssignmentRenamed(c: Cmd, e: FlowState, s: FlowState, live: LiveAfter)
    requires Renamed(e, s) && Sane(e) && Sane(s) && (c.Copy? || c.Move? || c.SetNull? || c.StoreScalar?)
    requires Step(c, e, live).reports == {} && (c.Move? && c.y in s.borrows ==> c.y in e.borrows)
    ensures Renamed(Step(c, e, live).state, Step(c, s, Unmeasured).state)
  {
    WrittenRenamed(e, s, c.x, c.decl);
    WrittenIsSane(e, c.x, c.decl);
    WrittenIsSane(s, c.x, c.decl);
    var e', s' := Written(e, c.x, c.decl), Written(s, c.x, c.decl);
    match c
    case Copy(x, y, decl, at) => CopyRenamed(e', s', x, y, at);
    case Move(x, y, decl, at) => MoveRenamed(e', s', x, y, at);
    case SetNull(x, decl, at) => NullRenamed(e', s', x, at);
    case StoreScalar(_, _) =>
  }

  lemma CallRenamed(c: Cmd, e: FlowState, s: FlowState, live: LiveAfter)
    requires Renamed(e, s) && Sane(e) && Sane(s) && SmallSite(c) && (c.Free? || c.Deref? || c.CallPoint? || c.Produce?)
    requires Step(c, e, live).reports == {} && ProductionFresh(c, e) && ProductionFresh(c, s)
    ensures Renamed(Step(c, e, live).state, Step(c, s, Unmeasured).state)
  {
    match c
    case Free(x, at) =>
      FreeRenamed(e, s, x, at, live);
      ExpiryRenamed(FreeStep(e, x, at, live).state, FreeStep(s, x, at, Unmeasured).state, live);
    case Produce(p, decl, at) =>
      ProduceRenamed(e, s, p, decl, at);
      ExpiryRenamed(ProduceStep(e, p, decl, at).state, ProduceStep(s, p, decl, at).state, live);
    case _ => ExpiryRenamed(e, s, live);
  }

  /** An element at which `e`'s pass is silent keeps the two states alike, unless a borrow decides: a
      reference retained in `s` only, or a borrow of the move's source that only `s` has. */
  lemma StepRenamed(c: Cmd, e: FlowState, s: FlowState, live: LiveAfter)
    requires Renamed(e, s) && NotAhead(s, e) && Sane(e) && Sane(s) && SmallSite(c)
    requires Step(c, e, live).reports == {} && ProductionFresh(c, e) && ProductionFresh(c, s)
    requires c.Malloc? ==> c.site in s.widened || !Retained(c.site, c.x, s)
    requires c.Move? && c.y in s.borrows ==> c.y in e.borrows
    ensures Renamed(Step(c, e, live).state, Step(c, s, Unmeasured).state)
    ensures NotAhead(Step(c, s, Unmeasured).state, Step(c, e, live).state)
  {
    if c.Malloc? {
      WrittenRenamed(e, s, c.x, c.decl);
      WrittenIsSane(e, c.x, c.decl);
      WrittenIsSane(s, c.x, c.decl);
      var e', s' := Written(e, c.x, c.decl), Written(s, c.x, c.decl);
      assert NotAhead(s', e') by {
        forall site ensures Generation(s', site) <= Generation(e', site) {
          assert Generation(s, site) <= Generation(e, site);
        }
      }
      MallocRenamed(e', s', c.x, c.site, c.decl, c.at);
    } else {
      OtherNotAhead(c, e, s, live);
      match c
      case Borrow(x, y, kind, at) => BorrowRenamed(e, s, x, y, kind, at);
      case Declare(_) =>
      case Bump(_, _) =>
      case Opaque =>
      case Free(_, _) => CallRenamed(c, e, s, live);
      case Deref(_, _) => CallRenamed(c, e, s, live);
      case CallPoint => CallRenamed(c, e, s, live);
      case Enclosing(_) =>
      case Produce(_, _, _) => CallRenamed(c, e, s, live);
      case _ => AssignmentRenamed(c, e, s, live);
    }
  }
}
