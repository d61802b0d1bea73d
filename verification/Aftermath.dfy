/** What moves, destructions and borrows leave behind: which reports a later access, destruction or move
    meets, whatever happens in between. */
module Aftermath {
  import opened Flow
  import opened Height
  import opened Transfer
  import opened Program
  import opened Ownership
  import opened Renaming
  import opened Soundness
  import opened Agreement

  // ---------------------------------------------------------------------------------------------
  // What an element leaves alone
  // ---------------------------------------------------------------------------------------------

  /** The element stores a pointer into `v`. */
  predicate StoresInto(c: Cmd, v: Storage) {
    match c
    case Malloc(x, _, _, _) => x == v
    case SetNull(x, _, _) => x == v
    case Copy(x, _, _, _) => x == v
    case Move(x, _, _, _) => x == v
    case Borrow(x, _, _, _) => x == v
    case Bump(x, _) => x == v
    case Produce(p, _, _) => p.dest == v
    case _ => false
  }

  /** The binding of `v` is the same. */
  predicate SameBinding(st: FlowState, st': FlowState, v: Storage) {
    v in st.storages && v in st'.storages && st'.storages[v] == st.storages[v]
  }

  /** Who may give the object away or destroy it does not change. */
  predicate SameRights(st: FlowState, st': FlowState, id: ObjectId) {
    id in st.objects && id in st'.objects && st'.objects[id].origin == st.objects[id].origin &&
    st'.objects[id].capability == st.objects[id].capability
  }

  lemma AllocationLeaves(st: FlowState, x: Storage, site: Site, decl: bool, at: nat, v: Storage, id: ObjectId)
    requires v != x && v in st.storages && id in st.objects
    ensures var st' := MallocStep(st, x, site, decl, at).state;
      SameBinding(st, st', v) && SameRights(st, st', id) && st'.borrows == st.borrows
  {
    var st' := BindAllocation(st, x, site, at).state;
    assert MallocStep(st, x, site, decl, at).state == st';
  }

  lemma MoveLeaves(st: FlowState, x: Storage, y: Storage, at: nat, v: Storage)
    requires v != x && v in st.storages &&
      (v == y ==> st.storages[v].relation != Owner || DeadOrMaybeDead(st, st.storages[v].id))
    ensures var st' := MoveStep(st, x, y, at).state;
      SameBinding(st, st', v) && st'.objects == st.objects && st'.borrows == st.borrows
  {
  }

  lemma BorrowLeaves(st: FlowState, x: Storage, y: Storage, kind: BorrowKind, at: nat, v: Storage)
    requires v != x && v in st.storages
    ensures var st' := BorrowStep(st, x, y, kind, at).state;
      SameBinding(st, st', v) && st'.objects == st.objects && (v in st'.borrows <==> v in st.borrows)
  {
  }

  lemma FreeLeaves(st: FlowState, x: Storage, at: nat, live: LiveAfter, v: Storage, id: ObjectId)
    requires v in st.storages && id in st.objects
    ensures var st' := FreeStep(st, x, at, live).state;
      SameBinding(st, st', v) && SameRights(st, st', id) && st'.borrows.Keys == st.borrows.Keys &&
      (DeadOrMaybeDead(st, id) ==> DeadOrMaybeDead(st', id))
  {
  }

  lemma ProduceLeaves(st: FlowState, p: Production, decl: bool, at: nat, v: Storage, id: ObjectId)
    requires v != p.dest && v in st.storages && id in st.objects
    ensures var st' := ProduceStep(st, p, decl, at).state;
      SameBinding(st, st', v) && SameRights(st, st', id) && st'.borrows == st.borrows
  {
  }

  lemma CopyLeaves(st: FlowState, x: Storage, y: Storage, at: nat, v: Storage)
    requires v != x && v in st.storages
    ensures var st' := CopyStep(st, x, y, at).state;
      SameBinding(st, st', v) && st'.objects == st.objects && st'.borrows == st.borrows
  {
  }

  predicate Simple(c: Cmd) {
    c.SetNull? || c.Declare? || c.Deref? || c.Bump? || c.StoreScalar? || c.CallPoint? || c.Enclosing? || c.Opaque?
  }

  lemma SimpleLeaves(c: Cmd, st: FlowState, live: LiveAfter, v: Storage)
    requires Simple(c) && !StoresInto(c, v) && v in st.storages
    ensures var st' := Step(c, st, live).state;
      SameBinding(st, st', v) && st'.objects == st.objects && (v in st'.borrows ==> v in st.borrows)
  {
  }

  /** The value of `v` stays as it is: nothing is stored into it, and it is nobody's to give. */
  predicate Resting(c: Cmd, st: FlowState, v: Storage) {
    && !StoresInto(c, v) && v in st.storages
    && (st.storages[v].relation != Owner || DeadOrMaybeDead(st, st.storages[v].id))
  }

  lemma StepLeaves(c: Cmd, st: FlowState, live: LiveAfter, v: Storage, id: ObjectId)
    requires Resting(c, st, v) && id in st.objects
    ensures var st' := Step(c, st, live).state;
      SameBinding(st, st', v) && SameRights(st, st', id) && (v in st'.borrows ==> v in st.borrows)
  {
    match c
    case Malloc(x, site, decl, at) => AllocationLeaves(Written(st, x, decl), x, site, decl, at, v, id);
    case Copy(x, y, decl, at) => CopyLeaves(Written(st, x, decl), x, y, at, v);
    case Move(x, y, decl, at) => MoveLeaves(Written(st, x, decl), x, y, at, v);
    case Borrow(x, y, kind, at) => BorrowLeaves(st, x, y, kind, at, v);
    case Free(x, at) => FreeLeaves(st, x, at, live, v, id);
    case Produce(p, decl, at) => ProduceLeaves(st, p, decl, at, v, id);
    case _ => SimpleLeaves(c, st, live, v);
  }

  /** A copy names what its source names, as no owner of it; what has been given away stays so. */
  lemma CopyExactly(x: Storage, y: Storage, decl: bool, at: nat, st: FlowState, live: LiveAfter)
    requires NamesObject(st, y)
    ensures var st' := Step(Copy(x, y, decl, at), st, live).state;
      && NamesObject(st', x) && st'.storages[x].id == st.storages[y].id && !st'.storages[x].producedMaybe
      && st'.storages[x].relation in {Alias, Moved, MaybeMoved}
      && (MovedRelation(st.storages[y].relation) ==> st'.storages[x].relation == st.storages[y].relation)
      && (!MovedRelation(st.storages[y].relation) ==> st'.storages[x].relation == Alias)
      && st'.objects == st.objects && st'.borrows == st.borrows
  {
  }

  // ---------------------------------------------------------------------------------------------
  // After a move
  // ---------------------------------------------------------------------------------------------

  /** A parameter's object is this function's to give away only by capability. */
  predicate MayGive(o: ObjectInfo) {
    o.origin == Parameter ==> o.capability == MayTakeOwnership
  }

  /** `v` names an object that is on record. */
  predicate NamesObject(st: FlowState, v: Storage) {
    v in st.storages && Names(st.storages[v].id) && st.storages[v].id in st.objects
  }

  /** Overwriting `x` loses no object that may be alive. */
  predicate Vacant(st: FlowState, x: Storage) {
    NamesObject(st, x) ==> st.objects[st.storages[x].id].state in {Dead, NullObject, Untracked}
  }

  /** `y` owns an object that it may hand over to `x`. */
  predicate CanHandOver(st: FlowState, x: Storage, y: Storage) {
    && NamesObject(st, y) && x != y && y !in st.borrows && !st.storages[y].producedMaybe
    && st.storages[y].relation == Owner && !DeadOrMaybeDead(st, st.storages[y].id)
    && MayGive(st.objects[st.storages[y].id]) && Vacant(st, x)
  }

  /** `v` has given its object away. */
  predicate Emptied(st: FlowState, v: Storage) {
    && NamesObject(st, v) && MovedRelation(st.storages[v].relation) && !st.storages[v].producedMaybe
    && v !in st.borrows && MayGive(st.objects[st.storages[v].id])
  }

  lemma HandingOver(x: Storage, y: Storage, decl: bool, at: nat, st: FlowState, live: LiveAfter)
    requires CanHandOver(st, x, y)
    ensures var o := Step(Move(x, y, decl, at), st, live);
      && o.reports == {} && Emptied(o.state, y) && Owns(o.state, x, st.storages[y].id)
      && o.state.objects == st.objects && o.state.borrows == st.borrows
  {
    var st0 := Written(st, x, decl);
    assert !Overwrites(st0, x);
  }

  lemma EmptiedStays(c: Cmd, st: FlowState, live: LiveAfter, v: Storage)
    requires Emptied(st, v) && !StoresInto(c, v)
    ensures Emptied(Step(c, st, live).state, v)
  {
    StepLeaves(c, st, live, v, st.storages[v].id);
  }

  /** A copy of a pointer that gave its object away is one, too. */
  lemma EmptiedCopies(x: Storage, v: Storage, decl: bool, at: nat, st: FlowState, live: LiveAfter)
    requires Emptied(st, v) && x !in st.borrows
    ensures Emptied(Step(Copy(x, v, decl, at), st, live).state, x)
  {
  }

  lemma {:induction false} EmptiedUntil(cmds: seq<Cmd>, st: FlowState, live: seq<LiveAfter>, j: nat, k: nat, v: Storage)
    requires j <= k <= |cmds| == |live| && Emptied(StateBefore(cmds, st, live, j), v)
    requires forall l :: j <= l < k ==> !StoresInto(cmds[l], v)
    ensures Emptied(StateBefore(cmds, st, live, k), v)
    decreases k
  {
    if j < k {
      EmptiedUntil(cmds, st, live, j, k - 1, v);
      StateBeforeNext(cmds, st, live, k - 1);
      EmptiedStays(cmds[k - 1], StateBefore(cmds, st, live, k - 1), live[k - 1], v);
    }
  }

  /** A branch decides nothing about it. */
  lemma EdgeKeepsEmptied(b: Block, i: nat, st: FlowState, v: Storage)
    requires Emptied(st, v)
    ensures Emptied(EdgeState(b, i, st), v)
  {
    EdgeStateShape(b, i, st);
  }

  /** It is still given away after a join exactly if the other side names the same object, not as one
      that may be null, and as no borrow. */
  lemma JoinKeepsEmptied(a: FlowState, b: FlowState, v: Storage)
    requires Emptied(a, v) && NamesObject(b, v) && Wf(b) && !b.storages[v].producedMaybe
    requires SameRights(a, b, a.storages[v].id)
    ensures Emptied(JoinFlow(a, b), v) <==>
      b.storages[v].id == a.storages[v].id && b.storages[v].relation != MaybeNull && v !in b.borrows
  {
  }

  /** What is reported of a pointer that gave its object away: a use after move when it is accessed, a
      destruction by a non-owner, which destroys nothing, when it is freed, and a double move. */
  lemma EmptiedUses(st: FlowState, live: LiveAfter, v: Storage, x: Storage, decl: bool, at: nat)
    requires Emptied(st, v)
    ensures Step(Deref(v, at), st, live).reports == {UseAfterMove}
    ensures var o := Step(Free(v, at), st, live);
      o.state.objects == st.objects && DestroyFromNonOwner in o.reports &&
      (st.objects[st.storages[v].id].origin != Parameter ==>
        forall r :: r in o.reports ==> r == DestroyFromNonOwner || r.DestroyedWhileBorrowed?)
    ensures var o := Step(Move(x, v, decl, at), st, live);
      o.reports == {DoubleMove} && o.state.storages == st.storages && o.state.objects == st.objects
  {
  }

  /** After `y` has handed its object over and anything has happened that stores nothing into `y`, every
      use of `y` is reported. */
  lemma MovedFromIsReported(cmds: seq<Cmd>, st: FlowState, live: seq<LiveAfter>, j: nat, k: nat)
    requires j < k < |cmds| == |live| && cmds[j].Move?
    requires CanHandOver(StateBefore(cmds, st, live, j), cmds[j].x, cmds[j].y)
    requires forall l :: j < l < k ==> !StoresInto(cmds[l], cmds[j].y)
    ensures Step(cmds[j], StateBefore(cmds, st, live, j), live[j]).reports == {}
    ensures var c, o := cmds[k], Step(cmds[k], StateBefore(cmds, st, live, k), live[k]);
      && (c.Deref? && c.x == cmds[j].y ==> o.reports == {UseAfterMove})
      && (c.Free? && c.x == cmds[j].y ==> DestroyFromNonOwner in o.reports)
      && (c.Move? && c.y == cmds[j].y ==> o.reports == {DoubleMove})
  {
    var c, m := cmds[k], cmds[j];
    HandingOver(m.x, m.y, m.decl, m.at, StateBefore(cmds, st, live, j), live[j]);
    StateBeforeNext(cmds, st, live, j);
    EmptiedUntil(cmds, st, live, j + 1, k, m.y);
    var before := StateBefore(cmds, st, live, k);
    if c.Deref? && c.x == m.y { EmptiedUses(before, live[k], m.y, m.x, false, c.at); }
    if c.Free? && c.x == m.y { EmptiedUses(before, live[k], m.y, m.x, false, c.at); }
    if c.Move? && c.y == m.y { EmptiedUses(before, live[k], m.y, c.x, c.decl, c.at); }
  }

  // ---------------------------------------------------------------------------------------------
  // After a destruction
  // ---------------------------------------------------------------------------------------------

  /** `x` may destroy the live object that it names. */
  predicate CanDestroy(st: FlowState, x: Storage) {
    && NamesObject(st, x) && !st.storages[x].producedMaybe && !MovedRelation(st.storages[x].relation)
    && var o := st.objects[st.storages[x].id];
    && o.state == Owned && !(o.origin == Parameter && o.capability == MayBorrow)
  }

  /** `v` still names the object, which may be dead. */
  predicate Dangling(st: FlowState, v: Storage, id: ObjectId) {
    && NamesObject(st, v) && st.storages[v].id == id && DeadOrMaybeDead(st, id)
    && !st.storages[v].producedMaybe && !MovedRelation(st.storages[v].relation)
    && !(st.objects[id].origin == Parameter && st.objects[id].capability == MayBorrow)
  }

  /** A destruction without a used borrow is silent, and every other name of the object dangles. */
  lemma Destroying(x: Storage, at: nat, st: FlowState, live: LiveAfter, v: Storage)
    requires CanDestroy(st, x) && NamesObject(st, v) && st.storages[v].id == st.storages[x].id
    requires !st.storages[v].producedMaybe && !MovedRelation(st.storages[v].relation)
    ensures var o := Step(Free(x, at), st, live);
      && Dangling(o.state, v, st.storages[x].id)
      && (forall r :: r in o.reports ==> r.DestroyedWhileBorrowed?)
  {
  }

  /** What a destruction changes: the object that it may destroy is dead, or may be if the pointer may be
      null, and its borrows are invalid if it is dead for certain. */
  lemma DestroyingExactly(x: Storage, at: nat, st: FlowState, live: LiveAfter, id: ObjectId)
    ensures var st' := FreeStep(st, x, at, live).state;
      && st'.storages == st.storages && st'.objects.Keys == st.objects.Keys && st'.pending == st.pending
      && (id in st.objects ==>
            if CanDestroy(st, x) && st.storages[x].id == id then
              st'.objects[id].state == if st.storages[x].relation == MaybeNull then MaybeDead else Dead
            else st'.objects[id].state == st.objects[id].state)
  {
  }

  lemma BorrowsAfterDestroying(x: Storage, at: nat, st: FlowState, live: LiveAfter, v: Storage)
    requires v in st.borrows
    ensures var st' := FreeStep(st, x, at, live).state;
      && v in st'.borrows && st'.borrows[v].parent == st.borrows[v].parent && st'.borrows[v].kind == st.borrows[v].kind
      && st'.borrows[v].state ==
           if CanDestroy(st, x) && st.storages[x].relation != MaybeNull && st.borrows[v].parent == st.storages[x].id &&
              st.borrows[v].state == Live
           then Invalid else st.borrows[v].state
  {
  }

  /** An allocation of a named object's identity would be no fresh one. */
  lemma AllocationKeepsDead(st: FlowState, x: Storage, site: Site, decl: bool, at: nat, v: Storage, id: ObjectId)
    requires Good(st) && 1 <= site < GENERATION_STRIDE && v != x && NamesObject(st, v) && st.storages[v].id == id
    ensures MallocStep(st, x, site, decl, at).state.objects[id] == st.objects[id]
  {
    var g := AllocationShape(st, x, site, at);
    AllocationIsFresh(st, x, site, at);
  }

  lemma ProductionKeepsDead(st: FlowState, p: Production, decl: bool, at: nat, v: Storage, id: ObjectId)
    requires 1 <= p.site < GENERATION_STRIDE && ProductionFresh(Produce(p, decl, at), st)
    requires v != p.dest && NamesObject(st, v) && st.storages[v].id == id
    ensures ProduceStep(st, p, decl, at).state.objects[id] == st.objects[id]
  {
    if Accepts(st, p) { ProduceShape(st, p, decl, at); }
  }

  lemma DeadStays(c: Cmd, st: FlowState, live: LiveAfter, v: Storage, id: ObjectId)
    requires Good(st) && SmallSite(c) && ProductionFresh(c, st)
    requires !StoresInto(c, v) && NamesObject(st, v) && st.storages[v].id == id && DeadOrMaybeDead(st, id)
    ensures DeadOrMaybeDead(Step(c, st, live).state, id)
  {
    match c
    case Malloc(x, site, decl, at) =>
      WrittenIdentified(st, x, decl);
      AllocationKeepsDead(Written(st, x, decl), x, site, decl, at, v, id);
      StepLeaves(c, st, live, v, id);
    case Free(x, at) => FreeLeaves(st, x, at, live, v, id);
    case Produce(p, decl, at) => ProductionKeepsDead(st, p, decl, at, v, id);
    case Copy(x, y, decl, at) => CopyLeaves(Written(st, x, decl), x, y, at, v);
    case Move(x, y, decl, at) => MoveLeaves(Written(st, x, decl), x, y, at, v);
    case Borrow(x, y, kind, at) => BorrowLeaves(st, x, y, kind, at, v);
    case _ => SimpleLeaves(c, st, live, v);
  }

  lemma DanglingStays(c: Cmd, st: FlowState, live: LiveAfter, v: Storage, id: ObjectId)
    requires Good(st) && SmallSite(c) && ProductionFresh(c, st) && !StoresInto(c, v) && Dangling(st, v, id)
    ensures Dangling(Step(c, st, live).state, v, id) && Good(Step(c, st, live).state)
    ensures v in Step(c, st, live).state.borrows ==> v in st.borrows
  {
    DeadStays(c, st, live, v, id);
    StepLeaves(c, st, live, v, id);
    StepIdentified(c, st, live);
    StepGenerations(c, st, live);
  }

  /** As far as element `k`: sites are small and no production takes up the identity of an object that is
      still named. */
  ghost predicate FreshUntil(cmds: seq<Cmd>, st: FlowState, live: seq<LiveAfter>, j: nat, k: nat)
    requires k <= |cmds| == |live|
  {
    forall l :: j <= l < k ==> SmallSite(cmds[l]) && ProductionFresh(cmds[l], StateBefore(cmds, st, live, l))
  }

  lemma {:induction false} DanglingUntil(cmds: seq<Cmd>, st: FlowState, live: seq<LiveAfter>, j: nat, k: nat,
      v: Storage,
      id: ObjectId)
    requires j <= k <= |cmds| == |live| && FreshUntil(cmds, st, live, j, k)
    requires var st' := StateBefore(cmds, st, live, j); Good(st') && Dangling(st', v, id)
    requires forall l :: j <= l < k ==> !StoresInto(cmds[l], v)
    ensures var st' := StateBefore(cmds, st, live, k);
      && Good(st') && Dangling(st', v, id)
      && (v in st'.borrows ==> v in StateBefore(cmds, st, live, j).borrows)
    decreases k
  {
    if j < k {
      DanglingUntil(cmds, st, live, j, k - 1, v, id);
      var before := StateBefore(cmds, st, live, k - 1);
      assert SmallSite(cmds[k - 1]) && ProductionFresh(cmds[k - 1], before) && !StoresInto(cmds[k - 1], v);
      DanglingStays(cmds[k - 1], before, live[k - 1], v, id);
      StateBeforeNext(cmds, st, live, k - 1);
    }
  }

  /** A branch decides nothing about it. */
  lemma EdgeKeepsDangling(b: Block, i: nat, st: FlowState, v: Storage, id: ObjectId)
    requires Dangling(st, v, id)
    ensures Dangling(EdgeState(b, i, st), v, id)
  {
    EdgeStateShape(b, i, st);
  }

  /** It is still dangling after a join exactly if the other side knows whether the object is alive. */
  lemma JoinKeepsDangling(a: FlowState, b: FlowState, v: Storage, id: ObjectId)
    requires Dangling(a, v, id) && NamesObject(b, v) && b.storages[v].id == id && Wf(b)
    requires SameRights(a, b, id) && !b.storages[v].producedMaybe
    requires a.storages[v].relation == MaybeNull || b.storages[v].relation == MaybeNull ||
      !MovedRelation(b.storages[v].relation)
    ensures Dangling(JoinFlow(a, b), v, id) <==> b.objects[id].state != UnknownState && b.objects[id].state != Untracked
  {
  }

  /** What is reported of a name of an object that may be dead. If it is itself a borrow of that object,
      an access is a use of that borrow. */
  lemma DanglingUses(st: FlowState, live: LiveAfter, v: Storage, id: ObjectId, x: Storage, kind: BorrowKind, decl: bool,
      at: nat)
    requires Dangling(st, v, id)
    ensures var o := Step(Deref(v, at), st, live);
      v !in st.borrows ==>
        UseAfterDestroy in o.reports && forall r :: r in o.reports ==> r == UseAfterDestroy || r.BorrowConflict?
    ensures v in st.borrows && st.borrows[v].parent == id ==>
      Step(Deref(v, at), st, live).reports == {BorrowUsedAfterDeath}
    ensures var o := Step(Free(v, at), st, live); DoubleDestroy in o.reports && o.state.objects == st.objects
    ensures v !in st.borrows && MayGive(st.objects[id]) ==>
      Step(Move(x, v, decl, at), st, live).reports == {MoveFromDead}
    ensures var o := Step(Borrow(x, v, kind, at), st, live); o.reports == {BorrowUnknownParent} && o.created == {}
  {
  }

  /** After an object was destroyed through one name and anything has happened that stores nothing into
      `v`, which was a name of it too, every use of `v` is reported. */
  lemma DestroyedIsReported(cmds: seq<Cmd>, st: FlowState, live: seq<LiveAfter>, j: nat, k: nat, v: Storage)
    requires j < k < |cmds| == |live| && cmds[j].Free? && FreshUntil(cmds, st, live, j + 1, k)
    requires var before := StateBefore(cmds, st, live, j);
      && Good(before) && CanDestroy(before, cmds[j].x)
      && NamesObject(before, v) && before.storages[v].id == before.storages[cmds[j].x].id
      && !before.storages[v].producedMaybe && !MovedRelation(before.storages[v].relation)
    requires forall l :: j < l < k ==> !StoresInto(cmds[l], v)
    ensures forall r ::
      r in Step(cmds[j], StateBefore(cmds, st, live, j), live[j]).reports ==> r.DestroyedWhileBorrowed?
    ensures var c, before, then' := cmds[k], StateBefore(cmds, st, live, j), StateBefore(cmds, st, live, k);
      var reports := Step(c, then', live[k]).reports;
      && (c.Deref? && c.x == v && v !in before.borrows ==> UseAfterDestroy in reports)
      && (c.Deref? && c.x == v && v in then'.borrows && then'.borrows[v].parent == before.storages[v].id ==>
            reports == {BorrowUsedAfterDeath})
      && (c.Free? && c.x == v ==> DoubleDestroy in reports)
      && (c.Borrow? && c.y == v ==> reports == {BorrowUnknownParent})
  {
    var c, before := cmds[k], StateBefore(cmds, st, live, j);
    var x, at, id := cmds[j].x, cmds[j].at, before.storages[v].id;
    Destroying(x, at, before, live[j], v);
    FreeIdentified(before, x, at, live[j]);
    ExpiryIdentified(FreeStep(before, x, at, live[j]).state, live[j]);
    StateBeforeNext(cmds, st, live, j);
    DanglingUntil(cmds, st, live, j + 1, k, v, id);
    var then' := StateBefore(cmds, st, live, k);
    if c.Deref? && c.x == v { DanglingUses(then', live[k], v, id, v, Shared, false, c.at); }
    if c.Free? && c.x == v { DanglingUses(then', live[k], v, id, v, Shared, false, c.at); }
    if c.Borrow? && c.y == v { DanglingUses(then', live[k], v, id, c.x, c.kind, false, c.at); }
  }

  /** In the blocks of a program in scope nothing needs to be asked of the sites. */
  lemma BlocksAreFresh(blocks: seq<Block>, entry: nat, ins: map<nat, FlowState>, b: nat, live: seq<LiveAfter>, j: nat,
      k: nat)
    requires Ordinary(blocks, entry) && (forall c :: c in ins ==> ArrivesAt(ins[c], blocks, entry, c))
    requires b in ins && b < |blocks| && j <= k < |blocks[b].cmds| == |live|
    ensures Good(StateBefore(blocks[b].cmds, ins[b], live, j))
    ensures FreshUntil(blocks[b].cmds, ins[b], live, j, k)
  {
    PrefixFacts(blocks, entry, ins, live, b, j);
    forall l | j <= l < k
      ensures SmallSite(blocks[b].cmds[l]) &&
        ProductionFresh(blocks[b].cmds[l], StateBefore(blocks[b].cmds, ins[b], live, l))
    {
      PrefixFacts(blocks, entry, ins, live, b, l);
    }
  }

  // ---------------------------------------------------------------------------------------------
  // After a borrow
  // ---------------------------------------------------------------------------------------------

  /** `v` is a live borrow of the object. */
  predicate Lent(st: FlowState, v: Storage, id: ObjectId, kind: BorrowKind) {
    v in st.borrows && st.borrows[v].parent == id && st.borrows[v].kind == kind && st.borrows[v].state == Live
  }

  /** `p` names an object that is not dead, and no live borrow but `v` stands in the way of another. */
  predicate CanLend(st: FlowState, v: Storage, p: Storage, kind: BorrowKind) {
    && NamesObject(st, p) && !DeadOrMaybeDead(st, st.storages[p].id)
    && forall w :: w in st.borrows && w != v ==>
         !(Lent(st, w, st.storages[p].id, Mutable) || (kind == Mutable && Lent(st, w, st.storages[p].id, Shared)))
  }

  /** A borrow is made exactly when the object can be lent, and is then the only thing that changes. */
  lemma LendingExactly(st: FlowState, live: LiveAfter, v: Storage, p: Storage, kind: BorrowKind, at: nat)
    requires Wf(st)
    ensures var o := Step(Borrow(v, p, kind, at), st, live);
      if CanLend(st, v, p, kind) then
        && o.reports == {} && o.created == {v} && Lent(o.state, v, st.storages[p].id, kind)
        && NamesObject(o.state, v) && o.state.storages[v].id == st.storages[p].id
        && o.state.storages[v].relation == Alias && !o.state.storages[v].producedMaybe
        && o.state.objects == st.objects && forall w :: w != v && w in st.borrows ==>
             w in o.state.borrows && o.state.borrows[w] == st.borrows[w]
      else
        && o.created == {} && o.state.borrows == st.borrows
        && o.reports == if NamesObject(st, p) && !DeadOrMaybeDead(st, st.storages[p].id) then {NewBorrowConflict}
                        else {BorrowUnknownParent}
  {
    if NamesObject(st, p) {
      var id := st.storages[p].id;
      var bound := Bind(st, v, id, Alias, at);
      forall w ensures Conflicts(bound, v, id, kind, w) <==>
        (w in st.borrows && w != v && (Lent(st, w, id, Mutable) || (kind == Mutable && Lent(st, w, id, Shared)))) { }
    }
  }

  /** The object is not destroyed by this element. */
  predicate Spares(c: Cmd, st: FlowState, id: ObjectId) {
    c.Free? && c.x in st.storages ==> st.storages[c.x].id != id
  }

  lemma FreeSpares(st: FlowState, x: Storage, at: nat, live: LiveAfter, v: Storage, id: ObjectId, kind: BorrowKind)
    requires Lent(st, v, id, kind) && (x in st.storages ==> st.storages[x].id != id)
    ensures Lent(FreeStep(st, x, at, live).state, v, id, kind)
  {
  }

  lemma LendingSpares(st: FlowState, x: Storage, y: Storage, second: BorrowKind, at: nat, v: Storage, id: ObjectId,
      kind: BorrowKind)
    requires Lent(st, v, id, kind) && x != v
    ensures Lent(BorrowStep(st, x, y, second, at).state, v, id, kind)
  {
  }

  predicate SameBorrow(st: FlowState, st': FlowState, v: Storage) {
    v in st.borrows && v in st'.borrows && st'.borrows[v] == st.borrows[v]
  }

  lemma AssignmentsSpare(st: FlowState, x: Storage, y: Storage, site: Site, decl: bool, at: nat)
    ensures MallocStep(st, x, site, decl, at).state.borrows == st.borrows
    ensures CopyStep(st, x, y, at).state.borrows == st.borrows && MoveStep(st, x, y, at).state.borrows == st.borrows
  {
    assert MallocStep(st, x, site, decl, at).state == BindAllocation(st, x, site, at).state;
  }

  lemma ProductionSpares(st: FlowState, p: Production, decl: bool, at: nat)
    ensures ProduceStep(st, p, decl, at).state.borrows == st.borrows
  {
  }

  /** A used borrow is touched by destructions and borrows only. */
  lemma OthersSpare(c: Cmd, st: FlowState, live: LiveAfter, v: Storage)
    requires v in st.borrows && LiveIn(live, v) && !c.Free? && !c.Borrow?
    ensures SameBorrow(st, Step(c, st, live).state, v)
  {
    match c
    case Malloc(x, site, decl, at) => AssignmentsSpare(Written(st, x, decl), x, x, site, decl, at);
    case Copy(x, y, decl, at) => AssignmentsSpare(Written(st, x, decl), x, y, 0, decl, at);
    case Move(x, y, decl, at) => AssignmentsSpare(Written(st, x, decl), x, y, 0, decl, at);
    case Produce(p, decl, at) => ProductionSpares(st, p, decl, at);
    case _ =>
  }

  /** Calls and unary expressions, after which borrows that are used no more are forgotten. */
  predicate Expires(c: Cmd) { c.Free? || c.Deref? || c.Bump? || c.Produce? || c.CallPoint? }

  /** The borrows after an element are those before it and the ones it makes, without those that it
      forgets. */
  lemma BorrowsExactly(c: Cmd, st: FlowState, live: LiveAfter, v: Storage)
    ensures var o := Step(c, st, live);
      v in o.state.borrows <==> v in o.created || (v in st.borrows && (Expires(c) ==> LiveIn(live, v)))
  {
    if c.Malloc? || c.Copy? || c.Move? { AssignedBorrows(c, st, live); }
    else if c.Produce? { ProductionSpares(st, c.production, c.decl, c.at); }
    else if c.Free? { FreedBorrows(st, c.x, c.at, live); }
    else { OtherBorrows(c, st, live, v); }
  }

  lemma AssignedBorrows(c: Cmd, st: FlowState, live: LiveAfter)
    requires c.Malloc? || c.Copy? || c.Move?
    ensures var o := Step(c, st, live); o.state.borrows == st.borrows && o.created == {}
  {
    var st0 := Written(st, c.x, c.decl);
    if c.Malloc? {
      AssignmentsSpare(st0, c.x, c.x, c.site, c.decl, c.at);
      assert MallocStep(st0, c.x, c.site, c.decl, c.at).created == BindAllocation(st0, c.x, c.site, c.at).created;
    } else {
      AssignmentsSpare(st0, c.x, c.y, 0, c.decl, c.at);
    }
  }

  lemma FreedBorrows(st: FlowState, x: Storage, at: nat, live: LiveAfter)
    ensures var o := FreeStep(st, x, at, live); o.state.borrows.Keys == st.borrows.Keys && o.created == {}
  {
  }

  lemma OtherBorrows(c: Cmd, st: FlowState, live: LiveAfter, v: Storage)
    requires Simple(c) || c.Borrow?
    ensures var o := Step(c, st, live);
      v in o.state.borrows <==> v in o.created || (v in st.borrows && (Expires(c) ==> LiveIn(live, v)))
  {
  }

  /** A used borrow stays as it is until it is made anew or its object is destroyed. */
  lemma LentStays(c: Cmd, st: FlowState, live: LiveAfter, v: Storage, id: ObjectId, kind: BorrowKind)
    requires Lent(st, v, id, kind) && LiveIn(live, v) && !(c.Borrow? && c.x == v) && Spares(c, st, id)
    ensures Lent(Step(c, st, live).state, v, id, kind)
  {
    match c
    case Free(x, at) => FreeSpares(st, x, at, live, v, id, kind);
    case Borrow(x, y, second, at) => LendingSpares(st, x, y, second, at, v, id, kind);
    case _ => OthersSpare(c, st, live, v);
  }

  /** Element `l` neither makes the borrow anew nor destroys its object, and the borrow is still used. */
  ghost predicate Undisturbed(cmds: seq<Cmd>, st: FlowState, live: seq<LiveAfter>, l: nat, v: Storage, id: ObjectId)
    requires l < |cmds| == |live|
  {
    LiveIn(live[l], v) && !(cmds[l].Borrow? && cmds[l].x == v) && Spares(cmds[l], StateBefore(cmds, st, live, l), id)
  }

  lemma {:induction false} LentUntil(cmds: seq<Cmd>, st: FlowState, live: seq<LiveAfter>, j: nat, k: nat, v: Storage,
      id: ObjectId, kind: BorrowKind)
    requires j <= k <= |cmds| == |live| && Lent(StateBefore(cmds, st, live, j), v, id, kind)
    requires forall l :: j <= l < k ==> Undisturbed(cmds, st, live, l, v, id)
    ensures Lent(StateBefore(cmds, st, live, k), v, id, kind)
    decreases k
  {
    if j < k {
      LentUntil(cmds, st, live, j, k - 1, v, id, kind);
      var c, before := cmds[k - 1], StateBefore(cmds, st, live, k - 1);
      assert Undisturbed(cmds, st, live, k - 1, v, id);
      StateBeforeNext(cmds, st, live, k - 1);
      LentStays(c, before, live[k - 1], v, id, kind);
    }
  }

  /** While `v` is a live borrow, an access through the owner conflicts with it exactly if it is mutable. */
  lemma LentAccess(st: FlowState, live: LiveAfter, v: Storage, kind: BorrowKind, p: Storage, at: nat)
    requires NamesObject(st, p) && Lent(st, v, st.storages[p].id, kind)
    requires st.storages[p].relation == Owner && p !in st.borrows
    ensures BorrowConflict(v) in Step(Deref(p, at), st, live).reports <==> kind == Mutable
  {
    assert v in MutableBorrows(st, st.storages[p].id) <==> kind == Mutable;
  }

  /** A destruction reports it exactly if it is still used; it has then outlived its object. */
  lemma LentDestruction(st: FlowState, live: LiveAfter, v: Storage, kind: BorrowKind, p: Storage, at: nat)
    requires CanDestroy(st, p) && Lent(st, v, st.storages[p].id, kind)
    ensures DestroyedWhileBorrowed(v) in Step(Free(p, at), st, live).reports <==> LiveIn(live, v)
    ensures LiveIn(live, v) && st.storages[p].relation != MaybeNull ==>
      Outlived(Step(Free(p, at), st, live).state, v)
  {
  }

  // ---------------------------------------------------------------------------------------------
  // After the destruction of a borrowed object
  // ---------------------------------------------------------------------------------------------

  predicate Outlived(st: FlowState, v: Storage) {
    v in st.borrows && st.borrows[v].state == Invalid
  }

  lemma FreeKeepsInvalid(st: FlowState, x: Storage, at: nat, live: LiveAfter, v: Storage)
    requires Outlived(st, v)
    ensures Outlived(FreeStep(st, x, at, live).state, v)
  {
  }

  lemma OutlivedStays(c: Cmd, st: FlowState, live: LiveAfter, v: Storage)
    requires Outlived(st, v) && LiveIn(live, v) && !(c.Borrow? && c.x == v)
    ensures Outlived(Step(c, st, live).state, v)
  {
    match c
    case Free(x, at) => FreeKeepsInvalid(st, x, at, live, v);
    case Borrow(x, y, second, at) =>
    case _ => OthersSpare(c, st, live, v);
  }

  lemma {:induction false} OutlivedUntil(cmds: seq<Cmd>, st: FlowState, live: seq<LiveAfter>, j: nat, k: nat,
      v: Storage)
    requires j <= k <= |cmds| == |live| && Outlived(StateBefore(cmds, st, live, j), v)
    requires forall l :: j <= l < k ==> LiveIn(live[l], v) && !(cmds[l].Borrow? && cmds[l].x == v)
    ensures Outlived(StateBefore(cmds, st, live, k), v)
    decreases k
  {
    if j < k {
      OutlivedUntil(cmds, st, live, j, k - 1, v);
      var before := StateBefore(cmds, st, live, k - 1);
      OutlivedStays(cmds[k - 1], before, live[k - 1], v);
      StateBeforeNext(cmds, st, live, k - 1);
    }
  }

  /** After the object of a borrow was destroyed and anything has happened that does not borrow anew,
      every access through the borrow is reported. */
  lemma OutlivedIsReported(cmds: seq<Cmd>, st: FlowState, live: seq<LiveAfter>, j: nat, k: nat, v: Storage,
      kind: BorrowKind)
    requires j < k < |cmds| == |live| && cmds[j].Free? && cmds[k].Deref? && cmds[k].x == v
    requires var before := StateBefore(cmds, st, live, j);
      && CanDestroy(before, cmds[j].x) && before.storages[cmds[j].x].relation != MaybeNull
      && Lent(before, v, before.storages[cmds[j].x].id, kind)
    requires forall l :: j <= l < k ==> LiveIn(live[l], v) && !(cmds[l].Borrow? && cmds[l].x == v)
    ensures DestroyedWhileBorrowed(v) in Step(cmds[j], StateBefore(cmds, st, live, j), live[j]).reports
    ensures Step(cmds[k], StateBefore(cmds, st, live, k), live[k]).reports == {BorrowUsedAfterDeath}
  {
    var x, before := cmds[j].x, StateBefore(cmds, st, live, j);
    assert LiveIn(live[j], v);
    LentDestruction(before, live[j], v, kind, x, cmds[j].at);
    StateBeforeNext(cmds, st, live, j);
    OutlivedUntil(cmds, st, live, j + 1, k, v);
    OutlivedAccess(StateBefore(cmds, st, live, k), live[k], v, cmds[k].at);
  }

  lemma OutlivedAccess(st: FlowState, live: LiveAfter, v: Storage, at: nat)
    requires Outlived(st, v)
    ensures Step(Deref(v, at), st, live).reports == {BorrowUsedAfterDeath}
  {
  }
}
