/** The ownership lattice: what the analyser knows about storages, heap objects, borrows and
    pending out-owner guards at one program point, and how two such states are joined.

    Storages, source positions and names are numbered. A position is the rank of a
    (file, line, column) triple in the order the analyser compares them by, and `NoLocation` is the
    position whose file name is empty; name 0 is the empty name. */
module Flow {

  type Storage = nat
  type ObjectId = nat
  type Site = nat

  /** The storage is definitely null. */
  const NULL_ID: ObjectId := 0
  /** The storage's target is unresolved; never to be read as null. */
  const UNKNOWN_ID: ObjectId := 0xFFFF_FFFF

  datatype Location = NoLocation | At(rank: nat)

  datatype ObjectState = Untracked | NullObject | Owned | Dead | MaybeDead | UnknownState
  datatype ObjectOrigin = Allocation | Parameter | UnknownOrigin
  datatype Capability = NoCapability | MayBorrow | MayTakeOwnership | MayDestroy | UnknownCapability
  datatype Relation = Owner | Alias | Moved | MaybeMoved | Null | MaybeNull | UnknownRelation
  datatype BorrowKind = Shared | Mutable
  datatype BorrowState = Live | Invalid | MaybeInvalid | UnknownBorrow

  datatype Binding = Binding(id: ObjectId, relation: Relation, where: Location, producedMaybe: bool)

  datatype ObjectInfo = ObjectInfo(
    state: ObjectState, origin: ObjectOrigin, capability: Capability, allocation: Location,
    destruction: Location, destructionKnown: bool, destructionStorage: nat)

  datatype BorrowInfo = BorrowInfo(
    parent: ObjectId, kind: BorrowKind, state: BorrowState, created: Location, invalidated: Location)

  /** The variable keyed by this entry holds the result of the producing call `call`. */
  datatype PendingGuard = PendingGuard(dest: Storage, successNonzero: bool, call: nat)

  datatype FlowState = FlowState(
    storages: map<Storage, Binding>,
    objects: map<ObjectId, ObjectInfo>,
    borrows: map<Storage, BorrowInfo>,
    generations: map<Site, nat>,
    widened: set<Site>,
    pending: map<Storage, PendingGuard>)

  const EMPTY_STATE := FlowState(map[], map[], map[], map[], {}, map[])
  const NO_BINDING := Binding(UNKNOWN_ID, UnknownRelation, NoLocation, false)
  const FRESH_OBJECT := ObjectInfo(Untracked, Allocation, NoCapability, NoLocation, NoLocation, false, 0)

  // ---------------------------------------------------------------------------------------------
  // Joins
  // ---------------------------------------------------------------------------------------------

  function MinLocation(a: Location, b: Location): Location {
    if a.NoLocation? then b
    else if b.NoLocation? then a
    else if a.rank <= b.rank then a else b
  }

  function JoinState(a: ObjectState, b: ObjectState): ObjectState {
    if a == b then a
    else if a == UnknownState || b == UnknownState then UnknownState
    else if a == Untracked || b == Untracked then UnknownState
    else if a == NullObject && b == Owned then Owned
    else if b == NullObject && a == Owned then Owned
    else MaybeDead
  }

  predicate Unresolved(b: Binding) {
    b.id == UNKNOWN_ID || (b.id == NULL_ID && b.relation == UnknownRelation)
  }

  predicate KnownNull(b: Binding) {
    b.id == NULL_ID && b.relation == Null
  }

  predicate MovedRelation(r: Relation) {
    r == Moved || r == MaybeMoved
  }

  function JoinBinding(a: Binding, b: Binding): Binding {
    var where := MinLocation(a.where, b.where);
    var produced := a.producedMaybe || b.producedMaybe;
    if a.id == b.id then
      if a.relation == b.relation then Binding(a.id, a.relation, where, produced)
      else if a.relation == MaybeNull || b.relation == MaybeNull then Binding(a.id, MaybeNull, where, produced)
      else if MovedRelation(a.relation) || MovedRelation(b.relation) then
        Binding(a.id, MaybeMoved, where, produced)
      else Binding(a.id, UnknownRelation, where, produced)
    else if Unresolved(a) || Unresolved(b) then Binding(UNKNOWN_ID, UnknownRelation, where, produced)
    else if KnownNull(a) && b.id != NULL_ID then Binding(b.id, MaybeNull, where, produced)
    else if KnownNull(b) && a.id != NULL_ID then Binding(a.id, MaybeNull, where, produced)
    else Binding(UNKNOWN_ID, UnknownRelation, where, produced)
  }

  function JoinBorrowState(a: BorrowState, b: BorrowState): BorrowState {
    if a == b then a
    else if a == UnknownBorrow || b == UnknownBorrow then UnknownBorrow
    else MaybeInvalid
  }

  function JoinObject(a: ObjectInfo, b: ObjectInfo): ObjectInfo {
    ObjectInfo(
      JoinState(a.state, b.state),
      if a.origin != b.origin then UnknownOrigin else a.origin,
      if a.capability != b.capability then UnknownCapability else a.capability,
      MinLocation(a.allocation, b.allocation),
      if b.destructionKnown then MinLocation(a.destruction, b.destruction) else a.destruction,
      a.destructionKnown || b.destructionKnown,
      if b.destructionKnown && (a.destructionStorage == 0 || b.destructionStorage < a.destructionStorage)
      then b.destructionStorage else a.destructionStorage)
  }

  /** The left borrow's parent and kind win. */
  function JoinBorrow(a: BorrowInfo, b: BorrowInfo): BorrowInfo {
    BorrowInfo(a.parent, a.kind, JoinBorrowState(a.state, b.state), MinLocation(a.created, b.created),
      if b.invalidated.NoLocation? then a.invalidated else MinLocation(a.invalidated, b.invalidated))
  }

  /** A storage that a state does not mention is unresolved as soon as it meets one that does. */
  function BindingAt(st: FlowState, v: Storage): Binding {
    if v in st.storages then st.storages[v] else NO_BINDING
  }

  function JoinStorages(a: FlowState, b: FlowState): map<Storage, Binding> {
    map v | v in a.storages.Keys + b.storages.Keys :: JoinBinding(BindingAt(a, v), BindingAt(b, v))
  }

  /** An object one side does not mention keeps what the other side knows. */
  function JoinObjects(a: map<ObjectId, ObjectInfo>, b: map<ObjectId, ObjectInfo>): map<ObjectId, ObjectInfo> {
    map o | o in a.Keys + b.Keys ::
      if o !in b then a[o] else if o !in a then b[o] else JoinObject(a[o], b[o])
  }

  function JoinBorrows(a: map<Storage, BorrowInfo>, b: map<Storage, BorrowInfo>): map<Storage, BorrowInfo> {
    map v | v in a.Keys + b.Keys ::
      if v !in b then a[v] else if v !in a then b[v] else JoinBorrow(a[v], b[v])
  }

  function Max(a: nat, b: nat): nat { if a < b then b else a }

  function JoinGenerations(a: map<Site, nat>, b: map<Site, nat>): map<Site, nat> {
    map s | s in a.Keys + b.Keys ::
      if s !in b then a[s] else if s !in a then b[s] else Max(a[s], b[s])
  }

  /** A guard fact survives only when both sides carry it identically. */
  function JoinPending(a: map<Storage, PendingGuard>, b: map<Storage, PendingGuard>): map<Storage, PendingGuard> {
    map v | v in a.Keys && v in b && a[v] == b[v] :: a[v]
  }

  function JoinFlow(a: FlowState, b: FlowState): FlowState {
    FlowState(JoinStorages(a, b), JoinObjects(a.objects, b.objects), JoinBorrows(a.borrows, b.borrows),
      JoinGenerations(a.generations, b.generations), a.widened + b.widened, JoinPending(a.pending, b.pending))
  }

  /** Joining `e` into `x` adds nothing. */
  ghost predicate Absorbs(x: FlowState, e: FlowState) {
    JoinFlow(x, e) == x
  }

  // ---------------------------------------------------------------------------------------------
  // Well-formed states
  // ---------------------------------------------------------------------------------------------

  /** The null id occurs with `Null` and nothing else does, and the unresolved id only with
      `UnknownRelation`. */
  predicate WfBinding(b: Binding) {
    && (b.id == NULL_ID <==> b.relation == Null)
    && (b.id == UNKNOWN_ID ==> b.relation == UnknownRelation)
  }

  /** A recorded destruction names its storage. */
  predicate WfObject(o: ObjectInfo) {
    o.destructionKnown ==> 0 < o.destructionStorage
  }

  ghost predicate WfStorages(m: map<Storage, Binding>) {
    forall v :: v in m ==> WfBinding(m[v])
  }

  ghost predicate WfObjects(m: map<ObjectId, ObjectInfo>) {
    forall o :: o in m ==> WfObject(m[o])
  }

  ghost predicate Wf(st: FlowState) {
    WfStorages(st.storages) && WfObjects(st.objects)
  }

  lemma JoinKeepsWf(a: FlowState, b: FlowState)
    requires Wf(a) && Wf(b)
    ensures Wf(JoinFlow(a, b))
  {
    var j := JoinFlow(a, b);
    forall v | v in j.storages ensures WfBinding(j.storages[v]) {
      assert WfBinding(BindingAt(a, v)) && WfBinding(BindingAt(b, v));
    }
  }

  // ---------------------------------------------------------------------------------------------
  // Joining is idempotent, and what a state has absorbed it goes on absorbing as it grows
  // ---------------------------------------------------------------------------------------------

  lemma {:induction false} JoinIdempotent(a: FlowState)
    ensures JoinFlow(a, a) == a
  {
    assert JoinStorages(a, a) == a.storages;
    assert JoinObjects(a.objects, a.objects) == a.objects;
    assert JoinBorrows(a.borrows, a.borrows) == a.borrows;
    assert JoinGenerations(a.generations, a.generations) == a.generations;
    assert JoinPending(a.pending, a.pending) == a.pending;
  }

  lemma BindingAbsorption(x: Binding, y: Binding, e: Binding)
    requires WfBinding(x) && WfBinding(y) && WfBinding(e)
    requires JoinBinding(x, e) == x
    ensures JoinBinding(JoinBinding(x, y), e) == JoinBinding(x, y)
  {
  }

  lemma ObjectAbsorption(x: ObjectInfo, y: ObjectInfo, e: ObjectInfo)
    requires WfObject(x) && WfObject(y) && WfObject(e)
    requires JoinObject(x, e) == x
    ensures JoinObject(JoinObject(x, y), e) == JoinObject(x, y)
  {
  }

  lemma BorrowAbsorption(x: BorrowInfo, y: BorrowInfo, e: BorrowInfo)
    requires JoinBorrow(x, e) == x
    ensures JoinBorrow(JoinBorrow(x, y), e) == JoinBorrow(x, y)
  {
  }

  lemma StoragesAbsorption(x: FlowState, y: FlowState, e: FlowState)
    requires Wf(x) && Wf(y) && Wf(e)
    requires JoinStorages(x, e) == x.storages
    ensures JoinStorages(JoinFlow(x, y), e) == JoinStorages(x, y)
  {
    var j := JoinFlow(x, y);
    forall v | v in JoinStorages(j, e)
      ensures v in j.storages && JoinStorages(j, e)[v] == j.storages[v]
    {
      assert v in e.storages ==> v in JoinStorages(x, e);
      assert v in x.storages ==> JoinStorages(x, e)[v] == x.storages[v];
      BindingAbsorption(BindingAt(x, v), BindingAt(y, v), BindingAt(e, v));
    }
  }

  lemma ObjectsAbsorption(x: map<ObjectId, ObjectInfo>, y: map<ObjectId, ObjectInfo>, e: map<ObjectId, ObjectInfo>)
    requires WfObjects(x) && WfObjects(y) && WfObjects(e)
    requires JoinObjects(x, e) == x
    ensures JoinObjects(JoinObjects(x, y), e) == JoinObjects(x, y)
  {
    var j := JoinObjects(x, y);
    forall o | o in JoinObjects(j, e) ensures o in j && JoinObjects(j, e)[o] == j[o] {
      assert o in e ==> o in JoinObjects(x, e);
      if o in e {
        assert JoinObjects(x, e)[o] == x[o];
        if o in y {
          ObjectAbsorption(x[o], y[o], e[o]);
        }
      }
    }
  }

  lemma BorrowsAbsorption(x: map<Storage, BorrowInfo>, y: map<Storage, BorrowInfo>, e: map<Storage, BorrowInfo>)
    requires JoinBorrows(x, e) == x
    ensures JoinBorrows(JoinBorrows(x, y), e) == JoinBorrows(x, y)
  {
    var j := JoinBorrows(x, y);
    forall v | v in JoinBorrows(j, e) ensures v in j && JoinBorrows(j, e)[v] == j[v] {
      assert v in e ==> v in JoinBorrows(x, e);
      if v in e {
        assert JoinBorrows(x, e)[v] == x[v];
        if v in y {
          BorrowAbsorption(x[v], y[v], e[v]);
        }
      }
    }
  }

  lemma GenerationsAbsorption(x: map<Site, nat>, y: map<Site, nat>, e: map<Site, nat>)
    requires JoinGenerations(x, e) == x
    ensures JoinGenerations(JoinGenerations(x, y), e) == JoinGenerations(x, y)
  {
    var j := JoinGenerations(x, y);
    forall s | s in JoinGenerations(j, e) ensures s in j && JoinGenerations(j, e)[s] == j[s] {
      assert s in e ==> s in JoinGenerations(x, e);
      assert s in e ==> JoinGenerations(x, e)[s] == x[s];
    }
  }

  lemma PendingAbsorption(x: map<Storage, PendingGuard>, y: map<Storage, PendingGuard>, e: map<Storage, PendingGuard>)
    requires JoinPending(x, e) == x
    ensures JoinPending(JoinPending(x, y), e) == JoinPending(x, y)
  {
    var j := JoinPending(x, y);
    forall v | v in j ensures v in JoinPending(j, e) && JoinPending(j, e)[v] == j[v] {
      assert v in JoinPending(x, e);
    }
  }

  /** Left absorption: a state goes on absorbing what it has absorbed, whatever is joined into it
      next. (`JoinFlow` is not commutative: a borrow keeps the left side's parent and kind.) */
  lemma LeftAbsorption(x: FlowState, y: FlowState, e: FlowState)
    requires Wf(x) && Wf(y) && Wf(e)
    requires Absorbs(x, e)
    ensures Absorbs(JoinFlow(x, y), e)
  {
    StoragesAbsorption(x, y, e);
    ObjectsAbsorption(x.objects, y.objects, e.objects);
    BorrowsAbsorption(x.borrows, y.borrows, e.borrows);
    GenerationsAbsorption(x.generations, y.generations, e.generations);
    PendingAbsorption(x.pending, y.pending, e.pending);
    assert x.widened + e.widened == x.widened;
    assert (x.widened + y.widened) + e.widened == x.widened + y.widened;
  }

  lemma BindingAbsorbsJoined(x: Binding, e: Binding)
    requires WfBinding(x) && WfBinding(e)
    ensures JoinBinding(JoinBinding(x, e), e) == JoinBinding(x, e)
  {
  }

  lemma StoragesAbsorbJoined(x: FlowState, e: FlowState)
    requires Wf(x) && Wf(e)
    ensures JoinStorages(JoinFlow(x, e), e) == JoinStorages(x, e)
  {
    var j := JoinFlow(x, e);
    forall v | v in JoinStorages(j, e)
      ensures v in j.storages && JoinStorages(j, e)[v] == j.storages[v]
    {
      BindingAbsorbsJoined(BindingAt(x, v), BindingAt(e, v));
    }
  }

  lemma ObjectsAbsorbJoined(x: map<ObjectId, ObjectInfo>, e: map<ObjectId, ObjectInfo>)
    requires WfObjects(x) && WfObjects(e)
    ensures JoinObjects(JoinObjects(x, e), e) == JoinObjects(x, e)
  {
  }

  lemma BorrowsAbsorbJoined(x: map<Storage, BorrowInfo>, e: map<Storage, BorrowInfo>)
    ensures JoinBorrows(JoinBorrows(x, e), e) == JoinBorrows(x, e)
  {
  }

  /** A join absorbs what was joined in. */
  lemma AbsorbsJoined(x: FlowState, e: FlowState)
    requires Wf(x) && Wf(e)
    ensures Absorbs(JoinFlow(x, e), e)
  {
    StoragesAbsorbJoined(x, e);
    ObjectsAbsorbJoined(x.objects, e.objects);
    BorrowsAbsorbJoined(x.borrows, e.borrows);
    var j := JoinFlow(x, e);
    assert JoinGenerations(j.generations, e.generations) == j.generations;
    assert JoinPending(j.pending, e.pending) == j.pending;
    assert (x.widened + e.widened) + e.widened == x.widened + e.widened;
  }
}
