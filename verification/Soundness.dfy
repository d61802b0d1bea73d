/** Trustworthy PASS: if the reporting pass says nothing, no run touches a dead object. */
module Soundness {
  import opened Flow
  import opened Height
  import opened Options
  import opened Transfer
  import opened Bounded
  import opened Program
  import opened Ownership
  import opened Renaming
  import opened Execution
  import opened Guards
  import L = Liveness

  // ---------------------------------------------------------------------------------------------
  // What an abstract state says about a machine
  // ---------------------------------------------------------------------------------------------

  /** Which machine object each object identity currently stands for. */
  type Naming = map<ObjectId, nat>

  ghost predicate Injective(mu: Naming) {
    forall i, j :: i in mu && j in mu && mu[i] == mu[j] ==> i == j
  }

  /** What holds an object is bound to that object's identity, or to none that is known. */
  predicate Fits(b: Binding, v: Value, mu: Naming) {
    v.Obj? ==> b.id == UNKNOWN_ID || (b.id != NULL_ID && b.id in mu && v == Obj(mu[b.id]))
  }

  ghost predicate StorageFits(st: FlowState, m: Machine, mu: Naming, v: Storage) {
    if v in st.storages then Fits(st.storages[v], ValueOf(m, v), mu) else !ValueOf(m, v).Obj?
  }

  /** `Owned` promises a live object; the states that no access or destruction questions promise that
      there is none; the others promise nothing. (`Dead` does not promise a dead object: destroying
      through a copy of a pointer that may be null marks the object dead, and null destroys nothing.) */
  ghost predicate ObjectFits(st: FlowState, m: Machine, mu: Naming, id: ObjectId) {
    id in mu ==>
      && id in st.objects && mu[id] in m.used
      && (st.objects[id].state == Owned ==> mu[id] in m.alive)
      && st.objects[id].state != NullObject && st.objects[id].state != Untracked
  }

  /** What a variable holds has been allocated at some time. */
  predicate Held(m: Machine, v: Storage) {
    ValueOf(m, v).Obj? ==> ValueOf(m, v).n in m.used
  }

  ghost predicate Represents(st: FlowState, m: Machine, mu: Naming) {
    && Injective(mu) && m.alive <= m.used && (forall v :: Held(m, v))
    && (forall v :: StorageFits(st, m, mu, v))
    && (forall id :: ObjectFits(st, m, mu, id))
  }

  lemma ViewRepresents(a: FlowState, b: FlowState, m: Machine, mu: Naming)
    requires Represents(a, m, mu) && a.storages == b.storages && a.objects == b.objects
    ensures Represents(b, m, mu)
  {
    forall v ensures StorageFits(b, m, mu, v) { assert StorageFits(a, m, mu, v); }
    forall id ensures ObjectFits(b, m, mu, id) { assert ObjectFits(a, m, mu, id); }
  }

  lemma StartRepresents()
    ensures Represents(EMPTY_STATE, INITIAL, map[])
  {
  }

  /** What `e` calls the object of `v`, `s` calls `i`. */
  predicate CalledBy(e: FlowState, s: FlowState, mu: Naming, i: ObjectId, v: Storage) {
    v in e.storages && v in s.storages && Names(e.storages[v].id) && e.storages[v].id in mu && s.storages[v].id == i
  }

  /** The objects that `e` names, under the names that `s` gives them. */
  ghost function RenamedNaming(e: FlowState, s: FlowState, mu: Naming): Naming {
    var names := set v | v in e.storages && v in s.storages && CalledBy(e, s, mu, s.storages[v].id, v) ::
      s.storages[v].id;
    map i | i in names :: var v :| CalledBy(e, s, mu, i, v); mu[e.storages[v].id]
  }

  lemma RenamedValue(e: FlowState, s: FlowState, mu: Naming, i: ObjectId, v: Storage)
    requires Renamed(e, s) && CalledBy(e, s, mu, i, v)
    ensures i in RenamedNaming(e, s, mu) && RenamedNaming(e, s, mu)[i] == mu[e.storages[v].id]
  {
    forall w | CalledBy(e, s, mu, i, w) ensures e.storages[w].id == e.storages[v].id {
      assert RenamedTogether(e, s, v, w);
    }
  }

  /** A state that differs in names only represents the same machines. */
  lemma RenamedRepresents(e: FlowState, s: FlowState, m: Machine, mu: Naming) returns (mu': Naming)
    requires Represents(e, m, mu) && Renamed(e, s)
    ensures Represents(s, m, mu')
  {
    mu' := RenamedNaming(e, s, mu);
    forall i, j | i in mu' && j in mu' && mu'[i] == mu'[j] ensures i == j {
      var v, w :| CalledBy(e, s, mu, i, v) && CalledBy(e, s, mu, j, w);
      RenamedValue(e, s, mu, i, v);
      RenamedValue(e, s, mu, j, w);
      assert RenamedTogether(e, s, v, w);
    }
    forall v ensures StorageFits(s, m, mu', v) {
      assert StorageFits(e, m, mu, v) && RenamedAt(e, s, v);
      if v in s.storages && CalledBy(e, s, mu, s.storages[v].id, v) {
        RenamedValue(e, s, mu, s.storages[v].id, v);
      }
    }
    forall i ensures ObjectFits(s, m, mu', i) {
      if i in mu' {
        var v :| CalledBy(e, s, mu, i, v);
        RenamedValue(e, s, mu, i, v);
        assert RenamedAt(e, s, v) && ObjectFits(e, m, mu, e.storages[v].id);
      }
    }
  }

  /** Joining more in keeps what the right side says. */
  lemma JoinRepresents(x: FlowState, e: FlowState, m: Machine, mu: Naming)
    requires Wf(x) && Wf(e) && Represents(e, m, mu)
    ensures Represents(JoinFlow(x, e), m, mu)
  {
    var j := JoinFlow(x, e);
    forall v ensures StorageFits(j, m, mu, v) {
      assert StorageFits(e, m, mu, v);
      if v in j.storages {
        JoinFits(BindingAt(x, v), BindingAt(e, v), ValueOf(m, v), mu);
      }
    }
    forall id ensures ObjectFits(j, m, mu, id) {
      assert ObjectFits(e, m, mu, id);
    }
  }

  lemma JoinFits(a: Binding, b: Binding, v: Value, mu: Naming)
    requires WfBinding(a) && WfBinding(b) && Fits(b, v, mu)
    ensures Fits(JoinBinding(a, b), v, mu)
  {
  }

  // ---------------------------------------------------------------------------------------------
  // Elements
  // ---------------------------------------------------------------------------------------------

  /** Some machine has an object in `w`. */
  predicate CanHold(st: FlowState, w: Storage) {
    && w in st.storages && Names(st.storages[w].id) && st.storages[w].id in st.objects
    && st.objects[st.storages[w].id].state != NullObject && st.objects[st.storages[w].id].state != Untracked
  }

  /** The binding of `x` says something that a dead object contradicts. */
  predicate Claims(st: FlowState, x: Storage) {
    x in st.storages ==>
      st.storages[x].id != UNKNOWN_ID && (CanHold(st, x) ==> st.objects[st.storages[x].id].state == Owned)
  }

  /** A move that is dropped without a report although its source may hold any object: one that the
      target's binding excludes, or that another variable shares or that it is told apart from. */
  predicate SilentMove(c: Cmd, st: FlowState) {
    && c.Move? && c.y in st.storages && st.storages[c.y].id == UNKNOWN_ID
    && !(c.x in st.storages && st.storages[c.x].id == UNKNOWN_ID)
    && (Claims(st, c.x) || exists w :: w in st.storages && w != c.x && CanHold(st, w))
  }

  lemma RebindRepresents(st: FlowState, st': FlowState, m: Machine, x: Storage, v: Value, mu: Naming)
    requires Represents(st, m, mu)
    requires x in st'.storages && st'.storages == st.storages[x := st'.storages[x]] && st'.objects == st.objects
    requires Fits(st'.storages[x], v, mu) && (v.Obj? ==> v.n in m.used)
    ensures Represents(st', Assign(m, x, v), mu)
  {
    var m' := Assign(m, x, v);
    forall w ensures Held(m', w) { assert Held(m, w); }
    forall w ensures StorageFits(st', m', mu, w) { assert StorageFits(st, m, mu, w); }
    forall id ensures ObjectFits(st', m', mu, id) { assert ObjectFits(st, m, mu, id); }
  }

  /** The object that `x` is about to own is named afresh; the allocation may also have failed. */
  lemma OwnedRepresents(st: FlowState, st': FlowState, m: Machine, m': Machine, x: Storage, mu: Naming)
      returns (mu': Naming)
    requires Represents(st, m, mu)
    requires x in st'.storages && st'.storages == st.storages[x := st'.storages[x]]
    requires var id := st'.storages[x].id;
      && id != NULL_ID && id != UNKNOWN_ID && Unbound(st, x, id)
      && id in st'.objects && st'.objects == st.objects[id := st'.objects[id]] && st'.objects[id].state == Owned
    requires Allocates(m, x, m')
    ensures Represents(st', m', mu')
  {
    var id := st'.storages[x].id;
    if m' == Assign(m, x, NullValue) {
      mu' := mu - {id};
    } else {
      var n :| n !in m.used && m' == Allocated(m, x, n);
      mu' := mu[id := n];
      forall i | i in mu ensures mu[i] in m.used { assert ObjectFits(st, m, mu, i); }
    }
    forall w ensures Held(m', w) && StorageFits(st', m', mu', w) { assert Held(m, w) && StorageFits(st, m, mu, w); }
    forall i ensures ObjectFits(st', m', mu', i) { assert ObjectFits(st, m, mu, i); }
  }

  lemma MallocSound(st: FlowState, x: Storage, site: Site, decl: bool, at: nat, m: Machine, m': Machine, mu: Naming)
      returns (mu': Naming)
    requires Represents(st, m, mu) && Good(st) && 1 <= site < GENERATION_STRIDE
    requires Steps(Malloc(x, site, decl, at), m, m') && MallocStep(st, x, site, decl, at).reports == {}
    ensures Represents(MallocStep(st, x, site, decl, at).state, m', mu')
  {
    AllocationIsFresh(st, x, site, at);
    var g := AllocationShape(st, x, site, at);
    var st' := BindAllocation(st, x, site, at).state;
    mu' := OwnedRepresents(st, st', m, m', x, mu);
  }

  lemma CopySound(st: FlowState, x: Storage, y: Storage, at: nat, m: Machine, mu: Naming)
    requires Represents(st, m, mu) && CopyStep(st, x, y, at).reports == {}
    ensures Represents(CopyStep(st, x, y, at).state, Assign(m, x, ValueOf(m, y)), mu)
  {
    assert StorageFits(st, m, mu, y) && Held(m, y);
    RebindRepresents(st, CopyStep(st, x, y, at).state, m, x, ValueOf(m, y), mu);
  }

  lemma MoveSound(st: FlowState, x: Storage, y: Storage, at: nat, m: Machine, mu: Naming)
    requires Represents(st, m, mu) && MoveStep(st, x, y, at).reports == {} && !MoveIgnored(st, y)
    ensures Represents(MoveStep(st, x, y, at).state, Assign(m, x, ValueOf(m, y)), mu)
  {
    assert StorageFits(st, m, mu, y) && Held(m, y);
    var b := st.storages[y];
    if KnownNull(b) {
      RebindRepresents(st, MoveStep(st, x, y, at).state, m, x, ValueOf(m, y), mu);
    } else {
      var given := st.(storages := st.storages[y := b.(relation := Moved, where := At(at))]);
      RebindRepresents(st, given, m, y, ValueOf(m, y), mu);
      var m1 := Assign(m, y, ValueOf(m, y));
      RebindRepresents(given, MoveStep(st, x, y, at).state, m1, x, ValueOf(m, y), mu);
      SameValues(MoveStep(st, x, y, at).state, Assign(m1, x, ValueOf(m, y)), Assign(m, x, ValueOf(m, y)), mu);
    }
  }

  /** A move that is dropped is right if the source can hold no object, or the target's binding claims
      nothing. */
  lemma IgnoredMoveSound(st: FlowState, x: Storage, y: Storage, m: Machine, mu: Naming)
    requires Represents(st, m, mu)
    requires y !in st.storages || (x in st.storages && st.storages[x].id == UNKNOWN_ID)
    ensures Represents(st, Assign(m, x, ValueOf(m, y)), mu)
  {
    assert StorageFits(st, m, mu, y) && Held(m, y);
    if y in st.storages {
      assert st.storages == st.storages[x := st.storages[x]];
      RebindRepresents(st, st, m, x, ValueOf(m, y), mu);
    } else {
      SameValues(st, m, Assign(m, x, ValueOf(m, y)), mu);
    }
  }

  lemma IgnoredMoveIsUnresolved(st: FlowState, y: Storage)
    requires Sane(st) && MoveIgnored(st, y)
    ensures y !in st.storages || st.storages[y].id == UNKNOWN_ID
  {
    assert BindingIdentified(st, y);
  }

  /** Only the objects that variables hold matter. */
  lemma SameValues(st: FlowState, m: Machine, m': Machine, mu: Naming)
    requires Represents(st, m, mu) && m.alive == m'.alive && m.used == m'.used
    requires forall v :: ValueOf(m', v).Obj? ==> ValueOf(m, v) == ValueOf(m', v)
    ensures Represents(st, m', mu)
  {
    forall v ensures Held(m', v) && StorageFits(st, m', mu, v) { assert Held(m, v) && StorageFits(st, m, mu, v); }
    forall id ensures ObjectFits(st, m', mu, id) { assert ObjectFits(st, m, mu, id); }
  }

  lemma BorrowSound(st: FlowState, x: Storage, y: Storage, kind: BorrowKind, at: nat, m: Machine, mu: Naming)
    requires Represents(st, m, mu) && BorrowStep(st, x, y, kind, at).reports == {}
    ensures Represents(BorrowStep(st, x, y, kind, at).state, Assign(m, x, ValueOf(m, y)), mu)
  {
    assert StorageFits(st, m, mu, y) && Held(m, y);
    RebindRepresents(st, BorrowStep(st, x, y, kind, at).state, m, x, ValueOf(m, y), mu);
  }

  /** What a destruction without a report changes: at most the state of the object, which is then dead
      or may be. */
  ghost predicate Destroys(st: FlowState, id: ObjectId, st': FlowState) {
    && st'.storages == st.storages && id in st.objects && id in st'.objects
    && st'.objects == st.objects[id := st'.objects[id]]
    && (st'.objects[id] == st.objects[id] || st'.objects[id].state == Dead || st'.objects[id].state == MaybeDead)
  }

  lemma FreeShape(st: FlowState, x: Storage, at: nat, live: LiveAfter)
    requires FreeStep(st, x, at, live).reports == {}
    ensures x in st.storages
    ensures KnownNull(st.storages[x]) ==> FreeStep(st, x, at, live).state == st
    ensures !KnownNull(st.storages[x]) ==>
      var id, st' := st.storages[x].id, FreeStep(st, x, at, live).state;
      && id != UNKNOWN_ID && id != NULL_ID && Destroys(st, id, st')
      && (st.objects[id].state == Owned || st.objects[id].state == NullObject)
      && (st'.objects[id] == st.objects[id] ==> st.objects[id].state == NullObject)
  {
  }

  lemma DestructionRepresents(st: FlowState, st': FlowState, m: Machine, m': Machine, id: ObjectId, mu: Naming)
    requires Represents(st, m, mu) && Destroys(st, id, st') && m'.vars == m.vars && m'.used == m.used &&
      m'.alive <= m.alive
    requires forall n :: n in m.alive && n !in m'.alive ==> id in mu && n == mu[id] && st'.objects[id].state != Owned
    ensures Represents(st', m', mu)
  {
    forall w ensures Held(m', w) && StorageFits(st', m', mu, w) { assert Held(m, w) && StorageFits(st, m, mu, w); }
    forall i ensures ObjectFits(st', m', mu, i) { assert ObjectFits(st, m, mu, i); }
  }

  lemma FreeSound(st: FlowState, x: Storage, at: nat, live: LiveAfter, m: Machine, m': Machine, mu: Naming)
    requires Represents(st, m, mu) && Wf(st) && Steps(Free(x, at), m, m') && FreeStep(st, x, at, live).reports == {}
    ensures !Violates(Free(x, at), m)
    ensures Represents(FreeStep(st, x, at, live).state, m', mu)
  {
    FreeShape(st, x, at, live);
    assert StorageFits(st, m, mu, x);
    if !KnownNull(st.storages[x]) {
      var id := st.storages[x].id;
      assert ObjectFits(st, m, mu, id);
      DestructionRepresents(st, FreeStep(st, x, at, live).state, m, m', id, mu);
    }
  }

  lemma DerefSound(st: FlowState, x: Storage, at: nat, m: Machine, mu: Naming)
    requires Represents(st, m, mu) && Wf(st) && AccessReports(st, x) == {}
    ensures !Violates(Deref(x, at), m)
  {
    assert StorageFits(st, m, mu, x);
    if x in st.storages {
      assert BindingAccessReports(st, x) == {};
      assert ObjectFits(st, m, mu, st.storages[x].id);
    }
  }

  lemma EmptySlot(c: Cmd, st: FlowState, m: Machine, mu: Naming)
    requires Represents(st, m, mu) && Wf(st)
    ensures SlotEmpty(c, st, m)
  {
    if c.Produce? { assert StorageFits(st, m, mu, c.production.dest); }
  }

  lemma ForgetObject(st: FlowState, st': FlowState, m: Machine, x: Storage, mu: Naming) returns (mu': Naming)
    requires Represents(st, m, mu) && !ValueOf(m, x).Obj?
    requires x in st'.storages && st'.storages == st.storages[x := st'.storages[x]] &&
      Unbound(st, x, st'.storages[x].id)
    requires var id := st'.storages[x].id; id in st'.objects && st'.objects == st.objects[id := st'.objects[id]]
    ensures Represents(st', m, mu')
  {
    mu' := mu - {st'.storages[x].id};
    forall w ensures StorageFits(st', m, mu', w) { assert StorageFits(st, m, mu, w); }
    forall i ensures ObjectFits(st', m, mu', i) { assert ObjectFits(st, m, mu, i); }
  }

  lemma ProduceSound(st: FlowState, p: Production, decl: bool, at: nat, m: Machine, m': Machine, mu: Naming)
      returns (mu': Naming)
    requires Represents(st, m, mu) && Wf(st) && 1 <= p.site < GENERATION_STRIDE
    requires Steps(Produce(p, decl, at), m, m') && ProduceStep(st, p, decl, at).reports == {}
    requires ProductionFresh(Produce(p, decl, at), st)
    ensures Represents(ProduceStep(st, p, decl, at).state, m', mu')
  {
    assert Accepts(st, p);
    EmptySlot(Produce(p, decl, at), st, m, mu);
    ProduceShape(st, p, decl, at);
    var st' := ProduceStep(st, p, decl, at).state;
    var result :| Produces(p, result, m, m');
    if Failed(p.contract, result) {
      mu' := ForgetObject(st, st', m, p.dest, mu);
      SameValues(st', m, m', mu');
    } else {
      var filled :| Allocates(m, p.dest, filled) && m' == Returned(filled, p, result);
      mu' := OwnedRepresents(st, st', m, filled, p.dest, mu);
      SameValues(st', filled, m', mu');
    }
  }

  lemma DeclareSound(st: FlowState, x: Storage, m: Machine, mu: Naming)
    requires Represents(st, m, mu)
    ensures Represents(st, Assign(m, x, Undef), mu)
  {
    SameValues(st, m, Assign(m, x, Undef), mu);
  }

  /** Elements that touch no object. */
  predicate Harmless(c: Cmd) { c.SetNull? || c.Declare? || c.StoreScalar? || c.CallPoint? || c.Enclosing? || c.Deref? }

  lemma HarmlessSound(c: Cmd, st: FlowState, live: LiveAfter, m: Machine, m': Machine, mu: Naming)
    requires Represents(st, m, mu) && Wf(st) && Harmless(c) && Steps(c, m, m') && Step(c, st, live).reports == {}
    ensures !Violates(c, m)
    ensures Represents(Step(c, st, live).state, m', mu)
  {
    match c
    case SetNull(x, decl, at) => RebindRepresents(st, Step(c, st, live).state, m, x, NullValue, mu);
    case Declare(x) => DeclareSound(st, x, m, mu);
    case Deref(x, at) =>
      DerefSound(st, x, at, m, mu);
      ViewRepresents(st, Step(c, st, live).state, m, mu);
    case StoreScalar(x, decl) =>
      ViewRepresents(st, Written(st, x, decl), m, mu);
      SameValues(Written(st, x, decl), m, m', mu);
    case CallPoint => ViewRepresents(st, ExpireBorrows(st, live), m, mu);
    case Enclosing(_) =>
  }

  /** The object is named anew after the target, if nothing else can hold an object. */
  lemma DroppedMoveSound(st: FlowState, x: Storage, y: Storage, m: Machine, mu: Naming) returns (mu': Naming)
    requires Represents(st, m, mu) && ValueOf(m, y).Obj? && CanHold(st, x) &&
      st.objects[st.storages[x].id].state != Owned
    requires forall w :: w in st.storages && w != x ==> !CanHold(st, w)
    ensures Represents(st, Assign(m, x, ValueOf(m, y)), mu')
  {
    var m' := Assign(m, x, ValueOf(m, y));
    mu' := map[st.storages[x].id := ValueOf(m, y).n];
    assert Held(m, y);
    forall w ensures Held(m', w) && StorageFits(st, m', mu', w) {
      assert Held(m, w) && StorageFits(st, m, mu, w);
      if w in st.storages { assert ObjectFits(st, m, mu, st.storages[w].id); }
    }
  }

  lemma MoveElementSound(x: Storage, y: Storage, decl: bool, at: nat, st: FlowState, m: Machine, mu: Naming)
      returns (mu': Naming)
    requires Represents(st, m, mu) && Sane(st)
    requires MoveStep(Written(st, x, decl), x, y, at).reports == {} && !SilentMove(Move(x, y, decl, at), st)
    ensures Represents(MoveStep(Written(st, x, decl), x, y, at).state, Assign(m, x, ValueOf(m, y)), mu')
  {
    var st' := Written(st, x, decl);
    ViewRepresents(st, st', m, mu);
    mu' := mu;
    if !MoveIgnored(st', y) {
      MoveSound(st', x, y, at, m, mu);
    } else {
      WrittenIsSane(st, x, decl);
      IgnoredMoveIsUnresolved(st', y);
      if y !in st'.storages || (x in st'.storages && st'.storages[x].id == UNKNOWN_ID) {
        IgnoredMoveSound(st', x, y, m, mu);
      } else if ValueOf(m, y).Obj? {
        assert !Claims(st, x) && CanHold(st', x);
        assert forall w :: w in st'.storages && w != x ==> !CanHold(st', w);
        mu' := DroppedMoveSound(st', x, y, m, mu);
      } else {
        assert Names(st'.storages[x].id);
        RebindRepresents(st', st', m, x, ValueOf(m, y), mu);
      }
    }
  }

  /** Elements that assign pointers. */
  lemma TransferSound(c: Cmd, st: FlowState, live: LiveAfter, m: Machine, m': Machine, mu: Naming) returns (mu': Naming)
    requires Represents(st, m, mu) && Sane(st) && (c.Copy? || c.Move? || c.Borrow?)
    requires Steps(c, m, m') && Step(c, st, live).reports == {} && !SilentMove(c, st)
    ensures Represents(Step(c, st, live).state, m', mu')
  {
    mu' := mu;
    match c
    case Copy(x, y, decl, at) =>
      ViewRepresents(st, Written(st, x, decl), m, mu);
      CopySound(Written(st, x, decl), x, y, at, m, mu);
    case Move(x, y, decl, at) => mu' := MoveElementSound(x, y, decl, at, st, m, mu);
    case Borrow(x, y, kind, at) => BorrowSound(st, x, y, kind, at, m, mu);
  }

  /** An element that reports nothing is safe, and the state after it represents the machine after it. */
  lemma StepSound(c: Cmd, st: FlowState, live: LiveAfter, m: Machine, m': Machine, mu: Naming) returns (mu': Naming)
    requires Represents(st, m, mu) && Sane(st) && SmallSite(c) && ProductionFresh(c, st)
    requires Steps(c, m, m') && Step(c, st, live).reports == {} && !SilentMove(c, st)
    ensures !Violates(c, m)
    ensures Represents(Step(c, st, live).state, m', mu')
  {
    mu' := mu;
    if c.Malloc? {
      ViewRepresents(st, Written(st, c.x, c.decl), m, mu);
      WrittenIdentified(st, c.x, c.decl);
      mu' := MallocSound(Written(st, c.x, c.decl), c.x, c.site, c.decl, c.at, m, m', mu);
    } else if c.Free? {
      FreeSound(st, c.x, c.at, live, m, m', mu);
      ViewRepresents(FreeStep(st, c.x, c.at, live).state, Step(c, st, live).state, m', mu);
    } else if c.Produce? {
      mu' := ProduceSound(st, c.production, c.decl, c.at, m, m', mu);
      ViewRepresents(ProduceStep(st, c.production, c.decl, c.at).state, Step(c, st, live).state, m', mu');
    } else if c.Copy? || c.Move? || c.Borrow? {
      mu' := TransferSound(c, st, live, m, m', mu);
    } else if Harmless(c) {
      HarmlessSound(c, st, live, m, m', mu);
    }
  }

  // ---------------------------------------------------------------------------------------------
  // Branches
  // ---------------------------------------------------------------------------------------------

  /** The state represents the machine, and its guards are true of it. */
  ghost predicate Describes(blocks: seq<Block>, st: FlowState, m: Machine, mu: Naming) {
    Represents(st, m, mu) && GuardsTrue(blocks, st, m)
  }

  lemma NarrowRepresents(st: FlowState, st': FlowState, m: Machine, x: Storage, mu: Naming)
    requires Represents(st, m, mu) && st'.objects == st.objects
    requires x in st'.storages && st'.storages == st.storages[x := st'.storages[x]] &&
      Fits(st'.storages[x], ValueOf(m, x), mu)
    ensures Represents(st', m, mu)
  {
    forall w ensures StorageFits(st', m, mu, w) { assert StorageFits(st, m, mu, w); }
    forall id ensures ObjectFits(st', m, mu, id) { assert ObjectFits(st, m, mu, id); }
  }

  /** If a failing result means that the slot holds no object, then refining the slot by any comparison
      of the result is right. */
  lemma PolaritySound(st: FlowState, m: Machine, mu: Naming, dest: Storage, successNonzero: bool, equal: bool, k: int,
      result: int)
    requires Represents(st, m, mu) && MayCompare(Number(result), k, equal)
    requires (result != 0) != successNonzero ==> !ValueOf(m, dest).Obj?
    ensures Represents(RefineByPolarity(st, dest, successNonzero, equal, k == 0), m, mu)
  {
    var st' := RefineByPolarity(st, dest, successNonzero, equal, k == 0);
    if st' != st {
      assert StorageFits(st, m, mu, dest);
      NarrowRepresents(st, st', m, dest, mu);
    }
  }

  lemma NullCheckSound(st: FlowState, m: Machine, mu: Naming, dest: Storage, nonNull: bool)
    requires Represents(st, m, mu) && (!nonNull ==> !ValueOf(m, dest).Obj?)
    ensures Represents(RefineByNullCheck(st, dest, nonNull), m, mu)
  {
    var st' := RefineByNullCheck(st, dest, nonNull);
    if st' != st {
      assert StorageFits(st, m, mu, dest);
      NarrowRepresents(st, st', m, dest, mu);
    }
  }

  /** `p` is the latest producing call for slot `d`. */
  ghost predicate LatestCall(blocks: seq<Block>, m: Machine, d: Storage, p: Production) {
    d in m.made && HasProduction(blocks, p) && p.dest == d && p.call == m.made[d].call
  }

  /** A call in a condition is the latest one for its slot, and tells the truth by its result. */
  ghost predicate CallTrue(blocks: seq<Block>, s: Subject, m: Machine) {
    s.ProducingCall? ==>
      && s.contract.writeOnSuccess && (exists p :: LatestCall(blocks, m, s.dest, p) && p.contract == s.contract)
      && (Failed(s.contract, m.made[s.dest].result) ==> !ValueOf(m, s.dest).Obj?)
  }

  lemma SubjectSound(blocks: seq<Block>, st: FlowState, s: Subject, equal: bool, k: int, m: Machine, mu: Naming)
    requires Describes(blocks, st, m, mu) && CallTrue(blocks, s, m) && MayCompare(SubjectValue(s, m), k, equal)
    ensures Represents(RefineSubject(st, s, equal, k == 0), m, mu)
  {
    match s
    case ProducingCall(dest, contract) =>
      PolaritySound(st, m, mu, dest, contract.successNonzero, equal, k, m.made[dest].result);
    case OtherSubject =>
    case _ =>
      if s.v in st.pending {
        assert GuardTrue(blocks, st, m, s.v);
        var g := st.pending[s.v];
        PolaritySound(st, m, mu, g.dest, g.successNonzero, equal, k, m.made[g.dest].result);
      } else if k == 0 {
        NullCheckSound(st, m, mu, s.v, !equal);
      }
  }

  /** On the edge that a run takes, the refinement by its condition is right. */
  lemma {:induction false} RefineSound(blocks: seq<Block>, st: FlowState, c: Cond, holds: bool, m: Machine, mu: Naming)
    requires Describes(blocks, st, m, mu) && CallTrue(blocks, CondSubject(c), m) && Allows(c, holds, m)
    ensures Represents(Refine(st, c, holds), m, mu)
  {
    match c
    case Not(inner) => RefineSound(blocks, st, inner, !holds, m, mu);
    case Equal(s, k) => if k.Some? { SubjectSound(blocks, st, s, holds, k.value, m, mu); }
    case NotEqual(s, k) => if k.Some? { SubjectSound(blocks, st, s, !holds, k.value, m, mu); }
    case Truth(s) => SubjectSound(blocks, st, s, !holds, 0, m, mu);
    case OtherCond =>
  }

  // ---------------------------------------------------------------------------------------------
  // A refinement says what the returned value says
  // ---------------------------------------------------------------------------------------------

  /** The latest producing call for slot `d` signals by its result, and its result means success. */
  ghost predicate Succeeded(blocks: seq<Block>, m: Machine, d: Storage) {
    exists p :: LatestCall(blocks, m, d, p) && p.contract.writeOnSuccess && !Failed(p.contract, m.made[d].result)
  }

  ghost predicate HasFailed(blocks: seq<Block>, m: Machine, d: Storage) {
    exists p :: LatestCall(blocks, m, d, p) && Failed(p.contract, m.made[d].result)
  }

  /** The condition compares the slot itself with null. */
  predicate NullChecked(st: FlowState, s: Subject, d: Storage) {
    (s.Variable? || s.AssignedVariable?) && s.v == d && d !in st.pending
  }

  /** What the edge is taken on: the result of the producing call, or the slot's own value. */
  ghost predicate SaysSuccess(blocks: seq<Block>, st: FlowState, s: Subject, m: Machine, d: Storage) {
    if NullChecked(st, s, d) then MayDiffer(ValueOf(m, d), 0) else Succeeded(blocks, m, d)
  }

  ghost predicate SaysFailure(blocks: seq<Block>, st: FlowState, s: Subject, m: Machine, d: Storage) {
    if NullChecked(st, s, d) then MayEqual(ValueOf(m, d), 0) else HasFailed(blocks, m, d)
  }

  /** A slot whose binding the refinement changes was an unrefined production. It becomes an owner on
      an edge that says success, and null on one that says failure. */
  ghost predicate RefinementAgrees(blocks: seq<Block>, st: FlowState, st': FlowState, s: Subject, m: Machine,
      d: Storage) {
    d in st.storages && d in st'.storages && st'.storages[d] != st.storages[d] ==>
      && st.storages[d].producedMaybe
      && (if st'.storages[d].producedMaybe then KnownNull(st'.storages[d]) && SaysFailure(blocks, st, s, m, d)
          else st'.storages[d].relation == Owner && SaysSuccess(blocks, st, s, m, d))
  }

  /** Any comparison of a result with a constant, whichever way it goes. */
  lemma PolarityAgrees(st: FlowState, dest: Storage, successNonzero: bool, equal: bool, k: int, result: int, d: Storage)
    requires MayCompare(Number(result), k, equal)
    ensures var st' := RefineByPolarity(st, dest, successNonzero, equal, k == 0);
      d in st.storages && d in st'.storages && st'.storages[d] != st.storages[d] ==>
        && d == dest && st.storages[d].producedMaybe
        && (if st'.storages[d].producedMaybe then KnownNull(st'.storages[d]) && (result != 0) != successNonzero
            else st'.storages[d].relation == Owner && (result != 0) == successNonzero)
  {
  }

  lemma GuardIsLatestCall(blocks: seq<Block>, st: FlowState, m: Machine, v: Storage) returns (p: Production)
    requires v in st.pending && GuardTrue(blocks, st, m, v)
    ensures LatestCall(blocks, m, st.pending[v].dest, p) && p.contract.writeOnSuccess
    ensures p.contract.successNonzero == st.pending[v].successNonzero
  {
    p :| HasProduction(blocks, p) && p.contract.writeOnSuccess && p.result == Some(v) && st.pending[v] == GuardOf(p);
  }

  lemma SubjectAgrees(blocks: seq<Block>, st: FlowState, s: Subject, equal: bool, k: int, m: Machine, d: Storage)
    requires CallTrue(blocks, s, m) && MayCompare(SubjectValue(s, m), k, equal)
    requires GuardsTrue(blocks, st, m)
    ensures RefinementAgrees(blocks, st, RefineSubject(st, s, equal, k == 0), s, m, d)
  {
    match s
    case ProducingCall(dest, contract) =>
      var p :| LatestCall(blocks, m, dest, p) && p.contract == contract;
      PolarityAgrees(st, dest, contract.successNonzero, equal, k, m.made[dest].result, d);
    case OtherSubject =>
    case _ =>
      if s.v in st.pending {
        assert GuardTrue(blocks, st, m, s.v);
        var g := st.pending[s.v];
        var p := GuardIsLatestCall(blocks, st, m, s.v);
        PolarityAgrees(st, g.dest, g.successNonzero, equal, k, m.made[g.dest].result, d);
      }
  }

  /** `==`, `!=` and truth, under any number of negations. */
  lemma {:induction false} RefineAgrees(blocks: seq<Block>, st: FlowState, c: Cond, holds: bool, m: Machine, d: Storage)
    requires GuardsTrue(blocks, st, m) && CallTrue(blocks, CondSubject(c), m) && Allows(c, holds, m)
    ensures RefinementAgrees(blocks, st, Refine(st, c, holds), CondSubject(c), m, d)
  {
    match c
    case Not(inner) => RefineAgrees(blocks, st, inner, !holds, m, d);
    case Equal(s, k) => if k.Some? { SubjectAgrees(blocks, st, s, holds, k.value, m, d); }
    case NotEqual(s, k) => if k.Some? { SubjectAgrees(blocks, st, s, !holds, k.value, m, d); }
    case Truth(s) => SubjectAgrees(blocks, st, s, !holds, 0, m, d);
    case OtherCond =>
  }

  ghost predicate ConditionTrue(blocks: seq<Block>, b: Block, m: Machine) {
    b.cond.Some? ==> CallTrue(blocks, CondSubject(b.cond.value), m)
  }

  /** On an edge that the machine takes. */
  lemma EdgeAgrees(blocks: seq<Block>, b: Block, i: nat, next: nat, out: FlowState, m: Machine, d: Storage)
    requires GuardsTrue(blocks, out, m) && ConditionTrue(blocks, b, m) && TakesEdge(b, i, next, m)
    ensures if b.cond.Some? then RefinementAgrees(blocks, out, EdgeState(b, i, out), CondSubject(b.cond.value), m, d)
            else EdgeState(b, i, out).storages == out.storages
  {
    if b.cond.Some? {
      RefineAgrees(blocks, out, b.cond.value, i == 0, m, d);
    }
  }

  lemma EdgeDescribes(blocks: seq<Block>, b: Block, i: nat, next: nat, out: FlowState, m: Machine, mu: Naming)
    requires Describes(blocks, out, m, mu) && ConditionTrue(blocks, b, m) && TakesEdge(b, i, next, m)
    ensures Describes(blocks, EdgeState(b, i, out), m, mu)
  {
    var refined := if b.cond.Some? then Refine(out, b.cond.value, i == 0) else out;
    if b.cond.Some? {
      RefineSound(blocks, out, b.cond.value, i == 0, m, mu);
    }
    ViewRepresents(refined, EdgeState(b, i, out), m, mu);
    EdgeKeepsGuards(blocks, b, i, out, m);
  }

  // ---------------------------------------------------------------------------------------------
  // Blocks
  // ---------------------------------------------------------------------------------------------

  /** The abstract state before element `k`, when the block is run from `st`. */
  ghost function StateBefore(cmds: seq<Cmd>, st: FlowState, live: seq<LiveAfter>, k: nat): FlowState
    requires k <= |cmds| == |live|
  {
    RunBlock(cmds[..k], st, live[..k]).state
  }

  ghost predicate QuietAt(cmds: seq<Cmd>, st: FlowState, live: seq<LiveAfter>, k: nat) {
    k < |cmds| == |live| ==>
      && Step(cmds[k], StateBefore(cmds, st, live, k), live[k]).reports == {}
      && !SilentMove(cmds[k], StateBefore(cmds, st, live, k))
  }

  /** Declarations meet no guard and productions no other reference to what they make. */
  ghost predicate OrderlyAt(cmds: seq<Cmd>, st: FlowState, live: seq<LiveAfter>, k: nat) {
    k < |cmds| == |live| ==>
      && DeclarationsFresh(cmds[k], StateBefore(cmds, st, live, k))
      && ProductionFresh(cmds[k], StateBefore(cmds, st, live, k))
  }

  lemma StateBeforeNext(cmds: seq<Cmd>, st: FlowState, live: seq<LiveAfter>, k: nat)
    requires k < |cmds| == |live|
    ensures StateBefore(cmds, st, live, k + 1) == Step(cmds[k], StateBefore(cmds, st, live, k), live[k]).state
  {
    assert cmds[..k + 1][..k] == cmds[..k] && live[..k + 1][..k] == live[..k];
  }

  ghost function ReportsBefore(cmds: seq<Cmd>, st: FlowState, live: seq<LiveAfter>, k: nat): set<Report>
    requires k <= |cmds| == |live|
  {
    RunBlock(cmds[..k], st, live[..k]).reports
  }

  lemma {:induction false} ReportsBeforeNext(cmds: seq<Cmd>, st: FlowState, live: seq<LiveAfter>, k: nat)
    requires k < |cmds| == |live|
    ensures ReportsBefore(cmds, st, live, k + 1) ==
      ReportsBefore(cmds, st, live, k) + Step(cmds[k], StateBefore(cmds, st, live, k), live[k]).reports
  {
    RunBlockNext(cmds, st, live, k);
  }

  lemma {:induction false} ReportsOfPrefix(cmds: seq<Cmd>, st: FlowState, live: seq<LiveAfter>, k: nat, n: nat)
    requires k < n <= |cmds| == |live|
    ensures Step(cmds[k], StateBefore(cmds, st, live, k), live[k]).reports <= ReportsBefore(cmds, st, live, n)
    decreases n
  {
    ReportsBeforeNext(cmds, st, live, n - 1);
    if k < n - 1 {
      ReportsOfPrefix(cmds, st, live, k, n - 1);
    }
  }

  /** An orderly visit whose first `k` elements are silent. */
  ghost predicate CalmVisit(blocks: seq<Block>, v: Visit, st: FlowState, live: seq<LiveAfter>, k: nat) {
    && VisitOk(blocks, v) && |live| == |blocks[v.block].cmds| && Reachable(st, blocks)
    && (forall j :: OrderlyAt(blocks[v.block].cmds, st, live, j))
    && (forall j: nat :: j < k ==> QuietAt(blocks[v.block].cmds, st, live, j))
  }

  /** What is asked of every program here. */
  ghost predicate Sound(blocks: seq<Block>) {
    SmallSites(blocks) && CallsAgree(blocks) &&
      forall b :: b in blocks ==> ConditionFollowsCall(b) && ConditionOnSignal(b)
  }

  lemma VisitStep(blocks: seq<Block>, v: Visit, st: FlowState, live: seq<LiveAfter>, mu: Naming, k: nat)
      returns (mu': Naming)
    requires Sound(blocks) && CalmVisit(blocks, v, st, live, k) && 0 < k < |v.states|
    requires Describes(blocks, StateBefore(blocks[v.block].cmds, st, live, k - 1), v.states[k - 1], mu)
    ensures Describes(blocks, StateBefore(blocks[v.block].cmds, st, live, k), v.states[k], mu')
    ensures !Violates(blocks[v.block].cmds[k - 1], v.states[k - 1])
  {
    var cmds := blocks[v.block].cmds;
    var before := StateBefore(cmds, st, live, k - 1);
    ReachableRun(st, blocks, v.block, k - 1, live[..k - 1]);
    ReachableIsSane(blocks, before);
    assert QuietAt(cmds, st, live, k - 1) && OrderlyAt(cmds, st, live, k - 1);
    assert Steps(cmds[k - 1], v.states[k - 1], v.states[k - 1 + 1]);
    assert InProgram(cmds[k - 1], blocks);
    StateBeforeNext(cmds, st, live, k - 1);
    mu' := StepSound(cmds[k - 1], before, live[k - 1], v.states[k - 1], v.states[k], mu);
    EmptySlot(cmds[k - 1], before, v.states[k - 1], mu);
    StepKeepsGuards(blocks, cmds[k - 1], before, live[k - 1], v.states[k - 1], v.states[k]);
  }

  /** What a silent block promises along one visit. */
  lemma {:induction false} VisitSound(blocks: seq<Block>, v: Visit, st: FlowState, live: seq<LiveAfter>, mu: Naming,
      k: nat) returns (mu': Naming)
    requires Sound(blocks) && CalmVisit(blocks, v, st, live, k) && Describes(blocks, st, v.states[0], mu) &&
      k < |v.states|
    ensures Describes(blocks, StateBefore(blocks[v.block].cmds, st, live, k), v.states[k], mu')
    ensures forall j :: 0 <= j < k ==> !Violates(blocks[v.block].cmds[j], v.states[j])
    decreases k
  {
    if k == 0 {
      mu' := mu;
    } else {
      var mu1 := VisitSound(blocks, v, st, live, mu, k - 1);
      mu' := VisitStep(blocks, v, st, live, mu1, k);
    }
  }

  lemma LastCallIsTrue(blocks: seq<Block>, b: Block, st: FlowState, live: LiveAfter, m: Machine, m': Machine,
      mu: Naming)
    requires b in blocks && ConditionFollowsCall(b) && ConditionOnSignal(b) && b.cond.Some? &&
      CondSubject(b.cond.value).ProducingCall?
    requires var c := b.cmds[|b.cmds| - 1]; Steps(c, m, m') && Step(c, st, live).reports == {}
    requires Represents(st, m, mu) && Wf(st)
    ensures ConditionTrue(blocks, b, m')
  {
    var c := b.cmds[|b.cmds| - 1];
    EmptySlot(c, st, m, mu);
    QuietProductionAccepted(c, st, live);
    CallTellsTheTruth(c, st, m, m');
    assert InProgram(c, blocks);
    ProductionInProgram(blocks, c);
    assert LatestCall(blocks, m', c.production.dest, c.production);
  }

  /** A condition on a call finds the call's result true at the end of the block. */
  lemma VisitEnd(blocks: seq<Block>, v: Visit, st: FlowState, live: seq<LiveAfter>, mu: Naming)
    requires Sound(blocks) && VisitOk(blocks, v) && |v.states| == |blocks[v.block].cmds| + 1
    requires CalmVisit(blocks, v, st, live, |blocks[v.block].cmds|)
    requires Describes(blocks, st, v.states[0], mu)
    ensures ConditionTrue(blocks, blocks[v.block], v.states[|v.states| - 1])
  {
    var b := blocks[v.block];
    var n := |b.cmds|;
    assert ConditionFollowsCall(b) && ConditionOnSignal(b);
    if b.cond.Some? && CondSubject(b.cond.value).ProducingCall? {
      var mu1 := VisitSound(blocks, v, st, live, mu, n - 1);
      var before := StateBefore(b.cmds, st, live, n - 1);
      ReachableRun(st, blocks, v.block, n - 1, live[..n - 1]);
      ReachableIsSane(blocks, before);
      assert QuietAt(b.cmds, st, live, n - 1);
      assert Steps(b.cmds[n - 1], v.states[n - 1], v.states[n - 1 + 1]);
      LastCallIsTrue(blocks, b, before, live[n - 1], v.states[n - 1], v.states[n], mu1);
    }
  }

  lemma QuietProductionAccepted(c: Cmd, st: FlowState, live: LiveAfter)
    requires c.Produce? && Step(c, st, live).reports == {}
    ensures Accepts(st, c.production)
  {
  }

  lemma ReachableIsSane(blocks: seq<Block>, st: FlowState)
    requires SmallSites(blocks) && Reachable(st, blocks)
    ensures Sane(st)
  {
    var d :| DerivesFrom(d, blocks) && Derived(d) == st;
    DerivedIsGood(d, blocks);
    DerivedIsLocal(d, blocks);
    EveryProgramIsBounded(blocks);
    DerivedIsBounded(d, blocks, ProgramBounds(blocks));
  }

  lemma {:induction false} DerivedIsBounded(d: Derivation, blocks: seq<Block>, w: Bounds)
    requires ProgramWithin(blocks, w) && DerivesFrom(d, blocks)
    ensures Within(Derived(d), w)
  {
    match d
    case Start =>
    case Element(before, c, live) =>
      DerivedIsBounded(before, blocks, w);
      var b, k :| 0 <= b < |blocks| && 0 <= k < |blocks[b].cmds| && blocks[b].cmds[k] == c;
      assert BlockWithin(blocks[b], w);
      StepWithin(c, Derived(before), live, w);
    case Edge(before, block, i) =>
      DerivedIsBounded(before, blocks, w);
      EdgeWithin(block, i, Derived(before), w);
    case Join(l, r) =>
      DerivedIsBounded(l, blocks, w);
      DerivedIsBounded(r, blocks, w);
      JoinWithin(Derived(l), Derived(r), w);
  }

  // ---------------------------------------------------------------------------------------------
  // Runs
  // ---------------------------------------------------------------------------------------------

  ghost function LiveOf(blocks: seq<Block>, after: map<L.Point, set<Storage>>, b: nat): seq<LiveAfter>
    requires b < |blocks|
  {
    LiveAfterBlock(after, b, |blocks[b].cmds|)
  }

  /** The reporting pass is silent at element `k` of block `b`. */
  ghost predicate SilentAt(blocks: seq<Block>, ins: map<nat, FlowState>, after: map<L.Point, set<Storage>>, b: nat,
      k: nat) {
    b in ins && b < |blocks| ==> QuietAt(blocks[b].cmds, ins[b], LiveOf(blocks, after, b), k)
  }

  /** The reporting pass is silent at every element that the run executes before element `k` of its
      visit `i`. */
  ghost predicate SilentUntil(blocks: seq<Block>, ins: map<nat, FlowState>, after: map<L.Point, set<Storage>>,
      run: seq<Visit>, i: nat, k: nat) {
    forall j: nat, l: nat :: j < i < |run| || (j == i < |run| && l < k) ==>
      SilentAt(blocks, ins, after, run[j].block, l)
  }

  ghost predicate OrderlyIn(blocks: seq<Block>, ins: map<nat, FlowState>, after: map<L.Point, set<Storage>>, b: nat,
      k: nat) {
    b in ins && b < |blocks| ==> OrderlyAt(blocks[b].cmds, ins[b], LiveOf(blocks, after, b), k)
  }

  ghost predicate Orderly(blocks: seq<Block>, ins: map<nat, FlowState>, after: map<L.Point, set<Storage>>) {
    forall b, k :: OrderlyIn(blocks, ins, after, b, k)
  }

  lemma VisitIsCalm(blocks: seq<Block>, ins: map<nat, FlowState>, after: map<L.Point, set<Storage>>, v: Visit, k: nat)
    requires Orderly(blocks, ins, after) && VisitOk(blocks, v) && v.block in ins && Reachable(ins[v.block], blocks)
    requires forall l: nat :: l < k ==> SilentAt(blocks, ins, after, v.block, l)
    ensures CalmVisit(blocks, v, ins[v.block], LiveOf(blocks, after, v.block), k)
  {
    var cmds, live := blocks[v.block].cmds, LiveOf(blocks, after, v.block);
    forall j: nat ensures OrderlyAt(cmds, ins[v.block], live, j) { assert OrderlyIn(blocks, ins, after, v.block, j); }
    forall j: nat | j < k ensures QuietAt(cmds, ins[v.block], live, j) {
      assert SilentAt(blocks, ins, after, v.block, j);
    }
  }

  /** The visited block reports nothing. */
  ghost predicate SilentBlock(blocks: seq<Block>, ins: map<nat, FlowState>, after: map<L.Point, set<Storage>>, b: nat) {
    forall l: nat :: SilentAt(blocks, ins, after, b, l)
  }

  lemma RenamedDescribes(blocks: seq<Block>, e: FlowState, s: FlowState, m: Machine, mu: Naming) returns (mu': Naming)
    requires Describes(blocks, e, m, mu) && Renamed(e, s)
    ensures Describes(blocks, s, m, mu')
  {
    mu' := RenamedRepresents(e, s, m, mu);
    FewerGuards(blocks, e, s, m);
  }

  /** The two passes end a block alike if the reporting one is silent in it. */
  ghost predicate PassesAgreeAt(blocks: seq<Block>, ins: map<nat, FlowState>, after: map<L.Point, set<Storage>>,
      b: nat) {
    b in ins && b < |blocks| && SilentBlock(blocks, ins, after, b) ==>
      Renamed(EmitBlock(blocks, ins, after, b).state, TransferBlock(blocks[b], ins[b]))
  }

  ghost predicate PassesAgree(blocks: seq<Block>, ins: map<nat, FlowState>, after: map<L.Point, set<Storage>>) {
    forall b :: PassesAgreeAt(blocks, ins, after, b)
  }

  lemma AbsorbedDescribes(blocks: seq<Block>, x: FlowState, e: FlowState, m: Machine, mu: Naming)
    requires SmallSites(blocks) && Reachable(x, blocks) && Reachable(e, blocks)
    requires Absorbs(x, e) && Describes(blocks, e, m, mu)
    ensures Describes(blocks, x, m, mu)
  {
    ReachableIsSane(blocks, x);
    ReachableIsSane(blocks, e);
    JoinRepresents(x, e, m, mu);
    JoinKeepsGuards(blocks, x, e, m);
  }

  /** From a described block end, control only reaches described block starts. */
  lemma EdgeSound(blocks: seq<Block>, entry: nat, ins: map<nat, FlowState>, v: Visit, next: Visit, mu: Naming)
    requires ValidGraph(blocks, entry) && SmallSites(blocks) && PostFixed(blocks, entry, ins)
    requires v.block in ins && VisitOk(blocks, v) && Continues(blocks, v, next) &&
      ConditionTrue(blocks, blocks[v.block], next.states[0])
    requires forall b :: b in ins ==> Reachable(ins[b], blocks)
    requires Describes(blocks, TransferBlock(blocks[v.block], ins[v.block]), next.states[0], mu)
    ensures next.block in ins && Describes(blocks, ins[next.block], next.states[0], mu)
  {
    var b := v.block;
    var out := TransferBlock(blocks[b], ins[b]);
    var i :| TakesEdge(blocks[b], i, next.block, next.states[0]);
    assert EdgesAbsorbed(blocks, ins, b, out);
    assert EdgeAbsorbed(blocks, ins, b, i, out);
    ReachableTransfer(ins[b], blocks, b);
    ReachableEdge(out, blocks, b, i);
    EdgeDescribes(blocks, blocks[b], i, next.block, out, next.states[0], mu);
    AbsorbedDescribes(blocks, ins[next.block], EdgeState(blocks[b], i, out), next.states[0], mu);
  }

  /** A converged, orderly analysis whose two passes agree. Nothing is said about what it reports. */
  ghost predicate Converged(blocks: seq<Block>, entry: nat, ins: map<nat, FlowState>,
      after: map<L.Point, set<Storage>>) {
    && ValidGraph(blocks, entry) && Sound(blocks) && PostFixed(blocks, entry, ins)
    && (forall b :: b in ins ==> Reachable(ins[b], blocks))
    && Orderly(blocks, ins, after) && PassesAgree(blocks, ins, after)
  }

  /** The converged out-state describes the machine that leaves the block. */
  lemma BlockEnd(blocks: seq<Block>, entry: nat, ins: map<nat, FlowState>, after: map<L.Point, set<Storage>>, v: Visit,
      next: Visit, mu: Naming) returns (mu': Naming)
    requires Converged(blocks, entry, ins, after) && VisitOk(blocks, v) && Continues(blocks, v, next) &&
      SilentBlock(blocks, ins, after, v.block)
    requires v.block in ins && Describes(blocks, ins[v.block], v.states[0], mu)
    ensures Describes(blocks, TransferBlock(blocks[v.block], ins[v.block]), next.states[0], mu')
    ensures ConditionTrue(blocks, blocks[v.block], next.states[0])
  {
    var cmds, live := blocks[v.block].cmds, LiveOf(blocks, after, v.block);
    VisitIsCalm(blocks, ins, after, v, |cmds|);
    mu' := VisitSound(blocks, v, ins[v.block], live, mu, |cmds|);
    VisitEnd(blocks, v, ins[v.block], live, mu);
    assert cmds[..|cmds|] == cmds && live[..|cmds|] == live;
    assert PassesAgreeAt(blocks, ins, after, v.block);
    mu' := RenamedDescribes(blocks, EmitBlock(blocks, ins, after, v.block).state,
      TransferBlock(blocks[v.block], ins[v.block]), next.states[0], mu');
  }

  lemma BlockSound(blocks: seq<Block>, entry: nat, ins: map<nat, FlowState>, after: map<L.Point, set<Storage>>,
      v: Visit, next: Visit, mu: Naming) returns (mu': Naming)
    requires Converged(blocks, entry, ins, after) && VisitOk(blocks, v) && Continues(blocks, v, next) &&
      SilentBlock(blocks, ins, after, v.block)
    requires v.block in ins && Describes(blocks, ins[v.block], v.states[0], mu)
    ensures next.block in ins && Describes(blocks, ins[next.block], next.states[0], mu')
  {
    mu' := BlockEnd(blocks, entry, ins, after, v, next, mu);
    EdgeSound(blocks, entry, ins, v, next, mu');
  }

  lemma EntryDescribes(blocks: seq<Block>, entry: nat, ins: map<nat, FlowState>)
    requires SmallSites(blocks) && PostFixed(blocks, entry, ins) && Reachable(ins[entry], blocks)
    ensures Describes(blocks, ins[entry], INITIAL, map[])
  {
    StartRepresents();
    StartIsReachable(blocks);
    AbsorbedDescribes(blocks, ins[entry], EMPTY_STATE, INITIAL, map[]);
  }

  lemma RunParts(blocks: seq<Block>, entry: nat, run: seq<Visit>, i: nat)
    requires IsRun(blocks, entry, run) && i < |run|
    ensures VisitOk(blocks, run[i]) && (i > 0 ==> Continues(blocks, run[i - 1], run[i]))
    ensures run[0].block == entry && run[0].states[0] == INITIAL
  {
    if i > 0 { assert Continues(blocks, run[i - 1], run[i - 1 + 1]); }
  }

  /** The in-state of the visited block describes the machine that enters it. */
  ghost predicate Tracks(blocks: seq<Block>, ins: map<nat, FlowState>, v: Visit, mu: Naming) {
    VisitOk(blocks, v) && v.block in ins && Describes(blocks, ins[v.block], v.states[0], mu)
  }

  lemma RunStart(blocks: seq<Block>, entry: nat, ins: map<nat, FlowState>, after: map<L.Point, set<Storage>>,
      run: seq<Visit>)
    requires Converged(blocks, entry, ins, after) && IsRun(blocks, entry, run)
    ensures Tracks(blocks, ins, run[0], map[])
  {
    RunParts(blocks, entry, run, 0);
    EntryDescribes(blocks, entry, ins);
  }

  lemma RunStep(blocks: seq<Block>, entry: nat, ins: map<nat, FlowState>, after: map<L.Point, set<Storage>>,
      run: seq<Visit>, i: nat, mu: Naming) returns (mu': Naming)
    requires Converged(blocks, entry, ins, after) && IsRun(blocks, entry, run) && i + 1 < |run|
    requires SilentBlock(blocks, ins, after, run[i].block) && Tracks(blocks, ins, run[i], mu)
    ensures Tracks(blocks, ins, run[i + 1], mu')
  {
    RunParts(blocks, entry, run, i + 1);
    mu' := BlockSound(blocks, entry, ins, after, run[i], run[i + 1], mu);
  }

  lemma SilentUntilBlock(blocks: seq<Block>, ins: map<nat, FlowState>, after: map<L.Point, set<Storage>>,
      run: seq<Visit>, i: nat, k: nat, j: nat)
    requires SilentUntil(blocks, ins, after, run, i, k) && j < i < |run|
    ensures SilentBlock(blocks, ins, after, run[j].block)
  {
  }

  ghost predicate Tracked(blocks: seq<Block>, ins: map<nat, FlowState>, run: seq<Visit>, i: nat) {
    i < |run| && exists mu :: Tracks(blocks, ins, run[i], mu)
  }

  lemma RunNext(blocks: seq<Block>, entry: nat, ins: map<nat, FlowState>, after: map<L.Point, set<Storage>>,
      run: seq<Visit>, i: nat)
    requires Converged(blocks, entry, ins, after) && IsRun(blocks, entry, run) && i + 1 < |run|
    requires SilentBlock(blocks, ins, after, run[i].block) && Tracked(blocks, ins, run, i)
    ensures Tracked(blocks, ins, run, i + 1)
  {
    var mu :| Tracks(blocks, ins, run[i], mu);
    var mu' := RunStep(blocks, entry, ins, after, run, i, mu);
  }

  /** What holds of the first block of a run and is passed on holds of the `n`-th. */
  lemma {:induction false} PassedOn(p: nat -> bool, n: nat)
    requires p(0) && forall j: nat :: j < n && p(j) ==> p(j + 1)
    ensures p(n)
  {
    if n > 0 {
      PassedOn(p, n - 1);
      assert p(n - 1 + 1);
    }
  }

  lemma RunSound(blocks: seq<Block>, entry: nat, ins: map<nat, FlowState>, after: map<L.Point, set<Storage>>,
      run: seq<Visit>, i: nat, k: nat) returns (mu: Naming)
    requires Converged(blocks, entry, ins, after) && IsRun(blocks, entry, run) && i < |run|
    requires SilentUntil(blocks, ins, after, run, i, k)
    ensures Tracks(blocks, ins, run[i], mu)
  {
    var p := (j: nat) => Tracked(blocks, ins, run, j);
    RunStart(blocks, entry, ins, after, run);
    assert p(0);
    forall j: nat | j < i && p(j) ensures p(j + 1) {
      SilentUntilBlock(blocks, ins, after, run, i, k, j);
      RunNext(blocks, entry, ins, after, run, j);
    }
    PassedOn(p, i);
    assert p(i);
    mu :| Tracks(blocks, ins, run[i], mu);
  }

  /** As long as a run has met no report, the state before its next element describes its machine. */
  lemma PointSound(blocks: seq<Block>, entry: nat, ins: map<nat, FlowState>, after: map<L.Point, set<Storage>>,
      run: seq<Visit>, i: nat, k: nat) returns (mu: Naming)
    requires Converged(blocks, entry, ins, after) && IsRun(blocks, entry, run) && i < |run| && k < |run[i].states|
    requires SilentUntil(blocks, ins, after, run, i, k)
    ensures VisitOk(blocks, run[i]) && run[i].block in ins
    ensures Describes(blocks, StateBefore(blocks[run[i].block].cmds, ins[run[i].block],
      LiveOf(blocks, after, run[i].block), k), run[i].states[k], mu)
  {
    var mu0 := RunSound(blocks, entry, ins, after, run, i, k);
    var b := run[i].block;
    VisitIsCalm(blocks, ins, after, run[i], k);
    mu := VisitSound(blocks, run[i], ins[b], LiveOf(blocks, after, b), mu0, k);
  }

  // ---------------------------------------------------------------------------------------------
  // What reports are worth
  // ---------------------------------------------------------------------------------------------

  lemma ElementIsSafe(c: Cmd, st: FlowState, live: LiveAfter, m: Machine, mu: Naming)
    requires Represents(st, m, mu) && Wf(st) && Step(c, st, live).reports == {}
    ensures !Violates(c, m)
  {
    if c.Free? {
      var m' := if ValueOf(m, c.x).Obj? then m.(alive := m.alive - {ValueOf(m, c.x).n}) else m;
      FreeSound(st, c.x, c.at, live, m, m', mu);
    } else if c.Deref? {
      DerefSound(st, c.x, c.at, m, mu);
    }
  }

  /** No run violates at an element at which the reporting pass is silent, if it has met no report
      before. So the first violation of any run is preceded or accompanied by a report. */
  lemma FirstViolationIsReported(blocks: seq<Block>, entry: nat, ins: map<nat, FlowState>,
      after: map<L.Point, set<Storage>>, run: seq<Visit>, i: nat, k: nat)
    requires Converged(blocks, entry, ins, after) && IsRun(blocks, entry, run) && i < |run|
    requires k < |run[i].states| && run[i].block < |blocks| && k < |blocks[run[i].block].cmds|
    requires SilentUntil(blocks, ins, after, run, i, k + 1)
    ensures !Violates(blocks[run[i].block].cmds[k], run[i].states[k])
  {
    var mu := PointSound(blocks, entry, ins, after, run, i, k);
    var b := run[i].block;
    var live := LiveOf(blocks, after, b);
    ReachableRun(ins[b], blocks, b, k, live[..k]);
    ReachableIsSane(blocks, StateBefore(blocks[b].cmds, ins[b], live, k));
    assert SilentAt(blocks, ins, after, b, k);
    ElementIsSafe(blocks[b].cmds[k], StateBefore(blocks[b].cmds, ins[b], live, k), live[k], run[i].states[k], mu);
  }

  /** At every point of a run that has met no report, every pending guard is true: its variable holds
      the result of the latest producing call for its slot, the slot is as that call left it, and it
      holds no object if the result says failure. */
  lemma GuardsTellTheTruth(blocks: seq<Block>, entry: nat, ins: map<nat, FlowState>, after: map<L.Point, set<Storage>>,
      run: seq<Visit>, i: nat, k: nat, v: Storage)
    requires Converged(blocks, entry, ins, after) && IsRun(blocks, entry, run) && i < |run| && k < |run[i].states|
    requires SilentUntil(blocks, ins, after, run, i, k)
    ensures run[i].block in ins && VisitOk(blocks, run[i])
    ensures var st := StateBefore(blocks[run[i].block].cmds, ins[run[i].block], LiveOf(blocks, after, run[i].block), k);
      v in st.pending ==> Testifies(run[i].states[k], v, st.pending[v])
  {
    var mu := PointSound(blocks, entry, ins, after, run, i, k);
    var b := run[i].block;
    assert GuardTrue(blocks, StateBefore(blocks[b].cmds, ins[b], LiveOf(blocks, after, b), k), run[i].states[k], v);
  }
}
