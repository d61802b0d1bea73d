/** What joined states stand for: a join is the least state that covers both sides. */
module Meanings {
  import opened Flow

  // ---------------------------------------------------------------------------------------------
  // Object states
  // ---------------------------------------------------------------------------------------------

  /** What can be the case on one path: there is an object and it is alive, or dead; there is none; nothing
      was ever recorded. */
  datatype Fate = Alive | Destroyed | NoObject | NoRecord

  predicate MayBe(s: ObjectState, f: Fate) {
    match s
    case Untracked => f.NoRecord?
    case NullObject => f.NoObject?
    case Owned => f.Alive? || f.NoObject?
    case Dead => f.Destroyed?
    case MaybeDead => !f.NoRecord?
    case UnknownState => true
  }

  ghost predicate CoversState(t: ObjectState, s: ObjectState) { forall f :: MayBe(s, f) ==> MayBe(t, f) }

  lemma JoinStateIsLeast(a: ObjectState, b: ObjectState, t: ObjectState)
    ensures CoversState(JoinState(a, b), a) && CoversState(JoinState(a, b), b)
    ensures CoversState(t, a) && CoversState(t, b) ==> CoversState(t, JoinState(a, b))
  {
    assert MayBe(a, Alive) ==> CoversState(t, a) ==> MayBe(t, Alive);
    assert MayBe(b, Alive) ==> CoversState(t, b) ==> MayBe(t, Alive);
    assert MayBe(a, Destroyed) ==> CoversState(t, a) ==> MayBe(t, Destroyed);
    assert MayBe(b, Destroyed) ==> CoversState(t, b) ==> MayBe(t, Destroyed);
    assert MayBe(a, NoObject) ==> CoversState(t, a) ==> MayBe(t, NoObject);
    assert MayBe(b, NoObject) ==> CoversState(t, b) ==> MayBe(t, NoObject);
    assert MayBe(a, NoRecord) ==> CoversState(t, a) ==> MayBe(t, NoRecord);
    assert MayBe(b, NoRecord) ==> CoversState(t, b) ==> MayBe(t, NoRecord);
  }

  // ---------------------------------------------------------------------------------------------
  // Bindings
  // ---------------------------------------------------------------------------------------------

  datatype Role = AsOwner | AsAlias | AsEmptied

  /** What a variable can be on one path: null, or a name of an object in some role. */
  datatype Place = IsNull | Refers(id: ObjectId, role: Role)

  predicate CanBe(b: Binding, p: Place) {
    if b.id == UNKNOWN_ID then true
    else if b.id == NULL_ID then p.IsNull?
    else match b.relation
      case Owner => p == Refers(b.id, AsOwner)
      case Alias => p == Refers(b.id, AsAlias)
      case Moved => p == Refers(b.id, AsEmptied)
      case UnknownRelation => p == Refers(b.id, AsOwner) || p == Refers(b.id, AsAlias)
      case MaybeMoved => p.Refers? && p.id == b.id
      case MaybeNull => p.IsNull? || p.id == b.id
      case Null => false
  }

  ghost predicate CoversBinding(t: Binding, s: Binding) {
    (forall p :: CanBe(s, p) ==> CanBe(t, p)) && (s.producedMaybe ==> t.producedMaybe)
  }

  lemma JoinBindingCovers(a: Binding, b: Binding)
    requires WfBinding(a) && WfBinding(b)
    ensures CoversBinding(JoinBinding(a, b), a) && CoversBinding(JoinBinding(a, b), b)
  {
  }

  /** Which places tell one binding from another. */
  lemma Samples(t: Binding, s: Binding, other: ObjectId)
    requires CoversBinding(t, s)
    ensures CanBe(s, IsNull) ==> CanBe(t, IsNull)
    ensures forall role :: CanBe(s, Refers(s.id, role)) ==> CanBe(t, Refers(s.id, role))
    ensures forall role :: CanBe(s, Refers(other, role)) ==> CanBe(t, Refers(other, role))
  {
  }

  /** Covering everything means being unresolved. */
  lemma UnresolvedCoversOnly(t: Binding, s: Binding)
    requires WfBinding(t) && s.id == UNKNOWN_ID && CoversBinding(t, s)
    ensures t.id == UNKNOWN_ID
  {
    assert CanBe(s, Refers(t.id + 1, AsOwner)) && CanBe(s, IsNull);
  }

  lemma JoinBindingIsLeast(a: Binding, b: Binding, t: Binding)
    requires WfBinding(a) && WfBinding(b) && WfBinding(t)
    requires CoversBinding(t, a) && CoversBinding(t, b)
    ensures CoversBinding(t, JoinBinding(a, b))
  {
    if a.id == UNKNOWN_ID {
      UnresolvedCoversOnly(t, a);
    } else if b.id == UNKNOWN_ID {
      UnresolvedCoversOnly(t, b);
    } else {
      Samples(t, a, b.id);
      Samples(t, b, a.id);
      assert CanBe(a, IsNull) || CanBe(a, Refers(a.id, AsOwner)) || CanBe(a, Refers(a.id, AsAlias)) ||
        CanBe(a, Refers(a.id, AsEmptied));
      assert CanBe(b, IsNull) || CanBe(b, Refers(b.id, AsOwner)) || CanBe(b, Refers(b.id, AsAlias)) ||
        CanBe(b, Refers(b.id, AsEmptied));
    }
  }

  // ---------------------------------------------------------------------------------------------
  // Borrows
  // ---------------------------------------------------------------------------------------------

  datatype Lease = Valid | Expired | Unclear

  predicate LeaseMayBe(s: BorrowState, l: Lease) {
    match s
    case Live => l.Valid?
    case Invalid => l.Expired?
    case MaybeInvalid => !l.Unclear?
    case UnknownBorrow => true
  }

  ghost predicate CoversBorrow(t: BorrowState, s: BorrowState) { forall l :: LeaseMayBe(s, l) ==> LeaseMayBe(t, l) }

  lemma JoinBorrowIsLeast(a: BorrowState, b: BorrowState, t: BorrowState)
    ensures CoversBorrow(JoinBorrowState(a, b), a) && CoversBorrow(JoinBorrowState(a, b), b)
    ensures CoversBorrow(t, a) && CoversBorrow(t, b) ==> CoversBorrow(t, JoinBorrowState(a, b))
  {
    assert LeaseMayBe(a, Valid) || LeaseMayBe(a, Expired) || LeaseMayBe(a, Unclear);
    assert LeaseMayBe(b, Valid) || LeaseMayBe(b, Expired) || LeaseMayBe(b, Unclear);
  }

  // ---------------------------------------------------------------------------------------------
  // Whole states
  // ---------------------------------------------------------------------------------------------

  predicate CoversOrigin(t: ObjectInfo, s: ObjectInfo) {
    && (t.origin == UnknownOrigin || t.origin == s.origin)
    && (t.capability == UnknownCapability || t.capability == s.capability)
  }

  /** What is not mentioned may be anything. */
  ghost predicate CoversStorage(t: FlowState, s: FlowState, v: Storage) {
    && (v in s.storages ==> v in t.storages)
    && (v in t.storages ==> CoversBinding(t.storages[v], BindingAt(s, v)))
  }

  ghost predicate CoversObject(t: FlowState, s: FlowState, id: ObjectId) {
    id in s.objects ==>
      && id in t.objects && CoversState(t.objects[id].state, s.objects[id].state)
      && CoversOrigin(t.objects[id], s.objects[id])
  }

  ghost predicate CoversLoan(t: FlowState, s: FlowState, v: Storage) {
    v in s.borrows ==> v in t.borrows && CoversBorrow(t.borrows[v].state, s.borrows[v].state)
  }

  predicate CoversCounter(t: FlowState, s: FlowState, site: Site) {
    && (site in s.generations ==> site in t.generations && s.generations[site] <= t.generations[site])
    && (site in s.widened ==> site in t.widened)
  }

  /** A guard is a promise, so fewer of them cover more. */
  predicate CoversGuard(t: FlowState, s: FlowState, v: Storage) {
    v in t.pending ==> v in s.pending && s.pending[v] == t.pending[v]
  }

  ghost predicate Covers(t: FlowState, s: FlowState) {
    && (forall v :: CoversStorage(t, s, v)) && (forall id :: CoversObject(t, s, id)) &&
      (forall v :: CoversLoan(t, s, v))
    && (forall site :: CoversCounter(t, s, site)) && (forall v :: CoversGuard(t, s, v))
  }

  lemma UnmentionedIsWf(s: FlowState, v: Storage)
    requires Wf(s)
    ensures WfBinding(BindingAt(s, v))
  {
  }

  lemma JoinCovers(a: FlowState, b: FlowState)
    requires Wf(a) && Wf(b)
    ensures Covers(JoinFlow(a, b), a) && Covers(JoinFlow(a, b), b)
  {
    var j := JoinFlow(a, b);
    forall v ensures CoversStorage(j, a, v) && CoversStorage(j, b, v) {
      UnmentionedIsWf(a, v);
      UnmentionedIsWf(b, v);
      JoinBindingCovers(BindingAt(a, v), BindingAt(b, v));
    }
    forall id ensures CoversObject(j, a, id) && CoversObject(j, b, id) {
      if id in a.objects && id in b.objects {
        JoinStateIsLeast(a.objects[id].state, b.objects[id].state, UnknownState);
      }
    }
    forall v ensures CoversLoan(j, a, v) && CoversLoan(j, b, v) {
      if v in a.borrows && v in b.borrows { JoinBorrowIsLeast(a.borrows[v].state, b.borrows[v].state, UnknownBorrow); }
    }
  }

  /** The join of two states covers both, and every state that covers both covers it. */
  lemma JoinIsLeast(a: FlowState, b: FlowState, t: FlowState)
    requires Wf(a) && Wf(b) && Wf(t)
    ensures Covers(t, a) && Covers(t, b) <==> Covers(t, JoinFlow(a, b))
  {
    var j := JoinFlow(a, b);
    if Covers(t, a) && Covers(t, b) {
      forall v ensures CoversStorage(t, j, v) {
        assert CoversStorage(t, a, v) && CoversStorage(t, b, v);
        UnmentionedIsWf(a, v);
        UnmentionedIsWf(b, v);
        if v in t.storages {
          JoinBindingIsLeast(BindingAt(a, v), BindingAt(b, v), t.storages[v]);
          JoinedAt(a, b, v);
        }
      }
      forall id ensures CoversObject(t, j, id) {
        assert CoversObject(t, a, id) && CoversObject(t, b, id);
        if id in a.objects && id in b.objects {
          JoinStateIsLeast(a.objects[id].state, b.objects[id].state, t.objects[id].state);
        }
      }
      forall v ensures CoversLoan(t, j, v) && CoversGuard(t, j, v) {
        assert CoversLoan(t, a, v) && CoversLoan(t, b, v) && CoversGuard(t, a, v) && CoversGuard(t, b, v);
        if v in a.borrows && v in b.borrows {
          JoinBorrowIsLeast(a.borrows[v].state, b.borrows[v].state, t.borrows[v].state);
        }
      }
      forall site ensures CoversCounter(t, j, site) {
        assert CoversCounter(t, a, site) && CoversCounter(t, b, site);
      }
    } else if Covers(t, j) {
      JoinCovers(a, b);
      CoversChains(t, j, a);
      CoversChains(t, j, b);
    }
  }

  lemma JoinedAt(a: FlowState, b: FlowState, v: Storage)
    ensures BindingAt(JoinFlow(a, b), v) == JoinBinding(BindingAt(a, v), BindingAt(b, v))
  {
  }

  lemma CoversChains(t: FlowState, s: FlowState, r: FlowState)
    requires Covers(t, s) && Covers(s, r)
    ensures Covers(t, r)
  {
    forall v ensures CoversStorage(t, r, v) && CoversLoan(t, r, v) && CoversGuard(t, r, v) {
      assert CoversStorage(t, s, v) && CoversStorage(s, r, v) && CoversLoan(t, s, v) && CoversLoan(s, r, v);
      assert CoversGuard(t, s, v) && CoversGuard(s, r, v);
    }
    forall id ensures CoversObject(t, r, id) { assert CoversObject(t, s, id) && CoversObject(s, r, id); }
    forall site ensures CoversCounter(t, r, site) { assert CoversCounter(t, s, site) && CoversCounter(s, r, site); }
  }

  /** A borrow whose two sides disagree about its object keeps the left one's. */
  lemma LeftLoanWins(a: FlowState, b: FlowState, v: Storage)
    requires v in a.borrows || v in b.borrows
    ensures var j, side := JoinFlow(a, b).borrows, if v in a.borrows then a.borrows else b.borrows;
      v in j && j[v].parent == side[v].parent && j[v].kind == side[v].kind
  {
  }
}
