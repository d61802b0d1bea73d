/** The per-function analyser: handlers that update a state in place, the worklist that runs them
    until nothing changes, and the pass that reports from the converged states. */
module Analyzer {
  import opened Flow
  import opened Height
  import opened Options
  import opened Transfer
  import opened Program
  import opened W = Worklist
  import L = Liveness

  // ---------------------------------------------------------------------------------------------
  // Joining by loops over the maps
  // ---------------------------------------------------------------------------------------------

  lemma SameMap<K, V>(m: map<K, V>, n: map<K, V>)
    requires forall k :: k in m <==> k in n
    requires forall k :: k in m && k in n ==> m[k] == n[k]
    ensures m == n
  {
  }

  /** The right side's keys outside `rest` have been merged into the left map. */
  ghost predicate Merged<K(!new), V(!new)>(r: map<K, V>, a: map<K, V>, b: map<K, V>, joined: map<K, V>, rest: set<K>) {
    && rest <= b.Keys && joined.Keys == a.Keys + b.Keys && (forall k :: k in a && k !in b ==> joined[k] == a[k])
    && (forall k :: k in r <==> k in a || (k in b && k !in rest))
    && (forall k :: k in r ==> r[k] == if k in rest then a[k] else joined[k])
  }

  lemma MergedNext<K(!new), V(!new)>(r: map<K, V>, a: map<K, V>, b: map<K, V>, joined: map<K, V>, rest: set<K>, k: K)
    requires Merged(r, a, b, joined, rest) && k in rest
    ensures Merged(r[k := joined[k]], a, b, joined, rest - {k})
    ensures k in r ==> k in a && r[k] == a[k]
  {
  }

  lemma MergedAll<K(!new), V(!new)>(r: map<K, V>, a: map<K, V>, b: map<K, V>, joined: map<K, V>)
    requires Merged(r, a, b, joined, {})
    ensures r == joined
  {
    SameMap(r, joined);
  }

  method JoinObjectMaps(a: map<ObjectId, ObjectInfo>, b: map<ObjectId, ObjectInfo>)
      returns (r: map<ObjectId, ObjectInfo>)
    ensures r == JoinObjects(a, b)
  {
    ghost var joined := JoinObjects(a, b);
    r := a;
    var rest := b.Keys;
    while rest != {}
      invariant Merged(r, a, b, joined, rest)
      decreases |rest|
    {
      var o :| o in rest;
      MergedNext(r, a, b, joined, rest, o);
      if o !in r {
        r := r[o := b[o]];
      } else {
        r := r[o := JoinObject(r[o], b[o])];
      }
      rest := rest - {o};
    }
    MergedAll(r, a, b, joined);
  }

  method JoinBorrowMaps(a: map<Storage, BorrowInfo>, b: map<Storage, BorrowInfo>) returns (r: map<Storage, BorrowInfo>)
    ensures r == JoinBorrows(a, b)
  {
    ghost var joined := JoinBorrows(a, b);
    r := a;
    var rest := b.Keys;
    while rest != {}
      invariant Merged(r, a, b, joined, rest)
      decreases |rest|
    {
      var v :| v in rest;
      MergedNext(r, a, b, joined, rest, v);
      if v !in r {
        r := r[v := b[v]];
      } else {
        r := r[v := JoinBorrow(r[v], b[v])];
      }
      rest := rest - {v};
    }
    MergedAll(r, a, b, joined);
  }

  method JoinGenerationMaps(a: map<Site, nat>, b: map<Site, nat>) returns (r: map<Site, nat>)
    ensures r == JoinGenerations(a, b)
  {
    ghost var joined := JoinGenerations(a, b);
    r := a;
    var rest := b.Keys;
    while rest != {}
      invariant Merged(r, a, b, joined, rest)
      decreases |rest|
    {
      var s :| s in rest;
      MergedNext(r, a, b, joined, rest, s);
      var generation := if s in r then r[s] else 0;
      r := r[s := Max(generation, b[s])];
      rest := rest - {s};
    }
    MergedAll(r, a, b, joined);
  }

  /** Every left storage meets what the right side says, or nothing. */
  method JoinLeftStorages(a: FlowState, b: FlowState) returns (r: map<Storage, Binding>)
    ensures forall v :: v in r <==> v in a.storages
    ensures forall v :: v in r ==> r[v] == JoinBinding(BindingAt(a, v), BindingAt(b, v))
  {
    r := map[];
    var rest := a.storages.Keys;
    while rest != {}
      invariant rest <= a.storages.Keys
      invariant forall v :: v in r <==> v in a.storages && v !in rest
      invariant forall v :: v in r ==> r[v] == JoinBinding(BindingAt(a, v), BindingAt(b, v))
      decreases |rest|
    {
      var v :| v in rest;
      if v in b.storages {
        r := r[v := JoinBinding(a.storages[v], b.storages[v])];
      } else {
        r := r[v := JoinBinding(a.storages[v], NO_BINDING)];
      }
      rest := rest - {v};
    }
  }

  /** Then the storages that only the right side mentions. */
  method JoinStorageMaps(a: FlowState, b: FlowState) returns (r: map<Storage, Binding>)
    ensures r == JoinStorages(a, b)
  {
    r := JoinLeftStorages(a, b);
    var rest := b.storages.Keys;
    while rest != {}
      invariant rest <= b.storages.Keys
      invariant forall v :: v in r <==> v in a.storages || (v in b.storages && v !in rest)
      invariant forall v :: v in r ==> r[v] == JoinBinding(BindingAt(a, v), BindingAt(b, v))
      decreases |rest|
    {
      var v :| v in rest;
      if v !in a.storages {
        r := r[v := JoinBinding(NO_BINDING, b.storages[v])];
      }
      rest := rest - {v};
    }
    SameMap(r, JoinStorages(a, b));
  }

  method JoinPendingMaps(a: map<Storage, PendingGuard>, b: map<Storage, PendingGuard>)
      returns (r: map<Storage, PendingGuard>)
    ensures r == JoinPending(a, b)
  {
    r := map[];
    var rest := a.Keys;
    while rest != {}
      invariant rest <= a.Keys
      invariant forall v :: v in r <==> v in a && v !in rest && v in b && a[v] == b[v]
      invariant forall v :: v in r ==> r[v] == a[v]
      decreases |rest|
    {
      var v :| v in rest;
      if v in b && b[v] == a[v] {
        r := r[v := a[v]];
      }
      rest := rest - {v};
    }
  }

  method JoinStates(a: FlowState, b: FlowState) returns (r: FlowState)
    ensures r == JoinFlow(a, b)
  {
    var generations := JoinGenerationMaps(a.generations, b.generations);
    var objects := JoinObjectMaps(a.objects, b.objects);
    var borrows := JoinBorrowMaps(a.borrows, b.borrows);
    var storages := JoinStorageMaps(a, b);
    var pending := JoinPendingMaps(a.pending, b.pending);
    r := FlowState(storages, objects, borrows, generations, a.widened + b.widened, pending);
  }

  lemma CreatesNothing(c: Cmd, st: FlowState, live: LiveAfter)
    requires c.Malloc? || c.SetNull? || c.Copy? || c.Move? || c.StoreScalar?
    ensures Step(c, st, live) == Step(c, st, Unmeasured) && Step(c, st, live).created == {}
  {
  }

  // ---------------------------------------------------------------------------------------------
  // The analyser
  // ---------------------------------------------------------------------------------------------

  class FlowAnalyzer {
    const blocks: seq<Block>
    const entry: nat
    var emitting: bool
    var reports: set<Report>
    var knownBorrows: set<Storage>
    var liveAfter: map<L.Point, set<Storage>>

    constructor (blocks: seq<Block>, entry: nat)
      ensures this.blocks == blocks && this.entry == entry
      ensures reports == {} && knownBorrows == {} && liveAfter == map[]
    {
      this.blocks, this.entry := blocks, entry;
      emitting := true;
      reports, knownBorrows, liveAfter := {}, {}, map[];
    }

    // ---- reporting ----------------------------------------------------------------------------

    /** What a handler's reports add to the collected ones: nothing until the emission pass. */
    function Heard(rs: set<Report>): set<Report>
      reads this`emitting
    {
      if emitting then rs else {}
    }

    method Emit(r: Report)
      modifies this`reports
      ensures reports == old(reports) + Heard({r})
    {
      if emitting {
        reports := reports + {r};
      }
    }

    function LivenessAt(point: L.Point): LiveAfter
      reads this`liveAfter
    {
      if point in liveAfter then Measured(liveAfter[point]) else Unmeasured
    }

    // ---- allocation ---------------------------------------------------------------------------

    method HasRetainedGenerationReference(site: Site, dest: Storage, st: FlowState) returns (r: bool)
      ensures r == Retained(site, dest, st)
    {
      var rest := st.storages.Keys;
      while rest != {}
        invariant rest <= st.storages.Keys
        invariant forall v :: v in st.storages.Keys - rest && v != dest ==> !BelongsToSite(site, st.storages[v].id)
        decreases |rest|
      {
        var v :| v in rest;
        if v != dest && BelongsToSite(site, st.storages[v].id) {
          return true;
        }
        rest := rest - {v};
      }
      rest := st.borrows.Keys;
      while rest != {}
        invariant rest <= st.borrows.Keys
        invariant forall v :: v in st.borrows.Keys - rest ==> !BelongsToSite(site, st.borrows[v].parent)
        decreases |rest|
      {
        var v :| v in rest;
        if BelongsToSite(site, st.borrows[v].parent) {
          return true;
        }
        rest := rest - {v};
      }
      return false;
    }

    method BindAllocationInPlace(st0: FlowState, x: Storage, site: Site, at: nat) returns (st: FlowState)
      modifies this`reports
      ensures st == BindAllocation(st0, x, site, at).state
      ensures reports == old(reports) + Heard(BindAllocation(st0, x, site, at).reports)
    {
      st := st0;
      var generation := Generation(st, site);
      st := st.(generations := st.generations[site := generation]);
      if site in st.widened {
        st := BindUnresolved(st, x, at);
        Emit(HeapWidening);
        return;
      }
      var retained := HasRetainedGenerationReference(site, x, st);
      if retained {
        if generation >= 1 {
          st := st.(widened := st.widened + {site});
          st := BindUnresolved(st, x, at);
          Emit(HeapWidening);
          return;
        }
        generation := 1;
        st := st.(generations := st.generations[site := generation]);
      }
      var id := ObjectIdFor(site, generation);
      if id == UNKNOWN_ID {
        st := BindUnresolved(st, x, at);
        Emit(IdExhausted);
        return;
      }
      st := Bind(st, x, id, Owner, at);
      st := st.(objects := st.objects[id := ObjectAt(st, id).(state := Owned, allocation := At(at))]);
    }

    method HandleMalloc(st0: FlowState, x: Storage, site: Site, decl: bool, at: nat) returns (st: FlowState)
      modifies this`reports
      ensures st == MallocStep(st0, x, site, decl, at).state
      ensures reports == old(reports) + Heard(MallocStep(st0, x, site, decl, at).reports)
    {
      if !decl && Overwrites(st0, x) {
        Emit(OwnerOverwrite);
      }
      st := BindAllocationInPlace(st0, x, site, at);
    }

    // ---- copies and moves ---------------------------------------------------------------------

    method HandleCopy(st0: FlowState, x: Storage, y: Storage, at: nat) returns (st: FlowState)
      modifies this`reports
      ensures st == CopyStep(st0, x, y, at).state
      ensures reports == old(reports) + Heard(CopyStep(st0, x, y, at).reports)
    {
      st := st0;
      if y !in st.storages || Unresolved(st.storages[y]) {
        Emit(AmbiguousAliasTarget);
      } else if st.storages[y].id == NULL_ID {
        st := Bind(st, x, NULL_ID, Null, at);
      } else {
        st := Bind(st, x, st.storages[y].id, CopiedRelation(st.storages[y].relation), at);
      }
    }

    /** Returns whether the ownership went over; an ignored move changes and reports nothing. */
    method MoveBinding(st0: FlowState, x: Storage, y: Storage, at: nat) returns (st: FlowState, moved: bool)
      modifies this`reports
      ensures st == MoveStep(st0, x, y, at).state
      ensures reports == old(reports) + Heard(MoveStep(st0, x, y, at).reports)
      ensures !moved ==> st == st0
    {
      st, moved := st0, false;
      if y !in st.storages || st.storages[y].id == UNKNOWN_ID {
        return;
      }
      if y in st.borrows {
        Emit(MoveBorrowedStorage);
        return;
      }
      var b := st.storages[y];
      if KnownNull(b) {
        st, moved := Bind(st, x, NULL_ID, Null, at), true;
        return;
      }
      if b.id !in st.objects {
        return;
      }
      var o := st.objects[b.id];
      if o.origin == Parameter && o.capability != MayTakeOwnership {
        return;
      }
      if MovedRelation(b.relation) {
        Emit(DoubleMove);
        return;
      }
      if o.state == Dead || o.state == MaybeDead {
        Emit(MoveFromDead);
        return;
      }
      if b.relation != Owner {
        Emit(ConflictingOwner);
        return;
      }
      if x == y || Overwrites(st, x) {
        Emit(ConflictingOwner);
        return;
      }
      st := st.(storages := st.storages[y := b.(relation := Moved, where := At(at))]);
      st, moved := Bind(st, x, b.id, Owner, at), true;
    }

    // ---- borrows ------------------------------------------------------------------------------

    method FindConflict(st: FlowState, x: Storage, parent: ObjectId, kind: BorrowKind) returns (r: bool)
      ensures r <==> exists v :: v in st.borrows && Conflicts(st, x, parent, kind, v)
    {
      var rest := st.borrows.Keys;
      while rest != {}
        invariant rest <= st.borrows.Keys
        invariant forall v :: v in st.borrows && v !in rest ==> !Conflicts(st, x, parent, kind, v)
        decreases |rest|
      {
        var v :| v in rest;
        if Conflicts(st, x, parent, kind, v) {
          return true;
        }
        rest := rest - {v};
      }
      return false;
    }

    method CreateBorrowInPlace(st0: FlowState, x: Storage, parent: ObjectId, kind: BorrowKind, at: nat)
        returns (st: FlowState, created: bool)
      modifies this`reports, this`knownBorrows
      ensures st == CreateBorrow(st0, x, parent, kind, at).state
      ensures reports == old(reports) + Heard(CreateBorrow(st0, x, parent, kind, at).reports)
      ensures knownBorrows == old(knownBorrows) + CreateBorrow(st0, x, parent, kind, at).created
    {
      st, created := st0, false;
      if parent == UNKNOWN_ID || parent !in st.objects || DeadOrMaybeDead(st, parent) {
        Emit(BorrowUnknownParent);
        return;
      }
      var conflict := FindConflict(st, x, parent, kind);
      if conflict {
        Emit(NewBorrowConflict);
        return;
      }
      st := st.(borrows := st.borrows[x := BorrowInfo(parent, kind, Live, At(at), NoLocation)]);
      knownBorrows := knownBorrows + {x};
      created := true;
    }

    method HandleBorrow(st0: FlowState, x: Storage, y: Storage, kind: BorrowKind, at: nat) returns (st: FlowState)
      modifies this`reports, this`knownBorrows
      ensures st == BorrowStep(st0, x, y, kind, at).state
      ensures reports == old(reports) + Heard(BorrowStep(st0, x, y, kind, at).reports)
      ensures knownBorrows == old(knownBorrows) + BorrowStep(st0, x, y, kind, at).created
    {
      st := st0;
      if y !in st.storages || st.storages[y].id == UNKNOWN_ID || st.storages[y].id == NULL_ID {
        Emit(BorrowUnknownParent);
        return;
      }
      var parent := st.storages[y].id;
      st := Bind(st, x, parent, Alias, at);
      var created;
      st, created := CreateBorrowInPlace(st, x, parent, kind, at);
    }

    method InvalidateBorrowMap(m: map<Storage, BorrowInfo>, id: ObjectId, at: nat) returns (r: map<Storage, BorrowInfo>)
      ensures r == InvalidatedBorrows(m, id, at)
    {
      r := m;
      var rest := m.Keys;
      while rest != {}
        invariant rest <= m.Keys
        invariant forall v :: v in r <==> v in m
        invariant forall v :: v in m ==>
          r[v] == if v in rest then m[v] else InvalidatedBorrows(m, id, at)[v]
        decreases |rest|
      {
        var v :| v in rest;
        if r[v].parent == id && r[v].state == Live {
          r := r[v := r[v].(state := Invalid, invalidated := At(at))];
        }
        rest := rest - {v};
      }
      SameMap(r, InvalidatedBorrows(m, id, at));
    }

    method InvalidateBorrowsInPlace(st0: FlowState, id: ObjectId, at: nat) returns (st: FlowState)
      ensures st == InvalidateBorrows(st0, id, at)
    {
      var borrows := InvalidateBorrowMap(st0.borrows, id, at);
      st := st0.(borrows := borrows);
    }

    method ExpireBorrowUses(st0: FlowState, live: LiveAfter) returns (st: FlowState)
      ensures st == ExpireBorrows(st0, live)
    {
      st := st0;
      var rest := st0.borrows.Keys;
      while rest != {}
        invariant rest <= st0.borrows.Keys
        invariant st == st0.(borrows := st.borrows)
        invariant forall v :: v in st.borrows <==> v in st0.borrows && (v in rest || LiveIn(live, v))
        invariant forall v :: v in st.borrows ==> st.borrows[v] == st0.borrows[v]
        decreases |rest|
      {
        var v :| v in rest;
        if !LiveIn(live, v) {
          st := st.(borrows := st.borrows - {v});
        }
        rest := rest - {v};
      }
    }

    // ---- access and destruction ---------------------------------------------------------------

    method ReportMutableBorrows(st: FlowState, id: ObjectId)
      modifies this`reports
      ensures reports == old(reports) + Heard(set v | v in MutableBorrows(st, id) :: BorrowConflict(v))
    {
      var rest := st.borrows.Keys;
      while rest != {}
        invariant rest <= st.borrows.Keys
        invariant reports == old(reports) +
          Heard(set v | v in MutableBorrows(st, id) && v !in rest :: BorrowConflict(v))
        decreases |rest|
      {
        var v :| v in rest;
        if st.borrows[v].parent == id && st.borrows[v].kind == Mutable && st.borrows[v].state == Live {
          Emit(BorrowConflict(v));
        }
        rest := rest - {v};
      }
      assert (set v | v in MutableBorrows(st, id) && v !in rest :: BorrowConflict(v))
          == (set v | v in MutableBorrows(st, id) :: BorrowConflict(v));
    }

    method CheckMutableOwnerAccess(st: FlowState, x: Storage)
      modifies this`reports
      ensures reports == old(reports) + Heard(OwnerAccessReports(st, x))
    {
      if x in st.borrows || x !in st.storages || st.storages[x].relation != Owner {
        return;
      }
      ReportMutableBorrows(st, st.storages[x].id);
    }

    method CheckAccess(st: FlowState, x: Storage)
      modifies this`reports
      ensures reports == old(reports) + Heard(AccessReports(st, x))
    {
      if x in st.borrows {
        var borrow := st.borrows[x];
        if borrow.state == Invalid || borrow.state == MaybeInvalid || DeadOrMaybeDead(st, borrow.parent) {
          Emit(BorrowUsedAfterDeath);
          return;
        }
        if borrow.state == UnknownBorrow {
          Emit(UnknownBorrowState);
          return;
        }
      }
      CheckMutableOwnerAccess(st, x);
      if x !in st.storages {
        return;
      }
      var b := st.storages[x];
      if b.producedMaybe {
        Emit(UnrefinedOutOwnerUse);
        return;
      }
      if Unresolved(b) {
        Emit(AmbiguousAliasTarget);
        return;
      }
      if KnownNull(b) {
        return;
      }
      var o := ObjectOf(st, b);
      if o == None {
        Emit(AccessUnknownState);
        return;
      }
      if MovedRelation(b.relation) {
        Emit(UseAfterMove);
        return;
      }
      if o.value.state == Dead || o.value.state == MaybeDead {
        Emit(UseAfterDestroy);
      } else if o.value.state == UnknownState {
        Emit(AccessUnknownState);
      }
    }

    method ReportLiveBorrows(st: FlowState, id: ObjectId, live: LiveAfter)
      modifies this`reports
      ensures reports == old(reports) + Heard(set v | v in LiveBorrows(st, id, live) :: DestroyedWhileBorrowed(v))
    {
      var rest := st.borrows.Keys;
      while rest != {}
        invariant rest <= st.borrows.Keys
        invariant reports == old(reports) +
          Heard(set v | v in LiveBorrows(st, id, live) && v !in rest :: DestroyedWhileBorrowed(v))
        decreases |rest|
      {
        var v :| v in rest;
        if st.borrows[v].parent == id && st.borrows[v].state == Live && LiveIn(live, v) {
          Emit(DestroyedWhileBorrowed(v));
        }
        rest := rest - {v};
      }
      assert (set v | v in LiveBorrows(st, id, live) && v !in rest :: DestroyedWhileBorrowed(v))
          == (set v | v in LiveBorrows(st, id, live) :: DestroyedWhileBorrowed(v));
    }

    method HandleFree(st0: FlowState, x: Storage, at: nat, live: LiveAfter) returns (st: FlowState)
      modifies this`reports
      ensures st == FreeStep(st0, x, at, live).state
      ensures reports == old(reports) + Heard(FreeStep(st0, x, at, live).reports)
    {
      st := st0;
      if x !in st.storages {
        Emit(FreeUntracked);
        return;
      }
      var b := st.storages[x];
      if b.producedMaybe {
        Emit(UnrefinedOutOwnerUse);
        return;
      }
      if KnownNull(b) {
        return;
      }
      if b.id == UNKNOWN_ID || b.id == NULL_ID {
        Emit(AmbiguousAliasTarget);
        return;
      }
      if b.id !in st.objects {
        Emit(FreeUnknownState);
        return;
      }
      var o := st.objects[b.id];
      if o.origin == Parameter && o.capability == MayBorrow {
        Emit(DestroyBorrowedParameter);
        return;
      }
      ReportLiveBorrows(st, b.id, live);
      if MovedRelation(b.relation) {
        Emit(DestroyFromNonOwner);
        return;
      }
      if b.relation == MaybeNull {
        if o.state == Owned {
          st := Destroyed(st, x, b.id, MaybeDead, at);
          return;
        }
        if o.state == Dead || o.state == MaybeDead {
          Emit(DoubleDestroy);
          return;
        }
      }
      match o.state
      case NullObject =>
      case Owned =>
        st := Destroyed(st, x, b.id, Dead, at);
        st := InvalidateBorrowsInPlace(st, b.id, at);
      case Dead => Emit(DoubleDestroy);
      case MaybeDead => Emit(DoubleDestroy);
      case UnknownState => Emit(FreeUnknownState);
      case Untracked => Emit(FreeUnknownState);
    }

    // ---- out-owner production -----------------------------------------------------------------

    method KillPendingGuardsForWrite(st0: FlowState, x: Storage, exempt: Option<nat>) returns (st: FlowState)
      ensures st == KillForWrite(st0, x, exempt)
    {
      st := st0;
      var rest := st0.pending.Keys;
      while rest != {}
        invariant rest <= st0.pending.Keys
        invariant st == st0.(pending := st.pending)
        invariant forall v ::
          v in st.pending <==> v in st0.pending && (v in rest || v in KillForWrite(st0, x, exempt).pending)
        invariant forall v :: v in st.pending ==> st.pending[v] == st0.pending[v]
        decreases |rest|
      {
        var v :| v in rest;
        if (x == v || x == st.pending[v].dest) && Some(st.pending[v].call) != exempt {
          st := st.(pending := st.pending - {v});
        }
        rest := rest - {v};
      }
    }

    method KillPendingGuardsInCall(st0: FlowState, p: Production, accepted: bool) returns (st: FlowState)
      ensures st == KillInCall(st0, p, accepted)
    {
      st := st0;
      var rest := st0.pending.Keys;
      while rest != {}
        invariant rest <= st0.pending.Keys
        invariant st == st0.(pending := st.pending)
        invariant forall v ::
          v in st.pending <==> v in st0.pending && (v in rest || v in KillInCall(st0, p, accepted).pending)
        invariant forall v :: v in st.pending ==> st.pending[v] == st0.pending[v]
        decreases |rest|
      {
        var v :| v in rest;
        var dest := st.pending[v].dest;
        if dest in p.arguments || (!accepted && dest == p.dest) || (accepted && dest == p.dest) {
          st := st.(pending := st.pending - {v});
        }
        rest := rest - {v};
      }
    }

    method NoteUnrefinedUses(st: FlowState, p: Production, accepted: bool)
      modifies this`reports
      ensures reports == old(reports) + Heard(if PassesUnrefined(st, p, accepted) then {UnrefinedOutOwnerUse} else {})
    {
      var rest := st.storages.Keys;
      while rest != {}
        invariant rest <= st.storages.Keys
        invariant reports == old(reports)
        invariant forall v :: v in st.storages.Keys - rest ==>
          !(st.storages[v].producedMaybe && (v in p.arguments || (!accepted && v == p.dest)))
        decreases |rest|
      {
        var v :| v in rest;
        if st.storages[v].producedMaybe && (v in p.arguments || (!accepted && v == p.dest)) {
          Emit(UnrefinedOutOwnerUse);
          return;
        }
        rest := rest - {v};
      }
    }

    method ApplyOutOwnerProduce(st0: FlowState, p: Production, at: nat) returns (st: FlowState)
      modifies this`reports
      ensures st == ApplyProduce(st0, p, at).state
      ensures reports == old(reports) + Heard(ApplyProduce(st0, p, at).reports)
    {
      st := st0;
      var id := ObjectIdFor(p.site, 0);
      if id == UNKNOWN_ID {
        st := st.(storages := st.storages[p.dest := Binding(UNKNOWN_ID, UnknownRelation, At(at), true)]);
        Emit(IdExhausted);
        return;
      }
      st := st.(storages := st.storages[p.dest := ProducedBinding(p, id, at)]);
      st := st.(objects := st.objects[id := ObjectAt(st, id).(state := Owned, allocation := At(at))]);
      var rest := st0.pending.Keys;
      while rest != {}
        invariant rest <= st0.pending.Keys
        invariant st == ApplyProduce(st0, p, at).state.(pending := st.pending)
        invariant forall v :: v in st.pending <==> v in st0.pending && (v in rest || st0.pending[v].dest != p.dest)
        invariant forall v :: v in st.pending ==> st.pending[v] == st0.pending[v]
        decreases |rest|
      {
        var v :| v in rest;
        if st.pending[v].dest == p.dest {
          st := st.(pending := st.pending - {v});
        }
        rest := rest - {v};
      }
    }

    method HandleProduce(st0: FlowState, p: Production, decl: bool, at: nat) returns (st: FlowState)
      modifies this`reports
      ensures st == ProduceStep(st0, p, decl, at).state
      ensures reports == old(reports) + Heard(ProduceStep(st0, p, decl, at).reports)
    {
      var accepted := Accepts(st0, p);
      st := KillPendingGuardsInCall(st0, p, accepted);
      NoteUnrefinedUses(st, p, accepted);
      if accepted {
        st := ApplyOutOwnerProduce(st, p, at);
        st := RecordGuard(st, p);
      } else {
        Emit(PointerOutput);
      }
      if p.result.Some? && !decl {
        st := KillPendingGuardsForWrite(st, p.result.value, Some(p.call));
      }
    }

    // ---- blocks -------------------------------------------------------------------------------

    /** Writes to a variable; an assignment first ends the guards the old value was part of. */
    method HandleWrite(c: Cmd, st0: FlowState) returns (st: FlowState)
      requires c.Malloc? || c.SetNull? || c.Copy? || c.Move? || c.StoreScalar?
      modifies this`reports
      ensures st == Step(c, st0, Unmeasured).state
      ensures reports == old(reports) + Heard(Step(c, st0, Unmeasured).reports)
    {
      st := st0;
      if !c.decl {
        st := KillPendingGuardsForWrite(st, c.x, None);
      }
      match c
      case Malloc(x, site, decl, at) => st := HandleMalloc(st, x, site, decl, at);
      case SetNull(x, _, at) => st := Bind(st, x, NULL_ID, Null, at);
      case Copy(x, y, _, at) => st := HandleCopy(st, x, y, at);
      case Move(x, y, _, at) =>
        var moved;
        st, moved := MoveBinding(st, x, y, at);
      case StoreScalar(_, _) =>
    }

    method ProcessElement(c: Cmd, st0: FlowState, live: LiveAfter) returns (st: FlowState)
      modifies this`reports, this`knownBorrows
      ensures st == Step(c, st0, live).state
      ensures reports == old(reports) + Heard(Step(c, st0, live).reports)
      ensures knownBorrows == old(knownBorrows) + Step(c, st0, live).created
    {
      st := st0;
      match c
      case Borrow(x, y, kind, at) => st := HandleBorrow(st, x, y, kind, at);
      case Declare(_) =>
      case Free(x, at) =>
        st := HandleFree(st, x, at, live);
        st := ExpireBorrowUses(st, live);
      case Deref(x, _) =>
        CheckAccess(st, x);
        st := ExpireBorrowUses(st, live);
      case Bump(x, at) =>
        st := KillPendingGuardsForWrite(st, x, None);
        Emit(PointerArithmetic);
        st := BindUnresolved(st, x, at);
        st := ExpireBorrowUses(st, live);
      case Produce(p, decl, at) =>
        st := HandleProduce(st, p, decl, at);
        st := ExpireBorrowUses(st, live);
      case CallPoint => st := ExpireBorrowUses(st, live);
      case Enclosing(_) =>
      case Opaque => Emit(UnsupportedConstruct);
      case _ =>
        CreatesNothing(c, st0, live);
        st := HandleWrite(c, st);
    }

    function LivenessOf(b: nat): (r: seq<LiveAfter>)
      requires b < |blocks|
      reads this`liveAfter
      ensures |r| == |blocks[b].cmds|
    {
      LiveAfterBlock(liveAfter, b, |blocks[b].cmds|)
    }

    method TransferInPlace(b: nat, st0: FlowState) returns (st: FlowState)
      requires b < |blocks|
      modifies this`reports, this`knownBorrows
      ensures st == RunBlock(blocks[b].cmds, st0, LivenessOf(b)).state
      ensures reports == old(reports) + Heard(RunBlock(blocks[b].cmds, st0, LivenessOf(b)).reports)
      ensures knownBorrows == old(knownBorrows) + RunBlock(blocks[b].cmds, st0, LivenessOf(b)).created
    {
      st := st0;
      var cmds := blocks[b].cmds;
      ghost var live := LivenessOf(b);
      for k := 0 to |cmds|
        invariant live == LivenessOf(b)
        invariant st == RunBlock(cmds[..k], st0, live[..k]).state
        invariant reports == old(reports) + Heard(RunBlock(cmds[..k], st0, live[..k]).reports)
        invariant knownBorrows == old(knownBorrows) + RunBlock(cmds[..k], st0, live[..k]).created
      {
        RunBlockNext(cmds, st0, live, k);
        st := ProcessElement(cmds[k], st, LivenessAt((b, k)));
      }
      assert cmds[..|cmds|] == cmds && live[..|cmds|] == live;
    }

    // ---- the driver ---------------------------------------------------------------------------

    /** Joins a block's new result into its successors; a successor that gains something is queued. */
    method FlowToSuccessors(b: nat, out: FlowState, ins0: map<nat, FlowState>, ghost outs0: map<nat, FlowState>,
        work0: set<nat>, ghost w: Bounds, ghost limit: nat) returns (ins: map<nat, FlowState>, work: set<nat>)
      requires Limits(limit, w) && ValidGraph(blocks, entry)
      requires Transferred(blocks, entry, w, knownBorrows, ins0, outs0, work0, b, out)
      ensures Between(blocks, entry, w, knownBorrows, ins, outs0[b := out], work)
      ensures Progress(w, limit, |blocks|, b, ins0, work0, ins, work)
    {
      ins, work := ins0, work0 - {b};
      NoEdgesDone(blocks, entry, w, limit, knownBorrows, b, out, ins, work);
      for i := 0 to |blocks[b].succs|
        invariant EdgesDone(blocks, entry, w, limit, knownBorrows, b, out, ins0, work0 - {b}, ins, work, i)
      {
        var changed := false;
        if blocks[b].succs[i].Some? {
          var s := blocks[b].succs[i].value;
          var joined := EdgeState(blocks[b], i, out);
          changed := true;
          if s in ins {
            joined := JoinStates(ins[s], joined);
            changed := joined != ins[s];
          }
          if changed {
            SuccessorGains(blocks, entry, w, limit, knownBorrows, ins, b, i, out);
            EdgeWithGain(blocks, entry, w, limit, knownBorrows, b, out, ins0, work0 - {b}, ins, work, i, s, joined);
            ins := ins[s := joined];
            work := work + {s};
          }
        }
        if !changed {
          EdgeWithoutGain(blocks, entry, w, limit, knownBorrows, b, out, ins0, work0 - {b}, ins, work, i);
        }
      }
      WorklistFlow(blocks, entry, w, limit, knownBorrows, ins0, outs0, work0, b, ins, work);
    }

    /** Runs a queued block from its in-state. */
    method TransferQueued(b: nat, ins: map<nat, FlowState>, ghost outs: map<nat, FlowState>, ghost work: set<nat>,
        ghost w: Bounds) returns (out: FlowState)
      requires ProgramWithin(blocks, w) && !emitting && liveAfter == map[]
      requires Between(blocks, entry, w, knownBorrows, ins, outs, work) && b in work
      modifies this`reports, this`knownBorrows
      ensures reports == old(reports)
      ensures Transferred(blocks, entry, w, knownBorrows, ins, outs, work, b, out)
    {
      QueuedIsReached(blocks, entry, w, knownBorrows, ins, outs, work, b);
      ghost var known := knownBorrows;
      out := TransferInPlace(b, ins[b]);
      assert LivenessOf(b) == NothingMeasured(|blocks[b].cmds|);
      TransferFacts(blocks, entry, w, known, knownBorrows, ins, outs, work, b);
    }

    /** Takes block `b` from the queue: runs it and, if its out-state is new, lets it flow on. */
    method Visit(b: nat, ins0: map<nat, FlowState>, outs0: map<nat, FlowState>, work0: set<nat>, ghost w: Bounds,
        ghost limit: nat) returns (ins: map<nat, FlowState>, outs: map<nat, FlowState>, work: set<nat>)
      requires ValidGraph(blocks, entry) && ProgramWithin(blocks, w) && Limits(limit, w) && !emitting &&
        liveAfter == map[]
      requires Between(blocks, entry, w, knownBorrows, ins0, outs0, work0) && b in work0
      modifies this`reports, this`knownBorrows
      ensures reports == old(reports)
      ensures Between(blocks, entry, w, knownBorrows, ins, outs, work)
      ensures Progress(w, limit, |blocks|, b, ins0, work0, ins, work)
    {
      var out := TransferQueued(b, ins0, outs0, work0, w);
      if b in outs0 && outs0[b] == out {
        ins, outs, work := ins0, outs0, work0 - {b};
        WorklistSkip(blocks, entry, w, knownBorrows, ins, outs, work0, b);
      } else {
        outs := outs0[b := out];
        ins, work := FlowToSuccessors(b, out, ins0, outs0, work0, w, limit);
      }
    }

    /** Runs blocks until none is queued; nothing is reported meanwhile. */
    method Converge(ghost w: Bounds) returns (ins: map<nat, FlowState>)
      requires ValidGraph(blocks, entry) && ProgramWithin(blocks, w) && !emitting && liveAfter == map[]
      modifies this`reports, this`knownBorrows
      ensures reports == old(reports)
      ensures PostFixed(blocks, entry, ins) && InsOk(blocks, entry, w, knownBorrows, ins)
      ensures forall b :: b in ins && b < |blocks| ==> CreatedIn(blocks[b], ins[b]) <= knownBorrows
    {
      ins := map[entry := EMPTY_STATE];
      var outs: map<nat, FlowState> := map[];
      var work := {entry};
      ghost var limit := SomeLimit(w);
      WorklistStart(blocks, entry, w);
      KnownGrows(blocks, entry, w, {}, knownBorrows, ins, outs, work);
      while work != {}
        invariant reports == old(reports)
        invariant Between(blocks, entry, w, knownBorrows, ins, outs, work)
        decreases W.Room(ins, w, limit, |blocks|), |work|
      {
        var b :| b in work;
        ins, outs, work := Visit(b, ins, outs, work, w, limit);
      }
      EmptyWorklistIsPostFixed(blocks, entry, w, knownBorrows, ins, outs);
    }

    method ComputeBorrowLiveness()
      requires ValidGraph(blocks, entry)
      modifies this`liveAfter
      ensures L.Exact(EventGraph(blocks, knownBorrows), liveAfter)
    {
      EventGraphIsClosed(blocks, entry, knownBorrows);
      var table := new L.BorrowLiveness(EventGraph(blocks, knownBorrows));
      table.Compute();
      liveAfter := table.liveAfter;
    }

    method EmitBlockDiagnostics(b: nat, ins: map<nat, FlowState>)
      requires emitting && Predecessors(blocks, entry, ins) && b < |blocks|
      modifies this`reports, this`knownBorrows
      ensures reports == old(reports) + if b in ins then EmitBlock(blocks, ins, liveAfter, b).reports else {}
    {
      if b in ins && (b == entry || HasPredecessor(blocks, b)) {
        var _ := TransferInPlace(b, ins[b]);
      }
    }

    method EmitDiagnostics(ins: map<nat, FlowState>)
      requires emitting && Predecessors(blocks, entry, ins)
      modifies this`reports, this`knownBorrows
      ensures reports == old(reports) + Emitted(blocks, ins, liveAfter)
    {
      for b := 0 to |blocks|
        invariant reports == old(reports) + EmittedBelow(blocks, ins, liveAfter, b)
      {
        EmitBlockDiagnostics(b, ins);
      }
    }

    /** Convergence, borrow liveness, and one reporting pass from the converged in-states. */
    method Run() returns (ins: map<nat, FlowState>, ghost known: set<Storage>)
      requires ValidGraph(blocks, entry) && SitesNumbered(blocks)
      modifies this
      ensures PostFixed(blocks, entry, ins)
      ensures forall b :: b in ins ==> ArrivesAt(ins[b], blocks, entry, b) && ins[b].borrows.Keys <= known
      ensures forall b :: b in ins && b < |blocks| ==> CreatedIn(blocks[b], ins[b]) <= known
      ensures L.Exact(EventGraph(blocks, known), liveAfter)
      ensures reports == old(reports) + Emitted(blocks, ins, liveAfter)
    {
      ghost var w := ProgramBounds(blocks);
      EveryProgramIsBounded(blocks);
      emitting := false;
      liveAfter := map[];
      ins := Converge(w);
      known := knownBorrows;
      forall b | b in ins ensures ArrivesAt(ins[b], blocks, entry, b) && ins[b].borrows.Keys <= known {
        assert InOk(blocks, entry, w, known, ins, b);
      }
      ComputeBorrowLiveness();
      emitting := true;
      EmitDiagnostics(ins);
    }
  }
}
