/** Straight-line code: the analysis reports an element exactly if the text before it says that the element
    breaks a rule. What a variable holds, who owns it and what has been destroyed are read off the text,
    without any state. */
module StraightLine {
  import opened Flow
  import opened Height
  import opened Options
  import opened Transfer
  import opened Program
  import opened Ownership
  import opened Renaming
  import opened Soundness
  import opened Aftermath
  import opened Causes
  import L = Liveness

  /** Allocations, copies, moves, destructions and accesses of local pointers, each allocation at a site of
      its own. */
  predicate Plain(c: Cmd) {
    c.Malloc? || c.SetNull? || c.Copy? || c.Move? || c.Free? || c.Deref? || c.Declare? || c.StoreScalar? ||
    c.CallPoint? || c.Enclosing?
  }

  ghost predicate Straight(cmds: seq<Cmd>) {
    && (forall k :: 0 <= k < |cmds| ==> Plain(cmds[k]) && SmallSite(cmds[k]))
    && (forall j, k :: 0 <= j < k < |cmds| && cmds[j].Malloc? && cmds[k].Malloc? ==> cmds[j].site != cmds[k].site)
  }

  // ---------------------------------------------------------------------------------------------
  // Reading the text
  // ---------------------------------------------------------------------------------------------

  /** What a variable holds: nothing that was stored into it, null, or the object of an allocation, given by
      its place in the text. */
  datatype Holding = Nothing | NullPointer | ObjectOf(k: nat)

  /** Before element `n`. A move out of a variable into which nothing was stored moves nothing. */
  function Holds(cmds: seq<Cmd>, n: nat, v: Storage): Holding
    requires n <= |cmds|
  {
    if n == 0 then Nothing
    else
      match cmds[n - 1]
      case Malloc(x, _, _, _) => if x == v then ObjectOf(n - 1) else Holds(cmds, n - 1, v)
      case SetNull(x, _, _) => if x == v then NullPointer else Holds(cmds, n - 1, v)
      case Copy(x, y, _, _) => Holds(cmds, n - 1, if x == v then y else v)
      case Move(x, y, _, _) => Holds(cmds, n - 1, if x == v && !Holds(cmds, n - 1, y).Nothing? then y else v)
      case _ => Holds(cmds, n - 1, v)
  }

  /** The variable gave its object away, or is a copy of one that had. */
  predicate GaveAway(cmds: seq<Cmd>, n: nat, v: Storage)
    requires n <= |cmds|
  {
    if n == 0 then false
    else
      match cmds[n - 1]
      case Malloc(x, _, _, _) => x != v && GaveAway(cmds, n - 1, v)
      case SetNull(x, _, _) => x != v && GaveAway(cmds, n - 1, v)
      case Copy(x, y, _, _) => GaveAway(cmds, n - 1, if x == v then y else v)
      case Move(x, y, _, _) =>
        if Holds(cmds, n - 1, y).ObjectOf? && y == v then true
        else if !Holds(cmds, n - 1, y).Nothing? && x == v then false
        else GaveAway(cmds, n - 1, v)
      case _ => GaveAway(cmds, n - 1, v)
  }

  /** The variable is responsible for its object: it got it from the allocation or by a move. */
  predicate IsOwner(cmds: seq<Cmd>, n: nat, v: Storage)
    requires n <= |cmds|
  {
    if n == 0 then false
    else
      match cmds[n - 1]
      case Malloc(x, _, _, _) => x == v || IsOwner(cmds, n - 1, v)
      case SetNull(x, _, _) => x != v && IsOwner(cmds, n - 1, v)
      case Copy(x, _, _, _) => x != v && IsOwner(cmds, n - 1, v)
      case Move(x, y, _, _) =>
        if Holds(cmds, n - 1, y).ObjectOf? && y == v then false
        else if !Holds(cmds, n - 1, y).Nothing? && x == v then Holds(cmds, n - 1, y).ObjectOf?
        else IsOwner(cmds, n - 1, v)
      case _ => IsOwner(cmds, n - 1, v)
  }

  /** The object of allocation `k` has been freed. */
  ghost predicate Freed(cmds: seq<Cmd>, n: nat, k: nat)
    requires n <= |cmds|
  {
    exists j :: 0 <= j < n && cmds[j].Free? && Holds(cmds, j, cmds[j].x) == ObjectOf(k)
  }

  ghost predicate HoldsDead(cmds: seq<Cmd>, n: nat, v: Storage)
    requires n <= |cmds|
  {
    Holds(cmds, n, v).ObjectOf? && Freed(cmds, n, Holds(cmds, n, v).k)
  }

  ghost predicate HoldsLive(cmds: seq<Cmd>, n: nat, v: Storage)
    requires n <= |cmds|
  {
    Holds(cmds, n, v).ObjectOf? && !Freed(cmds, n, Holds(cmds, n, v).k)
  }

  // ---------------------------------------------------------------------------------------------
  // The rules
  // ---------------------------------------------------------------------------------------------

  /** What element `n` does wrong. */
  ghost predicate Breaks(cmds: seq<Cmd>, n: nat, r: Report)
    requires n < |cmds|
  {
    match cmds[n]
    case Malloc(x, _, decl, _) => r == OwnerOverwrite && !decl && HoldsLive(cmds, n, x)
    case Copy(_, y, _, _) => r == AmbiguousAliasTarget && Holds(cmds, n, y).Nothing?
    case Move(x, y, _, _) => Holds(cmds, n, y).ObjectOf? &&
      r == (if GaveAway(cmds, n, y) then DoubleMove
            else if HoldsDead(cmds, n, y) then MoveFromDead else ConflictingOwner) &&
      (GaveAway(cmds, n, y) || HoldsDead(cmds, n, y) || !IsOwner(cmds, n, y) || x == y || HoldsLive(cmds, n, x))
    case Free(x, _) =>
      || (r == FreeUntracked && Holds(cmds, n, x).Nothing?)
      || (r == DestroyFromNonOwner && Holds(cmds, n, x).ObjectOf? && GaveAway(cmds, n, x))
      || (r == DoubleDestroy && HoldsDead(cmds, n, x) && !GaveAway(cmds, n, x))
    case Deref(x, _) =>
      || (r == UseAfterMove && Holds(cmds, n, x).ObjectOf? && GaveAway(cmds, n, x))
      || (r == UseAfterDestroy && HoldsDead(cmds, n, x) && !GaveAway(cmds, n, x))
    case _ => false
  }

  // ---------------------------------------------------------------------------------------------
  // The state says what the text says
  // ---------------------------------------------------------------------------------------------

  function RelationOf(cmds: seq<Cmd>, n: nat, v: Storage): Relation
    requires n <= |cmds|
  {
    if GaveAway(cmds, n, v) then Moved else if IsOwner(cmds, n, v) then Owner else Alias
  }

  /** The binding of `v` says that it holds `h`, as an owner or otherwise. */
  predicate Told(cmds: seq<Cmd>, h: Holding, relation: Relation, st: FlowState, v: Storage) {
    match h
    case Nothing => v !in st.storages
    case NullPointer => v in st.storages && KnownNull(st.storages[v]) && !st.storages[v].producedMaybe
    case ObjectOf(k) =>
      && k < |cmds| && cmds[k].Malloc? && v in st.storages && !st.storages[v].producedMaybe
      && st.storages[v].id == cmds[k].site && st.storages[v].relation == relation
  }

  predicate ToldAt(cmds: seq<Cmd>, n: nat, st: FlowState, v: Storage)
    requires n <= |cmds|
  {
    Told(cmds, Holds(cmds, n, v), RelationOf(cmds, n, v), st, v)
  }

  /** The object of allocation `k` is dead or alive, as the text says. */
  ghost predicate Known(cmds: seq<Cmd>, n: nat, st: FlowState, k: nat)
    requires n <= |cmds|
  {
    k < n && cmds[k].Malloc? ==>
      && cmds[k].site in st.objects
      && st.objects[cmds[k].site].state == if Freed(cmds, n, k) then Dead else Owned
  }

  ghost predicate AllTold(cmds: seq<Cmd>, n: nat, st: FlowState)
    requires n <= |cmds|
  {
    forall v :: ToldAt(cmds, n, st, v)
  }

  ghost predicate AllKnown(cmds: seq<Cmd>, n: nat, st: FlowState)
    requires n <= |cmds|
  {
    forall k :: Known(cmds, n, st, k)
  }

  predicate FirstGenerations(st: FlowState) {
    st.widened == {} && forall s :: s in st.generations ==> st.generations[s] == 0
  }

  ghost predicate Agrees(cmds: seq<Cmd>, n: nat, st: FlowState)
    requires n <= |cmds|
  {
    Sane(st) && st.borrows == map[] && FirstGenerations(st) && AllTold(cmds, n, st) && AllKnown(cmds, n, st)
  }

  // ---------------------------------------------------------------------------------------------
  // Facts about the text
  // ---------------------------------------------------------------------------------------------

  /** What is held was allocated before. */
  lemma {:induction false} HeldWasAllocated(cmds: seq<Cmd>, n: nat, v: Storage)
    requires n <= |cmds| && Holds(cmds, n, v).ObjectOf?
    ensures Holds(cmds, n, v).k < n && cmds[Holds(cmds, n, v).k].Malloc?
  {
    if n > 0 {
      match cmds[n - 1]
      case Malloc(x, _, _, _) => if x != v { HeldWasAllocated(cmds, n - 1, v); }
      case Copy(x, y, _, _) => HeldWasAllocated(cmds, n - 1, if x == v then y else v);
      case Move(x, y, _, _) =>
        HeldWasAllocated(cmds, n - 1, if x == v && !Holds(cmds, n - 1, y).Nothing? then y else v);
      case _ => HeldWasAllocated(cmds, n - 1, v);
    }
  }

  lemma FreedNext(cmds: seq<Cmd>, n: nat, k: nat)
    requires n < |cmds|
    ensures Freed(cmds, n + 1, k) <==>
      Freed(cmds, n, k) || (cmds[n].Free? && Holds(cmds, n, cmds[n].x) == ObjectOf(k))
  {
  }

  lemma NotYetFreed(cmds: seq<Cmd>, n: nat)
    requires n <= |cmds|
    ensures !Freed(cmds, n, n)
  {
    if Freed(cmds, n, n) {
      var j :| 0 <= j < n && cmds[j].Free? && Holds(cmds, j, cmds[j].x) == ObjectOf(n);
      HeldWasAllocated(cmds, j, cmds[j].x);
    }
  }

  /** The element stores something into the variable, or moves out of it. */
  predicate Touches(c: Cmd, v: Storage) { StoresInto(c, v) || (c.Move? && c.y == v) }

  lemma TextKept(cmds: seq<Cmd>, n: nat, v: Storage)
    requires n < |cmds| && !Touches(cmds[n], v)
    ensures Holds(cmds, n + 1, v) == Holds(cmds, n, v) && RelationOf(cmds, n + 1, v) == RelationOf(cmds, n, v)
  {
  }

  // ---------------------------------------------------------------------------------------------
  // What the state says of what a variable holds
  // ---------------------------------------------------------------------------------------------

  lemma HeldIsOnRecord(cmds: seq<Cmd>, n: nat, st: FlowState, v: Storage)
    requires Straight(cmds) && n <= |cmds| && Agrees(cmds, n, st) && Holds(cmds, n, v).ObjectOf?
    ensures Tells(st, v) && st.storages[v].relation == RelationOf(cmds, n, v)
    ensures ObjectNow(st, v).state == (if HoldsDead(cmds, n, v) then Dead else Owned)
    ensures ObjectNow(st, v).origin == Allocation
  {
    var k := Holds(cmds, n, v).k;
    HeldWasAllocated(cmds, n, v);
    assert ToldAt(cmds, n, st, v) && Known(cmds, n, st, k);
    assert SmallSite(cmds[k]);
  }

  lemma OtherIsUnnamed(cmds: seq<Cmd>, n: nat, st: FlowState, v: Storage)
    requires n <= |cmds| && Agrees(cmds, n, st) && !Holds(cmds, n, v).ObjectOf?
    ensures v in st.storages <==> Holds(cmds, n, v).NullPointer?
    ensures v in st.storages ==> KnownNull(st.storages[v]) && !st.storages[v].producedMaybe
  {
    assert ToldAt(cmds, n, st, v);
  }

  lemma Consult(cmds: seq<Cmd>, n: nat, st: FlowState, v: Storage)
    requires Straight(cmds) && n <= |cmds| && Agrees(cmds, n, st)
    ensures Holds(cmds, n, v).ObjectOf? ==>
      Tells(st, v) && st.storages[v].relation == RelationOf(cmds, n, v) && ObjectNow(st, v).origin == Allocation
    ensures Holds(cmds, n, v).ObjectOf? ==> ObjectNow(st, v).state == if HoldsDead(cmds, n, v) then Dead else Owned
    ensures Holds(cmds, n, v).NullPointer? ==> v in st.storages && KnownNull(st.storages[v])
    ensures Holds(cmds, n, v).NullPointer? ==> !st.storages[v].producedMaybe
    ensures Holds(cmds, n, v).Nothing? ==> v !in st.storages
    ensures Vacant(st, v) <==> !HoldsLive(cmds, n, v)
  {
    if Holds(cmds, n, v).ObjectOf? {
      HeldIsOnRecord(cmds, n, st, v);
    } else {
      OtherIsUnnamed(cmds, n, st, v);
    }
  }

  /** The site of allocation `n` is still unheard of. */
  lemma SiteIsNew(cmds: seq<Cmd>, n: nat, st: FlowState, x: Storage)
    requires Straight(cmds) && n < |cmds| && cmds[n].Malloc? && Agrees(cmds, n, st)
    ensures !StillNamed(st, x, cmds[n].site)
    ensures forall k :: 0 <= k < n && cmds[k].Malloc? ==> cmds[k].site != cmds[n].site
  {
    forall v | v in st.storages && Names(st.storages[v].id)
      ensures st.storages[v].id % GENERATION_STRIDE != cmds[n].site
    {
      assert ToldAt(cmds, n, st, v);
      HeldWasAllocated(cmds, n, v);
      var k := Holds(cmds, n, v).k;
      assert cmds[k].site != cmds[n].site && SmallSite(cmds[k]) && SmallSite(cmds[n]);
    }
  }

  // ---------------------------------------------------------------------------------------------
  // Reports
  // ---------------------------------------------------------------------------------------------

  lemma AllocationBreach(cmds: seq<Cmd>, n: nat, st: FlowState, r: Report)
    requires Straight(cmds) && n < |cmds| && cmds[n].Malloc? && Agrees(cmds, n, st)
    ensures AllocationCause(r, cmds[n].x, cmds[n].site, cmds[n].decl, st) <==> Breaks(cmds, n, r)
  {
    assert SmallSite(cmds[n]);
    SiteIsNew(cmds, n, st, cmds[n].x);
    Consult(cmds, n, st, cmds[n].x);
  }

  lemma CopyBreach(cmds: seq<Cmd>, n: nat, st: FlowState, r: Report)
    requires Straight(cmds) && n < |cmds| && cmds[n].Copy? && Agrees(cmds, n, st)
    ensures CopyCause(r, cmds[n].y, st) <==> Breaks(cmds, n, r)
  {
    Consult(cmds, n, st, cmds[n].y);
  }

  lemma MoveBreach(cmds: seq<Cmd>, n: nat, st: FlowState, r: Report)
    requires Straight(cmds) && n < |cmds| && cmds[n].Move? && Agrees(cmds, n, st)
    ensures MoveCause(r, cmds[n].x, cmds[n].y, st) <==> Breaks(cmds, n, r)
  {
    Consult(cmds, n, st, cmds[n].x);
    Consult(cmds, n, st, cmds[n].y);
  }

  lemma FreeBreach(cmds: seq<Cmd>, n: nat, st: FlowState, live: LiveAfter, r: Report)
    requires Straight(cmds) && n < |cmds| && cmds[n].Free? && Agrees(cmds, n, st)
    ensures DestructionCause(r, cmds[n].x, st, live) <==> Breaks(cmds, n, r)
  {
    Consult(cmds, n, st, cmds[n].x);
  }

  lemma AccessBreach(cmds: seq<Cmd>, n: nat, st: FlowState, r: Report)
    requires Straight(cmds) && n < |cmds| && cmds[n].Deref? && Agrees(cmds, n, st)
    ensures AccessCause(r, cmds[n].x, st) <==> Breaks(cmds, n, r)
  {
    Consult(cmds, n, st, cmds[n].x);
  }

  /** The causes of reports are the broken rules. */
  lemma CauseIsBreach(cmds: seq<Cmd>, n: nat, st: FlowState, live: LiveAfter, r: Report)
    requires Straight(cmds) && n < |cmds| && Agrees(cmds, n, st)
    ensures Cause(r, cmds[n], st, live) <==> Breaks(cmds, n, r)
  {
    assert Plain(cmds[n]);
    if cmds[n].Malloc? { AllocationBreach(cmds, n, st, r); }
    else if cmds[n].Copy? { CopyBreach(cmds, n, st, r); }
    else if cmds[n].Move? { MoveBreach(cmds, n, st, r); }
    else if cmds[n].Free? { FreeBreach(cmds, n, st, live, r); }
    else if cmds[n].Deref? { AccessBreach(cmds, n, st, r); }
  }

  lemma ReportsExact(cmds: seq<Cmd>, n: nat, st: FlowState, live: LiveAfter, r: Report)
    requires Straight(cmds) && n < |cmds| && Agrees(cmds, n, st)
    ensures r in Step(cmds[n], st, live).reports <==> Breaks(cmds, n, r)
  {
    ReportedExactly(r, cmds[n], st, live);
    CauseIsBreach(cmds, n, st, live, r);
  }

  // ---------------------------------------------------------------------------------------------
  // States
  // ---------------------------------------------------------------------------------------------

  predicate SameAt(st: FlowState, st': FlowState, v: Storage) {
    (v in st.storages <==> v in st'.storages) && (v in st.storages ==> st'.storages[v] == st.storages[v])
  }

  lemma AllocationSpares(st: FlowState, x: Storage, site: Site, decl: bool, at: nat, v: Storage)
    requires v != x
    ensures SameAt(st, MallocStep(st, x, site, decl, at).state, v)
  {
    assert MallocStep(st, x, site, decl, at).state == BindAllocation(st, x, site, at).state;
  }

  lemma AssignmentSpares(st: FlowState, x: Storage, y: Storage, at: nat, v: Storage)
    requires v != x
    ensures SameAt(st, CopyStep(st, x, y, at).state, v) && (v != y ==> SameAt(st, MoveStep(st, x, y, at).state, v))
  {
  }

  lemma FreeBindsNothing(st: FlowState, x: Storage, at: nat, live: LiveAfter)
    ensures FreeStep(st, x, at, live).state.storages == st.storages
  {
  }

  /** Variables that an element does not touch are bound as before. */
  lemma UntouchedStays(c: Cmd, st: FlowState, live: LiveAfter, v: Storage)
    requires Plain(c) && !Touches(c, v)
    ensures SameAt(st, Step(c, st, live).state, v)
  {
    match c
    case Malloc(x, site, decl, at) => AllocationSpares(Written(st, x, decl), x, site, decl, at, v);
    case Copy(x, y, decl, at) => AssignmentSpares(Written(st, x, decl), x, y, at, v);
    case Move(x, y, decl, at) => AssignmentSpares(Written(st, x, decl), x, y, at, v);
    case Free(x, at) => FreeBindsNothing(st, x, at, live);
    case _ =>
  }

  lemma AllTouchedTold(cmds: seq<Cmd>, n: nat, st: FlowState, live: LiveAfter)
    requires Straight(cmds) && n < |cmds| && Agrees(cmds, n, st)
    requires forall v :: Touches(cmds[n], v) ==> ToldAt(cmds, n + 1, Step(cmds[n], st, live).state, v)
    ensures AllTold(cmds, n + 1, Step(cmds[n], st, live).state)
  {
    var m, st' := n + 1, Step(cmds[n], st, live).state;
    forall v ensures ToldAt(cmds, m, st', v) {
      if !Touches(cmds[n], v) {
        assert Plain(cmds[n]) && ToldAt(cmds, n, st, v);
        UntouchedStays(cmds[n], st, live, v);
        TextKept(cmds, n, v);
      }
    }
  }

  lemma NothingFreed(cmds: seq<Cmd>, n: nat, st: FlowState, st': FlowState)
    requires n < |cmds| && AllKnown(cmds, n, st) && !cmds[n].Free? && !cmds[n].Malloc? && st'.objects == st.objects
    ensures AllKnown(cmds, n + 1, st')
  {
    var m := n + 1;
    forall k ensures Known(cmds, m, st', k) {
      assert Known(cmds, n, st, k);
      FreedNext(cmds, n, k);
    }
  }

  lemma AllocatedTold(cmds: seq<Cmd>, n: nat, st: FlowState, live: LiveAfter)
    requires Straight(cmds) && n < |cmds| && cmds[n].Malloc? && Agrees(cmds, n, st)
    ensures var st', x, site := Step(cmds[n], st, live).state, cmds[n].x, cmds[n].site;
      && ToldAt(cmds, n + 1, st', x) && st'.borrows == st.borrows && st'.widened == {}
      && st'.generations == st.generations[site := 0]
      && site in st'.objects && st'.objects == st.objects[site := st'.objects[site]] && st'.objects[site].state == Owned
  {
    var x, site := cmds[n].x, cmds[n].site;
    var st0 := Written(st, x, cmds[n].decl);
    var looked := st0.(generations := st0.generations[site := 0]);
    SiteIsNew(cmds, n, st, x);
    assert SmallSite(cmds[n]);
    assert !Retained(site, x, looked) by { assert StillNamed(looked, x, site) <==> StillNamed(st, x, site); }
    assert Step(cmds[n], st, live).state == BindOwned(looked, x, site, cmds[n].at);
  }

  lemma AllocationAgrees(cmds: seq<Cmd>, n: nat, st: FlowState, live: LiveAfter)
    requires Straight(cmds) && n < |cmds| && cmds[n].Malloc? && Agrees(cmds, n, st)
    requires Sane(Step(cmds[n], st, live).state)
    ensures Agrees(cmds, n + 1, Step(cmds[n], st, live).state)
  {
    var m, st' := n + 1, Step(cmds[n], st, live).state;
    AllocatedTold(cmds, n, st, live);
    AllTouchedTold(cmds, n, st, live);
    SiteIsNew(cmds, n, st, cmds[n].x);
    NotYetFreed(cmds, n);
    forall k ensures Known(cmds, m, st', k) {
      assert Known(cmds, n, st, k);
      FreedNext(cmds, n, k);
    }
  }

  lemma AssignedTold(cmds: seq<Cmd>, n: nat, st: FlowState, live: LiveAfter)
    requires Straight(cmds) && n < |cmds| && (cmds[n].SetNull? || cmds[n].Copy?) && Agrees(cmds, n, st)
    requires Step(cmds[n], st, live).reports == {}
    ensures var st' := Step(cmds[n], st, live).state;
      ToldAt(cmds, n + 1, st', cmds[n].x) && st' == st.(storages := st'.storages, pending := st'.pending)
  {
    if cmds[n].Copy? {
      Consult(cmds, n, st, cmds[n].y);
      HeldOrNot(cmds, n, cmds[n].y);
      assert ToldAt(cmds, n, st, cmds[n].y);
    }
  }

  lemma HeldOrNot(cmds: seq<Cmd>, n: nat, v: Storage)
    requires n <= |cmds|
    ensures Holds(cmds, n, v).ObjectOf? ==> Holds(cmds, n, v).k < n && cmds[Holds(cmds, n, v).k].Malloc?
  {
    if Holds(cmds, n, v).ObjectOf? { HeldWasAllocated(cmds, n, v); }
  }

  /** A move without a report: of nothing, of null, or of an object that its source owns. */
  lemma MoveHappens(st: FlowState, x: Storage, y: Storage, at: nat)
    requires MoveStep(st, x, y, at).reports == {} && st.borrows == map[]
    requires y in st.storages ==>
      KnownNull(st.storages[y]) || (NamesObject(st, y) && ObjectNow(st, y).origin == Allocation)
    ensures var st' := MoveStep(st, x, y, at).state;
      if y !in st.storages then st' == st
      else if KnownNull(st.storages[y]) then st' == Bind(st, x, NULL_ID, Null, at)
      else
        var b := st.storages[y];
        && x != y && b.relation == Owner
        && st' == Bind(st.(storages := st.storages[y := b.(relation := Moved, where := At(at))]), x, b.id, Owner, at)
  {
  }

  lemma MovedTold(cmds: seq<Cmd>, n: nat, st: FlowState, live: LiveAfter)
    requires Straight(cmds) && n < |cmds| && cmds[n].Move? && Agrees(cmds, n, st)
    requires Step(cmds[n], st, live).reports == {}
    ensures var st' := Step(cmds[n], st, live).state;
      && ToldAt(cmds, n + 1, st', cmds[n].x) && ToldAt(cmds, n + 1, st', cmds[n].y)
      && st' == st.(storages := st'.storages, pending := st'.pending)
  {
    var x, y := cmds[n].x, cmds[n].y;
    Consult(cmds, n, st, x);
    Consult(cmds, n, st, y);
    HeldOrNot(cmds, n, y);
    MoveHappens(Written(st, x, cmds[n].decl), x, y, cmds[n].at);
    assert ToldAt(cmds, n, st, x) && ToldAt(cmds, n, st, y);
  }

  lemma AssignmentAgrees(cmds: seq<Cmd>, n: nat, st: FlowState, live: LiveAfter)
    requires Straight(cmds) && n < |cmds| && Agrees(cmds, n, st)
    requires cmds[n].SetNull? || cmds[n].Copy? || cmds[n].Move?
    requires Step(cmds[n], st, live).reports == {} && Sane(Step(cmds[n], st, live).state)
    ensures Agrees(cmds, n + 1, Step(cmds[n], st, live).state)
  {
    var st' := Step(cmds[n], st, live).state;
    if cmds[n].Move? { MovedTold(cmds, n, st, live); } else { AssignedTold(cmds, n, st, live); }
    AllTouchedTold(cmds, n, st, live);
    NothingFreed(cmds, n, st, st');
  }

  lemma FreeHappens(st: FlowState, x: Storage, at: nat, live: LiveAfter)
    requires FreeStep(st, x, at, live).reports == {} && st.borrows == map[]
    requires x in st.storages ==>
      KnownNull(st.storages[x]) || (Tells(st, x) && st.storages[x].relation in {Owner, Alias, Moved})
    requires x in st.storages && Tells(st, x) ==>
      ObjectNow(st, x).state in {Dead, Owned} && ObjectNow(st, x).origin == Allocation
    ensures var st' := ExpireBorrows(FreeStep(st, x, at, live).state, live);
      && st' == st.(objects := st'.objects)
      && x in st.storages
      && (if KnownNull(st.storages[x]) then st' == st
          else
            var id := st.storages[x].id;
            id in st'.objects && st'.objects == st.objects[id := st'.objects[id]] && st'.objects[id].state == Dead)
  {
  }

  lemma FreeAgrees(cmds: seq<Cmd>, n: nat, st: FlowState, live: LiveAfter)
    requires Straight(cmds) && n < |cmds| && cmds[n].Free? && Agrees(cmds, n, st)
    requires Step(cmds[n], st, live).reports == {} && Sane(Step(cmds[n], st, live).state)
    ensures Agrees(cmds, n + 1, Step(cmds[n], st, live).state)
  {
    var m, x, st' := n + 1, cmds[n].x, Step(cmds[n], st, live).state;
    Consult(cmds, n, st, x);
    HeldOrNot(cmds, n, x);
    FreeHappens(st, x, cmds[n].at, live);
    AllTouchedTold(cmds, n, st, live);
    assert ToldAt(cmds, n, st, x);
    forall k: nat ensures Known(cmds, m, st', k) {
      assert Known(cmds, n, st, k);
      FreedNext(cmds, n, k);
      if Holds(cmds, n, x).ObjectOf? && k < n && cmds[k].Malloc? && k != Holds(cmds, n, x).k {
        SitesDiffer(cmds, k, Holds(cmds, n, x).k);
      }
    }
  }

  lemma SitesDiffer(cmds: seq<Cmd>, j: nat, k: nat)
    requires Straight(cmds) && j < |cmds| && k < |cmds| && j != k && cmds[j].Malloc? && cmds[k].Malloc?
    ensures cmds[j].site != cmds[k].site
  {
    if j < k { assert cmds[j].site != cmds[k].site; } else { assert cmds[k].site != cmds[j].site; }
  }

  lemma OtherAgrees(cmds: seq<Cmd>, n: nat, st: FlowState, live: LiveAfter)
    requires Straight(cmds) && n < |cmds| && Agrees(cmds, n, st) && Simple(cmds[n]) && !cmds[n].SetNull?
    requires Sane(Step(cmds[n], st, live).state)
    ensures Agrees(cmds, n + 1, Step(cmds[n], st, live).state)
  {
    var st' := Step(cmds[n], st, live).state;
    assert Plain(cmds[n]);
    assert st' == st.(pending := st'.pending);
    AllTouchedTold(cmds, n, st, live);
    NothingFreed(cmds, n, st, st');
  }

  lemma NextAgrees(cmds: seq<Cmd>, n: nat, st: FlowState, live: LiveAfter)
    requires Straight(cmds) && n < |cmds| && Agrees(cmds, n, st)
    requires Step(cmds[n], st, live).reports == {} && Sane(Step(cmds[n], st, live).state)
    ensures Agrees(cmds, n + 1, Step(cmds[n], st, live).state)
  {
    assert Plain(cmds[n]);
    if cmds[n].Malloc? { AllocationAgrees(cmds, n, st, live); }
    else if cmds[n].SetNull? || cmds[n].Copy? || cmds[n].Move? { AssignmentAgrees(cmds, n, st, live); }
    else if cmds[n].Free? { FreeAgrees(cmds, n, st, live); }
    else { OtherAgrees(cmds, n, st, live); }
  }

  // ---------------------------------------------------------------------------------------------
  // Whole texts
  // ---------------------------------------------------------------------------------------------

  ghost predicate KeepsRules(cmds: seq<Cmd>, n: nat)
    requires n <= |cmds|
  {
    forall k, r :: 0 <= k < n ==> !Breaks(cmds, k, r)
  }

  lemma StatesAreSane(cmds: seq<Cmd>, live: seq<LiveAfter>, n: nat)
    requires Straight(cmds) && n <= |cmds| == |live|
    ensures Sane(StateBefore(cmds, EMPTY_STATE, live, n))
  {
    var blocks := [Block(cmds, None, false, [])];
    assert SmallSites(blocks) by {
      forall b, k | 0 <= b < |blocks| && 0 <= k < |blocks[b].cmds| ensures SmallSite(blocks[b].cmds[k]) { }
    }
    assert DerivesFrom(Start, blocks);
    ReachableRun(EMPTY_STATE, blocks, 0, n, live[..n]);
    ReachableIsSane(blocks, StateBefore(cmds, EMPTY_STATE, live, n));
  }

  /** As long as no element breaks a rule, nothing is reported; and what the first one that does breaks is
      exactly what is reported of it. */
  lemma {:induction false} FirstReportExactly(cmds: seq<Cmd>, live: seq<LiveAfter>, n: nat)
    requires Straight(cmds) && n <= |cmds| == |live|
    ensures ReportsBefore(cmds, EMPTY_STATE, live, n) == {} <==> KeepsRules(cmds, n)
    ensures KeepsRules(cmds, n) ==> Agrees(cmds, n, StateBefore(cmds, EMPTY_STATE, live, n))
    ensures KeepsRules(cmds, n) && n < |cmds| ==>
      forall r :: r in Step(cmds[n], StateBefore(cmds, EMPTY_STATE, live, n), live[n]).reports <==> Breaks(cmds, n, r)
  {
    var st := StateBefore(cmds, EMPTY_STATE, live, n);
    if n == 0 {
      assert cmds[..0] == [] && live[..0] == [];
    } else {
      var before := StateBefore(cmds, EMPTY_STATE, live, n - 1);
      FirstReportExactly(cmds, live, n - 1);
      ReportsBeforeNext(cmds, EMPTY_STATE, live, n - 1);
      StateBeforeNext(cmds, EMPTY_STATE, live, n - 1);
      StatesAreSane(cmds, live, n);
      if KeepsRules(cmds, n) {
        NextAgrees(cmds, n - 1, before, live[n - 1]);
      } else if KeepsRules(cmds, n - 1) {
        var k, r :| 0 <= k < n && Breaks(cmds, k, r);
        assert k == n - 1;
      }
    }
    if KeepsRules(cmds, n) && n < |cmds| {
      forall r ensures r in Step(cmds[n], st, live[n]).reports <==> Breaks(cmds, n, r) {
        ReportsExact(cmds, n, st, live[n], r);
      }
    }
  }

  /** Straight-line code passes exactly if no element breaks a rule. */
  lemma PassesExactly(cmds: seq<Cmd>, live: seq<LiveAfter>)
    requires Straight(cmds) && |live| == |cmds|
    ensures RunBlock(cmds, EMPTY_STATE, live).reports == {} <==> KeepsRules(cmds, |cmds|)
  {
    assert cmds[..|cmds|] == cmds && live[..|cmds|] == live;
    FirstReportExactly(cmds, live, |cmds|);
  }

  // ---------------------------------------------------------------------------------------------
  // As a program
  // ---------------------------------------------------------------------------------------------

  function Alone(cmds: seq<Cmd>): seq<Block> { [Block(cmds, None, false, [])] }

  lemma {:induction false} NothingArrives(cmds: seq<Cmd>, d: Arrival, b: nat)
    requires Arrives(d, Alone(cmds), 0, b)
    ensures b == 0 && Arrived(d, Alone(cmds)) == EMPTY_STATE
  {
    if d.Merge? {
      NothingArrives(cmds, d.left, b);
      NothingArrives(cmds, d.right, b);
      JoinIdempotent(EMPTY_STATE);
    }
  }

  /** A program without branches passes exactly if no element breaks a rule. */
  lemma ProgramPassesExactly(cmds: seq<Cmd>, ins: map<nat, FlowState>, after: map<L.Point, set<Storage>>)
    requires Straight(cmds) && PostFixed(Alone(cmds), 0, ins)
    requires forall b :: b in ins ==> ArrivesAt(ins[b], Alone(cmds), 0, b)
    ensures Emitted(Alone(cmds), ins, after) == {} <==> KeepsRules(cmds, |cmds|)
  {
    var d :| Arrives(d, Alone(cmds), 0, 0) && Arrived(d, Alone(cmds)) == ins[0];
    NothingArrives(cmds, d, 0);
    var live := LiveAfterBlock(after, 0, |cmds|);
    PassesExactly(cmds, live);
    assert EmitBlock(Alone(cmds), ins, after, 0) == RunBlock(cmds, EMPTY_STATE, live);
    assert EmittedBelow(Alone(cmds), ins, after, 0) == {};
  }
}
