/** States over a bounded universe have finite height, and joining something new into a state
    raises it strictly. Pending guards are lost at joins, so a missing guard counts as higher. */
module Height {
  import opened Flow

  /** Every storage, site and position rank the program mentions is below these numbers. */
  datatype Bounds = Bounds(storages: nat, sites: nat, positions: nat)

  const GENERATION_STRIDE: nat := 1_000_000

  function IdBound(w: Bounds): nat { w.sites + GENERATION_STRIDE }

  predicate LocationWithin(l: Location, w: Bounds) {
    l.At? ==> l.rank < w.positions
  }

  ghost predicate Within(st: FlowState, w: Bounds) {
    && Wf(st) && StoragesWithin(st.storages, w) && ObjectsWithin(st.objects, w) && BorrowsWithin(st.borrows, w)
    && GenerationsWithin(st.generations, w) && WidenedWithin(st.widened, w) && PendingWithin(st.pending, w)
  }

  ghost predicate StoragesWithin(m: map<Storage, Binding>, w: Bounds) {
    forall v :: v in m ==> v < w.storages && LocationWithin(m[v].where, w)
  }

  ghost predicate ObjectsWithin(m: map<ObjectId, ObjectInfo>, w: Bounds) {
    forall o :: o in m ==> o < IdBound(w) && ObjectWithin(m[o], w)
  }

  ghost predicate BorrowsWithin(m: map<Storage, BorrowInfo>, w: Bounds) {
    forall v :: v in m ==> v < w.storages && BorrowWithin(m[v], w)
  }

  ghost predicate GenerationsWithin(m: map<Site, nat>, w: Bounds) {
    forall s :: s in m ==> s < w.sites && m[s] <= 1
  }

  ghost predicate WidenedWithin(sites: set<Site>, w: Bounds) {
    forall s :: s in sites ==> s < w.sites
  }

  ghost predicate PendingWithin(m: map<Storage, PendingGuard>, w: Bounds) {
    forall v :: v in m ==> v < w.storages
  }

  predicate ObjectWithin(o: ObjectInfo, w: Bounds) {
    && LocationWithin(o.allocation, w) && LocationWithin(o.destruction, w)
    && o.destructionStorage <= w.storages
  }

  predicate BorrowWithin(b: BorrowInfo, w: Bounds) {
    LocationWithin(b.created, w) && LocationWithin(b.invalidated, w)
  }

  lemma JoinedStoragesWithin(a: FlowState, b: FlowState, w: Bounds)
    requires StoragesWithin(a.storages, w) && StoragesWithin(b.storages, w)
    ensures StoragesWithin(JoinStorages(a, b), w)
  {
    forall v | v in JoinStorages(a, b)
      ensures v < w.storages && LocationWithin(JoinStorages(a, b)[v].where, w)
    {
      assert LocationWithin(BindingAt(a, v).where, w) && LocationWithin(BindingAt(b, v).where, w);
    }
  }

  lemma JoinedObjectsWithin(a: map<ObjectId, ObjectInfo>, b: map<ObjectId, ObjectInfo>, w: Bounds)
    requires ObjectsWithin(a, w) && ObjectsWithin(b, w)
    ensures ObjectsWithin(JoinObjects(a, b), w)
  {
  }

  lemma JoinedBorrowsWithin(a: map<Storage, BorrowInfo>, b: map<Storage, BorrowInfo>, w: Bounds)
    requires BorrowsWithin(a, w) && BorrowsWithin(b, w)
    ensures BorrowsWithin(JoinBorrows(a, b), w)
  {
  }

  lemma JoinedSitesWithin(a: FlowState, b: FlowState, w: Bounds)
    requires GenerationsWithin(a.generations, w) && GenerationsWithin(b.generations, w)
    requires WidenedWithin(a.widened, w) && WidenedWithin(b.widened, w)
    ensures GenerationsWithin(JoinGenerations(a.generations, b.generations), w) &&
      WidenedWithin(a.widened + b.widened, w)
  {
  }

  lemma JoinWithin(a: FlowState, b: FlowState, w: Bounds)
    requires Within(a, w) && Within(b, w)
    ensures Within(JoinFlow(a, b), w)
  {
    JoinKeepsWf(a, b);
    JoinedStoragesWithin(a, b, w);
    JoinedObjectsWithin(a.objects, b.objects, w);
    JoinedBorrowsWithin(a.borrows, b.borrows, w);
    JoinedSitesWithin(a, b, w);
  }

  // ---------------------------------------------------------------------------------------------
  // Heights
  // ---------------------------------------------------------------------------------------------

  function LocationHeight(l: Location, w: Bounds): nat
    requires LocationWithin(l, w)
  {
    if l.NoLocation? then 0 else w.positions - l.rank
  }

  function RelationHeight(b: Binding): nat {
    if b.id == UNKNOWN_ID then 5
    else if b.id == NULL_ID then 0
    else match b.relation
      case MaybeNull => 4
      case MaybeMoved => 3
      case UnknownRelation => 2
      case _ => 1
  }

  function BindingHeight(b: Binding, w: Bounds): nat
    requires LocationWithin(b.where, w)
  {
    1 + RelationHeight(b) + LocationHeight(b.where, w) + (if b.producedMaybe then 1 else 0)
  }

  function StateHeight(s: ObjectState): nat {
    match s
    case NullObject => 0
    case Untracked => 1
    case Owned => 1
    case Dead => 1
    case MaybeDead => 2
    case UnknownState => 3
  }

  function ObjectHeight(o: ObjectInfo, w: Bounds): nat
    requires ObjectWithin(o, w)
  {
    1 + StateHeight(o.state) + (if o.origin == UnknownOrigin then 1 else 0)
    + (if o.capability == UnknownCapability then 1 else 0)
    + LocationHeight(o.allocation, w) + LocationHeight(o.destruction, w)
    + (if o.destructionKnown then 1 else 0)
    + (if o.destructionStorage == 0 then 0 else 1 + w.storages - o.destructionStorage)
  }

  function BorrowHeight(b: BorrowInfo, w: Bounds): nat
    requires BorrowWithin(b, w)
  {
    1 + (match b.state case Live => 0 case Invalid => 0 case MaybeInvalid => 1 case UnknownBorrow => 2)
    + LocationHeight(b.created, w) + LocationHeight(b.invalidated, w)
  }

  ghost function StorageHeightAt(st: FlowState, w: Bounds, v: nat): nat
    requires Within(st, w)
  {
    if v in st.storages then BindingHeight(st.storages[v], w) else 0
  }

  ghost function ObjectHeightAt(st: FlowState, w: Bounds, o: nat): nat
    requires Within(st, w)
  {
    if o in st.objects then ObjectHeight(st.objects[o], w) else 0
  }

  ghost function BorrowHeightAt(st: FlowState, w: Bounds, v: nat): nat
    requires Within(st, w)
  {
    if v in st.borrows then BorrowHeight(st.borrows[v], w) else 0
  }

  ghost function SiteHeightAt(st: FlowState, w: Bounds, s: nat): nat
    requires Within(st, w)
  {
    (if s in st.generations then 1 + st.generations[s] else 0) + (if s in st.widened then 1 else 0)
  }

  ghost function PendingHeightAt(st: FlowState, w: Bounds, v: nat): nat {
    if v in st.pending then 0 else 1
  }

  ghost function SumTo(f: nat -> nat, n: nat): nat {
    if n == 0 then 0 else SumTo(f, n - 1) + f(n - 1)
  }

  lemma {:induction false} SumMonotone(f: nat -> nat, g: nat -> nat, n: nat)
    requires forall i :: 0 <= i < n ==> f(i) <= g(i)
    ensures SumTo(f, n) <= SumTo(g, n)
    ensures (exists k :: 0 <= k < n && f(k) < g(k)) ==> SumTo(f, n) < SumTo(g, n)
  {
    if n != 0 {
      SumMonotone(f, g, n - 1);
    }
  }

  lemma {:induction false} SumBounded(f: nat -> nat, n: nat, c: nat)
    requires forall i :: 0 <= i < n ==> f(i) <= c
    ensures SumTo(f, n) <= n * c
  {
    if n != 0 {
      SumBounded(f, n - 1, c);
      assert (n - 1) * c + c == n * c;
    }
  }

  ghost function StoragesProfile(st: FlowState, w: Bounds): nat -> nat
    requires Within(st, w)
  {
    (v: nat) => StorageHeightAt(st, w, v)
  }

  ghost function StoragesHeight(st: FlowState, w: Bounds): nat
    requires Within(st, w)
  {
    SumTo(StoragesProfile(st, w), w.storages)
  }

  ghost function ObjectsProfile(st: FlowState, w: Bounds): nat -> nat
    requires Within(st, w)
  {
    (o: nat) => ObjectHeightAt(st, w, o)
  }

  ghost function ObjectsHeight(st: FlowState, w: Bounds): nat
    requires Within(st, w)
  {
    SumTo(ObjectsProfile(st, w), IdBound(w))
  }

  ghost function BorrowsProfile(st: FlowState, w: Bounds): nat -> nat
    requires Within(st, w)
  {
    (v: nat) => BorrowHeightAt(st, w, v)
  }

  ghost function BorrowsHeight(st: FlowState, w: Bounds): nat
    requires Within(st, w)
  {
    SumTo(BorrowsProfile(st, w), w.storages)
  }

  ghost function SitesProfile(st: FlowState, w: Bounds): nat -> nat
    requires Within(st, w)
  {
    (s: nat) => SiteHeightAt(st, w, s)
  }

  ghost function SitesHeight(st: FlowState, w: Bounds): nat
    requires Within(st, w)
  {
    SumTo(SitesProfile(st, w), w.sites)
  }

  ghost function PendingProfile(st: FlowState, w: Bounds): nat -> nat {
    (v: nat) => PendingHeightAt(st, w, v)
  }

  ghost function PendingHeight(st: FlowState, w: Bounds): nat {
    SumTo(PendingProfile(st, w), w.storages)
  }

  ghost function HeightOf(st: FlowState, w: Bounds): nat
    requires Within(st, w)
  {
    StoragesHeight(st, w) + ObjectsHeight(st, w) + BorrowsHeight(st, w) + SitesHeight(st, w) + PendingHeight(st, w)
  }

  function HeightLimit(w: Bounds): nat {
    w.storages * (7 + w.positions) + IdBound(w) * (8 + 2 * w.positions + w.storages)
    + w.storages * (3 + 2 * w.positions) + w.sites * 3 + w.storages * 1
  }

  lemma StoragesHeightIsBounded(st: FlowState, w: Bounds)
    requires Within(st, w)
    ensures StoragesHeight(st, w) <= w.storages * (7 + w.positions)
  {
    forall v: nat ensures StorageHeightAt(st, w, v) <= 7 + w.positions {}
    SumBounded(StoragesProfile(st, w), w.storages, 7 + w.positions);
  }

  lemma ObjectsHeightIsBounded(st: FlowState, w: Bounds)
    requires Within(st, w)
    ensures ObjectsHeight(st, w) <= IdBound(w) * (8 + 2 * w.positions + w.storages)
  {
    forall o: nat ensures ObjectHeightAt(st, w, o) <= 8 + 2 * w.positions + w.storages {}
    SumBounded(ObjectsProfile(st, w), IdBound(w), 8 + 2 * w.positions + w.storages);
  }

  lemma BorrowsHeightIsBounded(st: FlowState, w: Bounds)
    requires Within(st, w)
    ensures BorrowsHeight(st, w) <= w.storages * (3 + 2 * w.positions)
  {
    forall v: nat ensures BorrowHeightAt(st, w, v) <= 3 + 2 * w.positions {}
    SumBounded(BorrowsProfile(st, w), w.storages, 3 + 2 * w.positions);
  }

  lemma OtherHeightsAreBounded(st: FlowState, w: Bounds)
    requires Within(st, w)
    ensures SitesHeight(st, w) <= w.sites * 3 && PendingHeight(st, w) <= w.storages * 1
  {
    forall s: nat ensures SiteHeightAt(st, w, s) <= 3 {}
    SumBounded(SitesProfile(st, w), w.sites, 3);
    SumBounded(PendingProfile(st, w), w.storages, 1);
  }

  lemma HeightIsBounded(st: FlowState, w: Bounds)
    requires Within(st, w)
    ensures HeightOf(st, w) <= HeightLimit(w)
  {
    StoragesHeightIsBounded(st, w);
    ObjectsHeightIsBounded(st, w);
    BorrowsHeightIsBounded(st, w);
    OtherHeightsAreBounded(st, w);
  }

  // ---------------------------------------------------------------------------------------------
  // Joining raises
  // ---------------------------------------------------------------------------------------------

  lemma JoinBindingRaises(a: Binding, b: Binding, w: Bounds)
    requires WfBinding(a) && WfBinding(b) && LocationWithin(a.where, w) && LocationWithin(b.where, w)
    ensures LocationWithin(JoinBinding(a, b).where, w)
    ensures BindingHeight(a, w) <= BindingHeight(JoinBinding(a, b), w)
    ensures JoinBinding(a, b) != a ==> BindingHeight(a, w) < BindingHeight(JoinBinding(a, b), w)
  {
  }

  lemma JoinObjectRaises(a: ObjectInfo, b: ObjectInfo, w: Bounds)
    requires WfObject(a) && WfObject(b) && ObjectWithin(a, w) && ObjectWithin(b, w)
    ensures ObjectWithin(JoinObject(a, b), w)
    ensures ObjectHeight(a, w) <= ObjectHeight(JoinObject(a, b), w)
    ensures JoinObject(a, b) != a ==> ObjectHeight(a, w) < ObjectHeight(JoinObject(a, b), w)
  {
  }

  lemma JoinBorrowRaises(a: BorrowInfo, b: BorrowInfo, w: Bounds)
    requires BorrowWithin(a, w) && BorrowWithin(b, w)
    ensures BorrowWithin(JoinBorrow(a, b), w)
    ensures BorrowHeight(a, w) <= BorrowHeight(JoinBorrow(a, b), w)
    ensures JoinBorrow(a, b) != a ==> BorrowHeight(a, w) < BorrowHeight(JoinBorrow(a, b), w)
  {
  }

  lemma StorageRaisesAt(a: FlowState, b: FlowState, w: Bounds, v: nat)
    requires Within(a, w) && Within(b, w) && Within(JoinFlow(a, b), w)
    ensures StorageHeightAt(a, w, v) <= StorageHeightAt(JoinFlow(a, b), w, v)
    ensures v in JoinFlow(a, b).storages && (v !in a.storages || JoinFlow(a, b).storages[v] != a.storages[v]) ==>
      StorageHeightAt(a, w, v) < StorageHeightAt(JoinFlow(a, b), w, v)
  {
    if v in a.storages {
      JoinBindingRaises(a.storages[v], BindingAt(b, v), w);
    }
  }

  lemma StoragesRaise(a: FlowState, b: FlowState, w: Bounds)
    requires Within(a, w) && Within(b, w) && Within(JoinFlow(a, b), w)
    ensures StoragesHeight(a, w) <= StoragesHeight(JoinFlow(a, b), w)
    ensures JoinFlow(a, b).storages != a.storages ==> StoragesHeight(a, w) < StoragesHeight(JoinFlow(a, b), w)
  {
    var j := JoinFlow(a, b);
    var f := StoragesProfile(a, w);
    var g := StoragesProfile(j, w);
    forall v: nat ensures f(v) <= g(v) {
      StorageRaisesAt(a, b, w, v);
    }
    SumMonotone(f, g, w.storages);
    if j.storages != a.storages {
      assert a.storages.Keys <= j.storages.Keys;
      var k :| k in j.storages && (k !in a.storages || j.storages[k] != a.storages[k]);
      StorageRaisesAt(a, b, w, k);
      assert f(k) < g(k);
    }
  }

  lemma ObjectRaisesAt(a: FlowState, b: FlowState, w: Bounds, o: nat)
    requires Within(a, w) && Within(b, w) && Within(JoinFlow(a, b), w)
    ensures ObjectHeightAt(a, w, o) <= ObjectHeightAt(JoinFlow(a, b), w, o)
    ensures o in JoinFlow(a, b).objects && (o !in a.objects || JoinFlow(a, b).objects[o] != a.objects[o]) ==>
      ObjectHeightAt(a, w, o) < ObjectHeightAt(JoinFlow(a, b), w, o)
  {
    if o in a.objects && o in b.objects {
      JoinObjectRaises(a.objects[o], b.objects[o], w);
    }
  }

  lemma ObjectsRaise(a: FlowState, b: FlowState, w: Bounds)
    requires Within(a, w) && Within(b, w) && Within(JoinFlow(a, b), w)
    ensures ObjectsHeight(a, w) <= ObjectsHeight(JoinFlow(a, b), w)
    ensures JoinFlow(a, b).objects != a.objects ==> ObjectsHeight(a, w) < ObjectsHeight(JoinFlow(a, b), w)
  {
    var j := JoinFlow(a, b);
    var f := ObjectsProfile(a, w);
    var g := ObjectsProfile(j, w);
    forall o: nat ensures f(o) <= g(o) {
      ObjectRaisesAt(a, b, w, o);
    }
    SumMonotone(f, g, IdBound(w));
    if j.objects != a.objects {
      assert a.objects.Keys <= j.objects.Keys;
      var k :| k in j.objects && (k !in a.objects || j.objects[k] != a.objects[k]);
      ObjectRaisesAt(a, b, w, k);
      assert f(k) < g(k);
    }
  }

  lemma BorrowRaisesAt(a: FlowState, b: FlowState, w: Bounds, v: nat)
    requires Within(a, w) && Within(b, w) && Within(JoinFlow(a, b), w)
    ensures BorrowHeightAt(a, w, v) <= BorrowHeightAt(JoinFlow(a, b), w, v)
    ensures v in JoinFlow(a, b).borrows && (v !in a.borrows || JoinFlow(a, b).borrows[v] != a.borrows[v]) ==>
      BorrowHeightAt(a, w, v) < BorrowHeightAt(JoinFlow(a, b), w, v)
  {
    if v in a.borrows && v in b.borrows {
      JoinBorrowRaises(a.borrows[v], b.borrows[v], w);
    }
  }

  lemma BorrowsRaise(a: FlowState, b: FlowState, w: Bounds)
    requires Within(a, w) && Within(b, w) && Within(JoinFlow(a, b), w)
    ensures BorrowsHeight(a, w) <= BorrowsHeight(JoinFlow(a, b), w)
    ensures JoinFlow(a, b).borrows != a.borrows ==> BorrowsHeight(a, w) < BorrowsHeight(JoinFlow(a, b), w)
  {
    var j := JoinFlow(a, b);
    var f := BorrowsProfile(a, w);
    var g := BorrowsProfile(j, w);
    forall v: nat ensures f(v) <= g(v) {
      BorrowRaisesAt(a, b, w, v);
    }
    SumMonotone(f, g, w.storages);
    if j.borrows != a.borrows {
      assert a.borrows.Keys <= j.borrows.Keys;
      var k :| k in j.borrows && (k !in a.borrows || j.borrows[k] != a.borrows[k]);
      BorrowRaisesAt(a, b, w, k);
      assert f(k) < g(k);
    }
  }

  lemma SitesRaise(a: FlowState, b: FlowState, w: Bounds)
    requires Within(a, w) && Within(b, w) && Within(JoinFlow(a, b), w)
    ensures SitesHeight(a, w) <= SitesHeight(JoinFlow(a, b), w)
    ensures JoinFlow(a, b).generations != a.generations || JoinFlow(a, b).widened != a.widened ==>
      SitesHeight(a, w) < SitesHeight(JoinFlow(a, b), w)
  {
    var j := JoinFlow(a, b);
    var f := SitesProfile(a, w);
    var g := SitesProfile(j, w);
    SumMonotone(f, g, w.sites);
    if j.generations != a.generations {
      var k :| k in j.generations && (k !in a.generations || j.generations[k] != a.generations[k]);
      assert f(k) < g(k);
    } else if j.widened != a.widened {
      var k :| k in j.widened && k !in a.widened;
      assert f(k) < g(k);
    }
  }

  lemma PendingRaise(a: FlowState, b: FlowState, w: Bounds)
    requires Within(a, w)
    ensures PendingHeight(a, w) <= PendingHeight(JoinFlow(a, b), w)
    ensures JoinFlow(a, b).pending != a.pending ==> PendingHeight(a, w) < PendingHeight(JoinFlow(a, b), w)
  {
    var j := JoinFlow(a, b);
    var f := PendingProfile(a, w);
    var g := PendingProfile(j, w);
    SumMonotone(f, g, w.storages);
    assert (forall k :: k in a.pending ==> k in j.pending) ==> j.pending == a.pending;
    if j.pending != a.pending {
      var k :| k in a.pending && k !in j.pending;
      assert f(k) < g(k);
    }
  }

  /** A join that changes the left state raises its height strictly. */
  lemma JoinRaises(a: FlowState, b: FlowState, w: Bounds)
    requires Within(a, w) && Within(b, w)
    ensures Within(JoinFlow(a, b), w)
    ensures HeightOf(a, w) <= HeightOf(JoinFlow(a, b), w)
    ensures JoinFlow(a, b) != a ==> HeightOf(a, w) < HeightOf(JoinFlow(a, b), w)
  {
    JoinWithin(a, b, w);
    StoragesRaise(a, b, w);
    ObjectsRaise(a, b, w);
    BorrowsRaise(a, b, w);
    SitesRaise(a, b, w);
    PendingRaise(a, b, w);
  }
}
