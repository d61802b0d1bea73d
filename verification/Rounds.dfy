/** The bounded whole-unit iteration: all functions of a translation unit are summarised again and again
    from the previous round's summaries, at most once more than there are functions. */
module Rounds {
  import opened Options
  import opened Syntax
  import opened Effects
  import opened Summaries
  import opened Builder

  datatype Body = Body(name: Name, defined: Defined, returnsPointer: bool)

  /** The names of a unit's functions are distinct. */
  ghost predicate Distinct(us: seq<Body>) {
    forall a, b :: 0 <= a < |us| && 0 <= b < |us| && us[a].name == us[b].name ==> a == b
  }

  function BuildOne(u: Body, store: Store): Summary { Build(u.defined, u.returnsPointer, store) }

  /** The second fixed point leaves functions with a conflict alone. */
  predicate Frozen(keep: bool, store: Store, n: Name) { keep && n in store && store[n].conflict }

  function Builds(us: seq<Body>, store: Store): (r: seq<Summary>)
    ensures |r| == |us|
  {
    seq(|us|, a requires 0 <= a < |us| => BuildOne(us[a], store))
  }

  /** The first `m` of the new summaries entered on top of `start`. */
  function Entered(us: seq<Body>, built: seq<Summary>, store: Store, keep: bool, start: Store, m: nat): Store
    requires m <= |us| == |built|
  {
    if m == 0 then start
    else
      var before := Entered(us, built, store, keep, start, m - 1);
      if Frozen(keep, store, us[m - 1].name) then before else before[us[m - 1].name := built[m - 1]]
  }

  /** One round. The first fixed point starts each round from nothing, the second from the last store. */
  function NextStore(us: seq<Body>, store: Store, keep: bool): Store {
    Entered(us, Builds(us, store), store, keep, if keep then store else map[], |us|)
  }

  function After(us: seq<Body>, store: Store, keep: bool, k: nat): Store {
    if k == 0 then store else NextStore(us, After(us, store, keep, k - 1), keep)
  }

  ghost predicate Named(us: seq<Body>, n: Name) { exists a :: 0 <= a < |us| && us[a].name == n }

  lemma {:induction false} NotEntered(us: seq<Body>, built: seq<Summary>, store: Store, keep: bool, start: Store,
      m: nat, n: Name)
    requires m <= |us| == |built| && forall a :: 0 <= a < m ==> us[a].name != n || Frozen(keep, store, n)
    ensures Find(Entered(us, built, store, keep, start, m), Some(n)) == Find(start, Some(n))
  {
    if m > 0 { NotEntered(us, built, store, keep, start, m - 1, n); }
  }

  lemma {:induction false} EnteredIs(us: seq<Body>, built: seq<Summary>, store: Store, keep: bool, start: Store, m: nat,
      a: nat)
    requires Distinct(us) && a < m <= |us| == |built| && !Frozen(keep, store, us[a].name)
    ensures Find(Entered(us, built, store, keep, start, m), Some(us[a].name)) == Some(built[a])
  {
    if a < m - 1 { EnteredIs(us, built, store, keep, start, m - 1, a); }
  }

  /** What a round makes of a name: nothing new, unless it is a function's that is not frozen. */
  lemma NextStoreElsewhere(us: seq<Body>, store: Store, keep: bool, n: Name)
    requires !Named(us, n)
    ensures Find(NextStore(us, store, keep), Some(n)) == if keep then Find(store, Some(n)) else None
  {
    NotEntered(us, Builds(us, store), store, keep, if keep then store else map[], |us|, n);
  }

  lemma NextStoreOf(us: seq<Body>, store: Store, keep: bool, a: nat)
    requires Distinct(us) && a < |us|
    ensures var n := us[a].name;
      Find(NextStore(us, store, keep), Some(n)) == if Frozen(keep, store, n) then Find(store, Some(n))
        else Some(BuildOne(us[a], store))
  {
    var built := Builds(us, store);
    var start := if keep then store else map[];
    if Frozen(keep, store, us[a].name) {
      NotEntered(us, built, store, keep, start, |us|, us[a].name);
    } else {
      EnteredIs(us, built, store, keep, start, |us|, a);
    }
  }

  // ---------------------------------------------------------------------------------------------
  // A summary depends only on the callees' summaries
  // ---------------------------------------------------------------------------------------------

  ghost predicate Calls(s: Stmt, n: Name) {
    exists call :: Occurs(call, s) && call.Call? && call.callee == Some(n)
  }

  ghost predicate AgreeOn(s: Stmt, a: Store, b: Store) {
    forall n :: Calls(s, n) ==> Find(a, Some(n)) == Find(b, Some(n))
  }

  lemma ChildAgrees(s: Stmt, c: Stmt, a: Store, b: Store)
    requires c in Children(s) && AgreeOn(s, a, b)
    ensures AgreeOn(c, a, b)
  {
    forall n | Calls(c, n) ensures Find(a, Some(n)) == Find(b, Some(n)) {
      var call :| Occurs(call, c) && call.Call? && call.callee == Some(n);
      assert Occurs(call, s);
    }
  }

  lemma CallAgrees(call: Stmt, a: Store, b: Store)
    requires call.Call? && AgreeOn(call, a, b)
    ensures Find(a, call.callee) == Find(b, call.callee)
  {
    if call.callee.Some? { assert Occurs(call, call) && Calls(call, call.callee.value); }
  }

  lemma {:induction false} StripAgrees(e: Stmt, a: Store, b: Store)
    requires AgreeOn(e, a, b)
    ensures AgreeOn(Strip(e), a, b)
  {
    if e.Cast? {
      ChildAgrees(e, e.operand, a, b);
      StripAgrees(e.operand, a, b);
    }
  }

  lemma NotesAgree(f: Function, call: Stmt, a: Store, b: Store)
    requires call.Call? && AgreeOn(call, a, b)
    ensures Notes(f, a, call) == Notes(f, b, call)
  {
    CallAgrees(call, a, b);
    forall k | 0 <= k < |call.arguments| ensures NoteOf(f, a, call, k) == NoteOf(f, b, call, k) {}
  }

  lemma OwnedInitializerAgrees(e: Stmt, a: Store, b: Store)
    requires AgreeOn(e, a, b)
    ensures OwnedInitializer(a, e) == OwnedInitializer(b, e)
  {
    StripAgrees(e, a, b);
    if Strip(e).Call? { CallAgrees(Strip(e), a, b); }
  }

  lemma {:induction false} DeclaratorIsChild(ds: seq<Declarator>, d: Declarator)
    requires d in ds && d.init.Some?
    ensures d.init.value in Initializers(ds)
  {
    if ds[0] != d {
      assert d in ds[1..];
      DeclaratorIsChild(ds[1..], d);
    }
  }

  lemma {:induction false} OwnedLocalAgrees(s: Stmt, v: nat, a: Store, b: Store)
    requires AgreeOn(s, a, b)
    ensures OwnedLocal(a, s, v) == OwnedLocal(b, s, v)
  {
    forall c | c in Children(s) ensures OwnedLocal(a, c, v) == OwnedLocal(b, c, v) {
      ChildAgrees(s, c, a, b);
      OwnedLocalAgrees(c, v, a, b);
    }
    if s.Declaration? {
      forall d | d in s.variables && d.init.Some?
        ensures OwnedInitializer(a, d.init.value) == OwnedInitializer(b, d.init.value) {
        DeclaratorIsChild(s.variables, d);
        ChildAgrees(s, d.init.value, a, b);
        OwnedInitializerAgrees(d.init.value, a, b);
      }
    }
  }

  lemma NodeAgrees(f: Function, s: Summary, node: Stmt, conditional: bool, a: Store, b: Store)
    requires AgreeOn(node, a, b) && AgreeOn(f.body, a, b)
    ensures NodeStep(f, a, s, node, conditional) == NodeStep(f, b, s, node, conditional)
  {
    if node.Call? {
      NotesAgree(f, node, a, b);
    } else if ReturnsPointer(f, node) {
      var value := node.returned.value;
      assert value in Children(node);
      ChildAgrees(node, value, a, b);
      StripAgrees(value, a, b);
      if Strip(value).Call? { CallAgrees(Strip(value), a, b); }
      if Strip(value).Variable? { OwnedLocalAgrees(f.body, Strip(value).v, a, b); }
    }
  }

  lemma {:induction false} ScanAgrees(f: Function, s: Summary, node: Stmt, conditional: bool, a: Store, b: Store)
    requires AgreeOn(node, a, b) && AgreeOn(f.body, a, b)
    ensures Scan(f, a, s, node, conditional) == Scan(f, b, s, node, conditional)
    decreases node, |Children(node)| + 1
  {
    if !ReturnsNull(f, node) {
      NodeAgrees(f, s, node, conditional, a, b);
      forall c | c in Children(node) ensures AgreeOn(c, a, b) { ChildAgrees(node, c, a, b); }
      ScanAllAgrees(f, NodeStep(f, a, s, node, conditional), node, Children(node),
        conditional || node.Branching? || node.Conditional?, a, b);
    }
  }

  lemma {:induction false} ScanAllAgrees(f: Function, s: Summary, parent: Stmt, kids: seq<Stmt>, conditional: bool,
      a: Store, b: Store)
    requires (forall c :: c in kids ==> c < parent && AgreeOn(c, a, b)) && AgreeOn(f.body, a, b)
    ensures ScanAll(f, a, s, parent, kids, conditional) == ScanAll(f, b, s, parent, kids, conditional)
    decreases parent, |kids|
  {
    if kids != [] {
      var n := |kids| - 1;
      assert kids[n] in kids && forall c :: c in kids[..n] ==> c in kids;
      ScanAllAgrees(f, s, parent, kids[..n], conditional, a, b);
      ScanAgrees(f, ScanAll(f, a, s, parent, kids[..n], conditional), kids[n], conditional, a, b);
    }
  }

  /** A function's summary changes only if some callee's has. */
  lemma ChangedCallee(u: Body, a: Store, b: Store) returns (n: Name)
    requires BuildOne(u, a) != BuildOne(u, b)
    ensures Calls(u.defined.f.body, n) && Find(a, Some(n)) != Find(b, Some(n))
  {
    var body := u.defined.f.body;
    if AgreeOn(body, a, b) {
      ScanAgrees(u.defined.f, Annotated(u.defined), body, false, a, b);
      assert false;
    }
    n :| Calls(body, n) && Find(a, Some(n)) != Find(b, Some(n));
  }

  // ---------------------------------------------------------------------------------------------
  // Acyclic units settle
  // ---------------------------------------------------------------------------------------------

  ghost predicate CallsBody(us: seq<Body>, a: nat, b: nat) {
    a < |us| && b < |us| && Calls(us[a].defined.f.body, us[b].name)
  }

  ghost predicate IsCallPath(us: seq<Body>, path: seq<nat>) {
    && path != [] && (forall j :: 0 <= j < |path| ==> path[j] < |us|)
    && (forall j :: 0 <= j < |path| - 1 ==> CallsBody(us, path[j], path[j + 1]))
  }

  /** No function calls itself, directly or through others of the unit. */
  ghost predicate Acyclic(us: seq<Body>) {
    forall path :: IsCallPath(us, path) && |path| > 1 ==> path[0] != path[|path| - 1]
  }

  /** The store that an iteration starts from: the first fixed point's knows only the unit's functions. */
  ghost predicate StartsFrom(us: seq<Body>, store: Store, keep: bool) {
    (forall a :: 0 <= a < |us| ==> us[a].name in store) && (!keep ==> forall n :: n in store ==> Named(us, n))
  }

  lemma {:induction false} AfterNames(us: seq<Body>, store: Store, keep: bool, k: nat, n: Name)
    requires StartsFrom(us, store, keep) && !Named(us, n)
    ensures Find(After(us, store, keep, k), Some(n)) == Find(store, Some(n))
  {
    if k > 0 {
      AfterNames(us, store, keep, k - 1, n);
      NextStoreElsewhere(us, After(us, store, keep, k - 1), keep, n);
    }
  }

  /** Rounds change what is known about the unit's own functions only. */
  ghost predicate OnlyNamedChange(us: seq<Body>, a: Store, b: Store) {
    forall n :: Find(a, Some(n)) != Find(b, Some(n)) ==> Named(us, n)
  }

  lemma RoundsChangeNamed(us: seq<Body>, store: Store, keep: bool, j: nat, k: nat)
    requires StartsFrom(us, store, keep)
    ensures OnlyNamedChange(us, After(us, store, keep, j), After(us, store, keep, k))
  {
    forall n | !Named(us, n)
      ensures Find(After(us, store, keep, j), Some(n)) == Find(After(us, store, keep, k), Some(n)) {
      AfterNames(us, store, keep, j, n);
      AfterNames(us, store, keep, k, n);
    }
  }

  /** If two rounds in a row make different things of a function, it was rebuilt differently. */
  lemma ChangedIsRebuilt(us: seq<Body>, before: Store, now: Store, keep: bool, a: nat)
    requires Distinct(us) && a < |us| && now == NextStore(us, before, keep)
    requires Find(now, Some(us[a].name)) != Find(NextStore(us, now, keep), Some(us[a].name))
    ensures BuildOne(us[a], before) != BuildOne(us[a], now)
  {
    NextStoreOf(us, before, keep, a);
    NextStoreOf(us, now, keep, a);
  }

  /** A summary changes in a later round only if a called function's changed in the one before. */
  lemma ChangedBefore(us: seq<Body>, before: Store, now: Store, keep: bool, a: nat) returns (b: nat)
    requires Distinct(us) && a < |us| && now == NextStore(us, before, keep)
    requires Find(now, Some(us[a].name)) != Find(NextStore(us, now, keep), Some(us[a].name))
    requires OnlyNamedChange(us, before, now)
    ensures CallsBody(us, a, b) && Find(before, Some(us[b].name)) != Find(now, Some(us[b].name))
  {
    ChangedIsRebuilt(us, before, now, keep, a);
    var n := ChangedCallee(us[a], before, now);
    b :| 0 <= b < |us| && us[b].name == n;
  }

  /** A summary that still changes in round `k + 1` sits at the start of a call path of `k` calls. */
  lemma {:induction false} Unsettled(us: seq<Body>, store: Store, keep: bool, k: nat, a: nat) returns (path: seq<nat>)
    requires Distinct(us) && StartsFrom(us, store, keep) && a < |us|
    requires Find(After(us, store, keep, k), Some(us[a].name)) != Find(After(us, store, keep, k + 1), Some(us[a].name))
    ensures IsCallPath(us, path) && path[0] == a && |path| == k + 1
  {
    if k == 0 {
      path := [a];
    } else {
      var before, now := After(us, store, keep, k - 1), After(us, store, keep, k);
      RoundsChangeNamed(us, store, keep, k - 1, k);
      var b := ChangedBefore(us, before, now, keep, a);
      var rest := Unsettled(us, store, keep, k - 1, b);
      path := [a] + rest;
      PathExtends(us, a, rest);
    }
  }

  lemma PathExtends(us: seq<Body>, a: nat, rest: seq<nat>)
    requires IsCallPath(us, rest) && CallsBody(us, a, rest[0])
    ensures IsCallPath(us, [a] + rest)
  {
    var path := [a] + rest;
    forall j | 0 <= j < |path| - 1 ensures CallsBody(us, path[j], path[j + 1]) {
      if j > 0 { assert CallsBody(us, rest[j - 1], rest[j - 1 + 1]); }
    }
  }

  lemma {:induction false} DistinctElements(s: seq<nat>, n: nat)
    requires (forall j :: 0 <= j < |s| ==> s[j] < n) && forall i, j :: 0 <= i < j < |s| ==> s[i] != s[j]
    ensures |s| <= n
  {
    if s != [] {
      assert s[0] < n;
      if k :| 0 <= k < |s| && s[k] == n - 1 {
        DistinctElements(s[..k] + s[k + 1..], n - 1);
      } else {
        DistinctElements(s, n - 1);
      }
    }
  }

  lemma LongPathsCycle(us: seq<Body>, path: seq<nat>)
    requires IsCallPath(us, path) && |path| > |us|
    ensures !Acyclic(us)
  {
    if forall i, j :: 0 <= i < j < |path| ==> path[i] != path[j] {
      DistinctElements(path, |us|);
    }
    var i, j :| 0 <= i < j < |path| && path[i] == path[j];
    var cycle := path[i..j + 1];
    forall l | 0 <= l < |cycle| - 1 ensures CallsBody(us, cycle[l], cycle[l + 1]) {
      assert CallsBody(us, path[i + l], path[i + l + 1]);
    }
    assert IsCallPath(us, cycle) && cycle[0] == cycle[|cycle| - 1];
  }

  /** On an acyclic unit of `n` functions, round `n + 1` changes nothing. */
  lemma Settles(us: seq<Body>, store: Store, keep: bool)
    requires Distinct(us) && StartsFrom(us, store, keep) && Acyclic(us)
    ensures After(us, store, keep, |us| + 1) == After(us, store, keep, |us|)
  {
    var a, b := After(us, store, keep, |us|), After(us, store, keep, |us| + 1);
    forall n ensures Find(a, Some(n)) == Find(b, Some(n)) {
      if Named(us, n) {
        var m :| 0 <= m < |us| && us[m].name == n;
        if Find(a, Some(n)) != Find(b, Some(n)) {
          var path := Unsettled(us, store, keep, |us|, m);
          LongPathsCycle(us, path);
        }
      } else {
        AfterNames(us, store, keep, |us|, n);
        AfterNames(us, store, keep, |us| + 1, n);
      }
    }
    SameFinds(a, b);
  }

  lemma SameFinds(a: Store, b: Store)
    requires forall n :: Find(a, Some(n)) == Find(b, Some(n))
    ensures a == b
  {
    forall n ensures n in a <==> n in b { assert Find(a, Some(n)) == Find(b, Some(n)); }
    forall n | n in a ensures a[n] == b[n] { assert Find(a, Some(n)) == Find(b, Some(n)); }
  }

  /** Rebuilding any function from the store gives what the store holds. */
  ghost predicate Stable(us: seq<Body>, store: Store, keep: bool) {
    forall a :: 0 <= a < |us| ==> IsRebuilt(us, store, keep, a)
  }

  ghost predicate IsRebuilt(us: seq<Body>, store: Store, keep: bool, a: nat)
    requires a < |us|
  {
    us[a].name in store && (Frozen(keep, store, us[a].name) || store[us[a].name] == BuildOne(us[a], store))
  }

  lemma FixedIsStable(us: seq<Body>, store: Store, keep: bool)
    requires Distinct(us) && NextStore(us, store, keep) == store
    ensures Stable(us, store, keep)
  {
    forall a | 0 <= a < |us| ensures IsRebuilt(us, store, keep, a) {
      NextStoreOf(us, store, keep, a);
    }
  }

  /** Every function of the unit with nothing known about it. */
  function AllUnknown(us: seq<Body>): Store {
    if us == [] then map[]
    else
      var u := us[|us| - 1];
      var unknown := Summary(UnknownReturn, None, seq(|u.defined.f.params|, _ => UnknownEffect), false);
      AllUnknown(us[..|us| - 1])[u.name := unknown]
  }

  lemma {:induction false} AllUnknownStarts(us: seq<Body>)
    ensures StartsFrom(us, AllUnknown(us), false)
  {
    if us != [] {
      var m := |us| - 1;
      AllUnknownStarts(us[..m]);
      forall a | 0 <= a < |us| ensures us[a].name in AllUnknown(us) {
        if a < m { assert us[..m][a].name in AllUnknown(us[..m]); }
      }
      forall n | n in AllUnknown(us) ensures Named(us, n) {
        if n != us[m].name {
          assert Named(us[..m], n);
          var a :| 0 <= a < |us[..m]| && us[..m][a].name == n;
          assert us[a].name == n;
        }
      }
    }
  }

  ghost predicate AllAnnotated(us: seq<Body>) { forall a :: 0 <= a < |us| ==> WellAnnotated(us[a].defined) }

  lemma EnterNext(us: seq<Body>, built: seq<Summary>, store: Store, keep: bool, start: Store, m: nat)
    requires m < |us| == |built|
    ensures var before := Entered(us, built, store, keep, start, m);
      Entered(us, built, store, keep, start, m + 1) ==
        if Frozen(keep, store, us[m].name) then before else before[us[m].name := built[m]]
  {
  }

  method EnterRebuilt(u: Body, store: Store, keep: bool, next0: Store) returns (next: Store)
    requires WellAnnotated(u.defined)
    ensures next == if Frozen(keep, store, u.name) then next0 else next0[u.name := BuildOne(u, store)]
  {
    next := next0;
    if !Frozen(keep, store, u.name) {
      var builder := new SummaryBuilder(u.defined, store);
      var summary := builder.BuildSummary(u.returnsPointer);
      next := next[u.name := summary];
    }
  }

  method Round(us: seq<Body>, store: Store, keep: bool) returns (next: Store)
    requires AllAnnotated(us)
    ensures next == NextStore(us, store, keep)
  {
    next := if keep then store else map[];
    ghost var start, built := next, Builds(us, store);
    for m := 0 to |us|
      invariant next == Entered(us, built, store, keep, start, m)
    {
      EnterNext(us, built, store, keep, start, m);
      next := EnterRebuilt(us[m], store, keep, next);
    }
  }

  /** A round that changes nothing is followed by none that does. */
  lemma {:induction false} StaysFixed(us: seq<Body>, store0: Store, keep: bool, k: nat, n: nat)
    requires k <= n && NextStore(us, After(us, store0, keep, k), keep) == After(us, store0, keep, k)
    ensures After(us, store0, keep, n) == After(us, store0, keep, k)
    decreases n
  {
    if k < n { StaysFixed(us, store0, keep, k, n - 1); }
  }

  /** After `round` rounds. */
  ghost predicate Reached(us: seq<Body>, store0: Store, keep: bool, store: Store, stable: bool, round: nat) {
    && round <= |us| + 1 && store == After(us, store0, keep, round)
    && (stable ==> round > 0 && After(us, store0, keep, round - 1) == store)
    && (!stable && round == |us| + 1 ==> After(us, store0, keep, |us|) != store)
  }

  lemma ReachedNext(us: seq<Body>, store0: Store, keep: bool, store: Store, round: nat)
    requires round < |us| + 1 && Reached(us, store0, keep, store, false, round)
    ensures var next := NextStore(us, store, keep); Reached(us, store0, keep, next, next == store, round + 1)
  {
  }

  lemma ReachedEnd(us: seq<Body>, store0: Store, keep: bool, store: Store, stable: bool, round: nat)
    requires Distinct(us) && StartsFrom(us, store0, keep) && Reached(us, store0, keep, store, stable, round)
    requires stable || round == |us| + 1
    ensures store == After(us, store0, keep, |us| + 1) && (stable <==> After(us, store0, keep, |us|) == store)
    ensures (stable ==> Stable(us, store, keep)) && (Acyclic(us) ==> stable)
  {
    if stable {
      assert NextStore(us, store, keep) == store;
      StaysFixed(us, store0, keep, round - 1, |us|);
      StaysFixed(us, store0, keep, round - 1, |us| + 1);
      FixedIsStable(us, store, keep);
    } else if Acyclic(us) {
      Settles(us, store0, keep);
      assert false;
    }
  }

  /** One of the two fixed points: what comes of one round more than there are functions. It is stable
      exactly if the last of these changes nothing, as it does if the call graph is acyclic. */
  method Iterate(us: seq<Body>, store0: Store, keep: bool) returns (store: Store, stable: bool)
    requires Distinct(us) && AllAnnotated(us) && StartsFrom(us, store0, keep)
    ensures store == After(us, store0, keep, |us| + 1) && (stable <==> After(us, store0, keep, |us|) == store)
    ensures stable ==> Stable(us, store, keep)
    ensures Acyclic(us) ==> stable
  {
    store, stable := store0, false;
    var round := 0;
    while round < |us| + 1 && !stable
      invariant 0 <= round && Reached(us, store0, keep, store, stable, round)
    {
      var next := Round(us, store, keep);
      ReachedNext(us, store0, keep, store, round);
      stable := next == store;
      store := next;
      round := round + 1;
    }
    ReachedEnd(us, store0, keep, store, stable, round);
  }
}
