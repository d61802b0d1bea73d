/** What the result in a summary means: every returned pointer says something about it, and together they
    decide whether it is owned, borrowed, unknown, or in conflict. */
module Results {
  import opened Options
  import opened Effects
  import opened Syntax
  import opened Origins
  import opened Summaries
  import opened SummaryFacts

  // ---------------------------------------------------------------------------------------------
  // The returns of a body
  // ---------------------------------------------------------------------------------------------

  /** A returned pointer that is not null, and the summary so far, when the scan comes to it. */
  datatype Visited = Visited(ret: Stmt, sofar: Summary)

  /** In the order of the scan. */
  function ReturnsIn(f: Function, store: Store, s: Summary, node: Stmt, conditional: bool): seq<Visited>
    decreases node, |Children(node)| + 1
  {
    if ReturnsNull(f, node) then []
    else
      Here(f, s, node) +
      ReturnsOfAll(f, store, NodeStep(f, store, s, node, conditional), node, Children(node),
        conditional || node.Branching? || node.Conditional?)
  }

  function ReturnsOfAll(f: Function, store: Store, s: Summary, ghost parent: Stmt, kids: seq<Stmt>,
      conditional: bool): seq<Visited>
    requires forall c :: c in kids ==> c < parent
    decreases parent, |kids|
  {
    if kids == [] then []
    else
      var n := |kids| - 1;
      assert kids[n] in kids && forall c :: c in kids[..n] ==> c in kids;
      ReturnsOfAll(f, store, s, parent, kids[..n], conditional) +
      ReturnsIn(f, store, ScanAll(f, store, s, parent, kids[..n], conditional), kids[n], conditional)
  }

  function Visits(d: Defined, store: Store): seq<Visited> {
    ReturnsIn(d.f, store, Annotated(d), d.f.body, false)
  }

  predicate IsVisit(vs: seq<Visited>, ret: Stmt) { exists k :: 0 <= k < |vs| && vs[k].ret == ret }

  predicate Sought(f: Function, ret: Stmt) { ReturnsPointer(f, ret) && !ReturnsNull(f, ret) }

  ghost predicate OccursIn(ret: Stmt, kids: seq<Stmt>) { exists c :: c in kids && Occurs(ret, c) }

  lemma NullHasNoReturn(f: Function, node: Stmt, ret: Stmt)
    requires ReturnsNull(f, node)
    ensures !(Occurs(ret, node) && Sought(f, ret))
  {
    if Occurs(ret, node) && ret != node {
      var c :| c in Children(node) && Occurs(ret, c);
      NoReturnInNull(node.returned.value, ret);
    }
  }

  function Here(f: Function, s: Summary, node: Stmt): seq<Visited> {
    if ReturnsPointer(f, node) then [Visited(node, s)] else []
  }

  lemma OccursNode(node: Stmt, ret: Stmt)
    ensures Occurs(ret, node) <==> ret == node || OccursIn(ret, Children(node))
  {
  }

  lemma VisitHere(f: Function, s: Summary, node: Stmt, ret: Stmt)
    ensures IsVisit(Here(f, s, node), ret) <==> ret == node && ReturnsPointer(f, node)
  {
    if ReturnsPointer(f, node) { assert Here(f, s, node)[0].ret == node; }
  }

  lemma VisitNode(f: Function, s: Summary, node: Stmt, below: seq<Visited>, ret: Stmt)
    requires !ReturnsNull(f, node) && (IsVisit(below, ret) <==> OccursIn(ret, Children(node)) && Sought(f, ret))
    ensures IsVisit(Here(f, s, node) + below, ret) <==> Occurs(ret, node) && Sought(f, ret)
  {
    VisitHere(f, s, node, ret);
    EitherVisit(Here(f, s, node), below, ret);
    OccursNode(node, ret);
  }

  /** The visits are the returns in the body of pointers that are not null. */
  lemma {:induction false} VisitsExactly(f: Function, store: Store, s: Summary, node: Stmt, conditional: bool,
      ret: Stmt)
    ensures IsVisit(ReturnsIn(f, store, s, node, conditional), ret) <==> Occurs(ret, node) && Sought(f, ret)
    decreases node, |Children(node)| + 1
  {
    if ReturnsNull(f, node) {
      NullHasNoReturn(f, node, ret);
    } else {
      var inner := conditional || node.Branching? || node.Conditional?;
      var s1 := NodeStep(f, store, s, node, conditional);
      VisitsOfAllExactly(f, store, s1, node, Children(node), inner, ret);
      VisitNode(f, s, node, ReturnsOfAll(f, store, s1, node, Children(node), inner), ret);
    }
  }

  lemma EitherVisit(a: seq<Visited>, b: seq<Visited>, ret: Stmt)
    ensures IsVisit(a + b, ret) <==> IsVisit(a, ret) || IsVisit(b, ret)
  {
    if k :| 0 <= k < |b| && b[k].ret == ret { assert (a + b)[|a| + k] == b[k]; }
    if k :| 0 <= k < |a| && a[k].ret == ret { assert (a + b)[k] == a[k]; }
  }

  lemma {:induction false} VisitsOfAllExactly(f: Function, store: Store, s: Summary, parent: Stmt, kids: seq<Stmt>,
      conditional: bool, ret: Stmt)
    requires forall c :: c in kids ==> c < parent
    ensures IsVisit(ReturnsOfAll(f, store, s, parent, kids, conditional), ret) <==>
      OccursIn(ret, kids) && Sought(f, ret)
    decreases parent, |kids|
  {
    if kids != [] {
      var n := |kids| - 1;
      assert kids[n] in kids && forall c :: c in kids[..n] ==> c in kids;
      assert forall c :: c in kids ==> c in kids[..n] || c == kids[n];
      var before := ScanAll(f, store, s, parent, kids[..n], conditional);
      VisitsOfAllExactly(f, store, s, parent, kids[..n], conditional, ret);
      VisitsExactly(f, store, before, kids[n], conditional, ret);
      EitherVisit(ReturnsOfAll(f, store, s, parent, kids[..n], conditional),
        ReturnsIn(f, store, before, kids[n], conditional), ret);
    }
  }

  // ---------------------------------------------------------------------------------------------
  // What one return says
  // ---------------------------------------------------------------------------------------------

  /** A direct call of an allocator, or of a function whose summary says that its result is owned. */
  predicate GivesOwned(store: Store, e: Stmt) {
    && e.Call? && e.callee.Some?
    && (e.callee.value == Malloc || e.callee.value == Calloc ||
        (e.callee.value in store && store[e.callee.value].result == Owned))
  }

  /** Some declaration in the body gives the variable such a call as its initial value. */
  ghost predicate StartsOwned(store: Store, body: Stmt, v: nat) {
    exists node, d :: Occurs(node, body) && node.Declaration? && d in node.variables && StartsSo(store, d, v)
  }

  predicate StartsSo(store: Store, d: Declarator, v: nat) {
    d.v == v && d.init.Some? && GivesOwned(store, Strip(d.init.value))
  }

  lemma {:induction false} OwnedLocalStarts(store: Store, s: Stmt, v: nat) returns (node: Stmt, d: Declarator)
    requires OwnedLocal(store, s, v)
    ensures Occurs(node, s) && node.Declaration? && d in node.variables && StartsSo(store, d, v)
    decreases s
  {
    if s.Declaration? && exists d :: d in s.variables && StartsSo(store, d, v) {
      node := s;
      d :| d in s.variables && StartsSo(store, d, v);
    } else {
      var c :| c in Children(s) && OwnedLocal(store, c, v);
      node, d := OwnedLocalStarts(store, c, v);
    }
  }

  lemma {:induction false} StartIsOwnedLocal(store: Store, s: Stmt, v: nat, node: Stmt, d: Declarator)
    requires Occurs(node, s) && node.Declaration? && d in node.variables && StartsSo(store, d, v)
    ensures OwnedLocal(store, s, v)
    decreases s
  {
    if node != s {
      var c :| c in Children(s) && Occurs(node, c);
      StartIsOwnedLocal(store, c, v, node, d);
    }
  }

  lemma OwnedLocalExactly(store: Store, s: Stmt, v: nat)
    ensures OwnedLocal(store, s, v) <==> StartsOwned(store, s, v)
  {
    if OwnedLocal(store, s, v) {
      var node, d := OwnedLocalStarts(store, s, v);
    } else if StartsOwned(store, s, v) {
      var node, d :| Occurs(node, s) && node.Declaration? && d in node.variables && StartsSo(store, d, v);
      StartIsOwnedLocal(store, s, v, node, d);
    }
  }

  /** Parameter `i`, never assigned, is all that the value can come from, as far as the resolver sees. */
  predicate OfParameter(f: Function, value: Stmt, i: nat) {
    BorrowedParameter(f, value) == Some(i) && !AssignsParameter(f, f.body, i)
  }

  predicate OfNoParameter(f: Function, value: Stmt) { BorrowedParameter(f, value).None? }

  /** The function has taken the parameter over by then. */
  predicate TakenOver(s: Summary, i: nat) { i < |s.params| && s.params[i] == TakesOwnership }

  /** The returned pointer is the caller's to free: fresh from an allocation, or a parameter that the
      function has taken over. */
  ghost predicate OwnedReturn(f: Function, store: Store, v: Visited)
    requires ReturnsPointer(f, v.ret)
  {
    var value := Strip(v.ret.returned.value);
    || (exists i: nat :: OfParameter(f, value, i) && TakenOver(v.sofar, i))
    || (OfNoParameter(f, value) && GivesOwned(store, value))
    || (OfNoParameter(f, value) && value.Variable? && StartsOwned(store, f.body, value.v) &&
          !AssignsVariable(f.body, value.v))
  }

  /** A call of a function that, as its summary says, returns no pointer. */
  predicate SilentReturn(f: Function, store: Store, v: Visited)
    requires ReturnsPointer(f, v.ret)
  {
    var value := Strip(v.ret.returned.value);
    && OfNoParameter(f, value) && value.Call? && value.callee.Some? && value.callee.value !in {Malloc, Calloc}
    && value.callee.value in store && store[value.callee.value].result == NoReturn
  }

  /** The returned pointer is borrowed: from a parameter that has not been taken over, directly or through
      a call that borrows from an argument which is such a parameter. A call whose summary names no
      argument that is there is believed as it stands. */
  ghost predicate BorrowedReturn(f: Function, store: Store, v: Visited, from: Option<nat>)
    requires ReturnsPointer(f, v.ret)
  {
    var value := Strip(v.ret.returned.value);
    || (exists i: nat :: from == Some(i) && OfParameter(f, value, i) && !TakenOver(v.sofar, i))
    || (OfNoParameter(f, value) && BorrowingCall(store, value) &&
      HandedThrough(f, store[value.callee.value], value, from))
  }

  predicate BorrowingCall(store: Store, e: Stmt) {
    && e.Call? && e.callee.Some? && e.callee.value !in {Malloc, Calloc}
    && e.callee.value in store && store[e.callee.value].result == BorrowFromArg
  }

  predicate HandedThrough(f: Function, callee: Summary, call: Stmt, from: Option<nat>)
    requires call.Call?
  {
    if callee.borrowArg.Some? && callee.borrowArg.value < |call.arguments| then
      from.Some? && ParameterIndex(f, call.arguments[callee.borrowArg.value]) == from &&
      !AssignsParameter(f, f.body, from.value)
    else from == callee.borrowArg
  }

  function Said(f: Function, store: Store, v: Visited): Returned
    requires ReturnsPointer(f, v.ret)
  {
    ValueReturned(f, store, v.sofar, Strip(v.ret.returned.value))
  }

  lemma OwnedSaid(f: Function, store: Store, v: Visited)
    requires ReturnsPointer(f, v.ret)
    ensures Said(f, store, v).effect == Owned <==> OwnedReturn(f, store, v)
    ensures Said(f, store, v).effect == NoReturn <==> SilentReturn(f, store, v)
  {
    var value := Strip(v.ret.returned.value);
    if value.Variable? { OwnedLocalExactly(store, f.body, value.v); }
    var p := BorrowedParameter(f, value);
    if p.Some? { assert OfParameter(f, value, p.value) <==> !AssignsParameter(f, f.body, p.value); }
  }

  lemma BorrowedSaid(f: Function, store: Store, v: Visited, from: Option<nat>)
    requires ReturnsPointer(f, v.ret)
    ensures Said(f, store, v) == Returned(BorrowFromArg, from) <==> BorrowedReturn(f, store, v, from)
  {
    var value := Strip(v.ret.returned.value);
    var p := BorrowedParameter(f, value);
    if p.Some? { assert OfParameter(f, value, p.value) <==> !AssignsParameter(f, f.body, p.value); }
  }

  // ---------------------------------------------------------------------------------------------
  // What the returns say together
  // ---------------------------------------------------------------------------------------------

  /** Every visit is of a return of a pointer. */
  ghost predicate Pointers(f: Function, vs: seq<Visited>) { forall k :: 0 <= k < |vs| ==> ReturnsPointer(f, vs[k].ret) }

  function Combined(f: Function, store: Store, s: Summary, vs: seq<Visited>): Summary
    requires Pointers(f, vs)
  {
    if vs == [] then s
    else
      var n := |vs| - 1;
      CombineReturn(Combined(f, store, s, vs[..n]), Said(f, store, vs[n]))
  }

  /** The result so far, and the conflict. */
  datatype Outcome = Outcome(result: ReturnEffect, borrowArg: Option<nat>, conflict: bool)

  function OutcomeOf(s: Summary): Outcome { Outcome(s.result, s.borrowArg, s.conflict) }

  predicate Reallocates(node: Stmt) { node.Call? && node.callee == Some(Realloc) }

  ghost predicate ReallocatesIn(s: Stmt)
    decreases s
  {
    Reallocates(s) || exists c :: c in Children(s) && ReallocatesIn(c)
  }

  /** A reallocation is a conflict in itself. */
  function Spoiled(o: Outcome, realloc: bool): Outcome { o.(conflict := o.conflict || realloc) }

  lemma CombinedNext(f: Function, store: Store, s: Summary, vs: seq<Visited>, v: Visited)
    requires Pointers(f, vs) && ReturnsPointer(f, v.ret)
    ensures Pointers(f, vs + [v])
    ensures Combined(f, store, s, vs + [v]) == CombineReturn(Combined(f, store, s, vs), Said(f, store, v))
  {
    assert (vs + [v])[..|vs + [v]| - 1] == vs;
  }

  lemma {:induction false} CombinedBoth(f: Function, store: Store, s: Summary, a: seq<Visited>, b: seq<Visited>)
    requires Pointers(f, a) && Pointers(f, b)
    ensures Pointers(f, a + b) && Combined(f, store, s, a + b) == Combined(f, store, Combined(f, store, s, a), b)
    decreases |b|
  {
    if b == [] {
      assert a + b == a;
    } else {
      var init, last := b[..|b| - 1], b[|b| - 1];
      CombinedBoth(f, store, s, a, init);
      CombinedNext(f, store, s, a + init, last);
      CombinedNext(f, store, Combined(f, store, s, a), init, last);
      assert a + b == a + init + [last] && b == init + [last];
    }
  }

  /** Combining looks at the result and the conflict only, and a conflict does not change the result. */
  lemma OneOutcome(s: Summary, t: Summary, realloc: bool, v: Returned)
    requires OutcomeOf(t) == Spoiled(OutcomeOf(s), realloc)
    ensures OutcomeOf(CombineReturn(t, v)) == Spoiled(OutcomeOf(CombineReturn(s, v)), realloc)
  {
  }

  lemma {:induction false} CombinedOutcome(f: Function, store: Store, s: Summary, t: Summary, realloc: bool,
      vs: seq<Visited>)
    requires Pointers(f, vs) && OutcomeOf(t) == Spoiled(OutcomeOf(s), realloc)
    ensures OutcomeOf(Combined(f, store, t, vs)) == Spoiled(OutcomeOf(Combined(f, store, s, vs)), realloc)
    decreases |vs|
  {
    if vs != [] {
      var init, last := vs[..|vs| - 1], vs[|vs| - 1];
      CombinedOutcome(f, store, s, t, realloc, init);
      OneOutcome(Combined(f, store, s, init), Combined(f, store, t, init), realloc, Said(f, store, last));
    }
  }

  lemma CombinedOne(f: Function, store: Store, s: Summary, v: Visited)
    requires ReturnsPointer(f, v.ret)
    ensures Pointers(f, [v]) && Combined(f, store, s, [v]) == CombineReturn(s, Said(f, store, v))
  {
    assert [v][..0] == [];
  }

  ghost predicate OutcomeIs(f: Function, store: Store, s: Summary, vs: seq<Visited>, realloc: bool, r: Summary) {
    Pointers(f, vs) && OutcomeOf(r) == Spoiled(OutcomeOf(Combined(f, store, s, vs)), realloc)
  }

  lemma NodeOutcome(f: Function, store: Store, s: Summary, node: Stmt, conditional: bool)
    ensures OutcomeIs(f, store, s, Here(f, s, node), Reallocates(node), NodeStep(f, store, s, node, conditional))
  {
    match node
    case Call(_, _, _) => NotesKeepResult(s, Notes(f, store, node), conditional);
    case Declaration(ds) => FlowsKeepResult(f, s, ds);
    case Return(_) => if ReturnsPointer(f, node) { CombinedOne(f, store, s, Visited(node, s)); }
    case _ =>
  }

  lemma {:induction false} NullReallocatesNothing(e: Stmt)
    requires Strip(e).Zero?
    ensures !ReallocatesIn(e)
  {
    if e.Cast? { NullReallocatesNothing(e.operand); }
  }

  ghost predicate SomeReallocates(kids: seq<Stmt>) { exists c :: c in kids && ReallocatesIn(c) }

  lemma ReallocatesNode(node: Stmt)
    ensures ReallocatesIn(node) <==> Reallocates(node) || SomeReallocates(Children(node))
  {
  }

  /** What a scan goes through below a node. */
  lemma ScanUnfolds(f: Function, store: Store, s: Summary, node: Stmt, conditional: bool, s1: Summary, inner: bool)
    requires !ReturnsNull(f, node) && s1 == NodeStep(f, store, s, node, conditional)
    requires inner == (conditional || node.Branching? || node.Conditional?)
    ensures Scan(f, store, s, node, conditional) == ScanAll(f, store, s1, node, Children(node), inner)
    ensures ReturnsIn(f, store, s, node, conditional) ==
      Here(f, s, node) + ReturnsOfAll(f, store, s1, node, Children(node), inner)
  {
  }

  /** The scan's result is what the returns in its tree say together. */
  lemma {:induction false} ScanOutcome(f: Function, store: Store, s: Summary, node: Stmt, conditional: bool)
    ensures OutcomeIs(f, store, s, ReturnsIn(f, store, s, node, conditional), ReallocatesIn(node),
      Scan(f, store, s, node, conditional))
    decreases node, |Children(node)| + 1
  {
    ReallocatesNode(node);
    if ReturnsNull(f, node) {
      NullReallocatesNothing(node.returned.value);
    } else {
      var s1, inner := NodeStep(f, store, s, node, conditional), conditional || node.Branching? || node.Conditional?;
      var kids := Children(node);
      NodeOutcome(f, store, s, node, conditional);
      ScanAllOutcome(f, store, s1, node, kids, inner);
      ScanUnfolds(f, store, s, node, conditional, s1, inner);
      OutcomeThen(f, store, s, Here(f, s, node), Reallocates(node), s1, ReturnsOfAll(f, store, s1, node, kids, inner),
        SomeReallocates(kids), ScanAll(f, store, s1, node, kids, inner));
    }
  }

  /** One part of a scan after another. */
  lemma OutcomeThen(f: Function, store: Store, s: Summary, a: seq<Visited>, x: bool, mid: Summary, b: seq<Visited>,
      y: bool,
      r: Summary)
    requires OutcomeIs(f, store, s, a, x, mid) && OutcomeIs(f, store, mid, b, y, r)
    ensures OutcomeIs(f, store, s, a + b, x || y, r)
  {
    CombinedBoth(f, store, s, a, b);
    CombinedOutcome(f, store, Combined(f, store, s, a), mid, x, b);
  }

  lemma {:induction false} ScanAllOutcome(f: Function, store: Store, s: Summary, parent: Stmt, kids: seq<Stmt>,
      conditional: bool)
    requires forall c :: c in kids ==> c < parent
    ensures OutcomeIs(f, store, s, ReturnsOfAll(f, store, s, parent, kids, conditional), SomeReallocates(kids),
      ScanAll(f, store, s, parent, kids, conditional))
    decreases parent, |kids|
  {
    if kids != [] {
      var n := |kids| - 1;
      assert kids[n] in kids && forall c :: c in kids[..n] ==> c in kids;
      assert forall c :: c in kids ==> c in kids[..n] || c == kids[n];
      var before := ScanAll(f, store, s, parent, kids[..n], conditional);
      ScanAllOutcome(f, store, s, parent, kids[..n], conditional);
      ScanOutcome(f, store, before, kids[n], conditional);
      OutcomeThen(f, store, s, ReturnsOfAll(f, store, s, parent, kids[..n], conditional), SomeReallocates(kids[..n]),
        before, ReturnsIn(f, store, before, kids[n], conditional), ReallocatesIn(kids[n]),
        ScanAll(f, store, s, parent, kids, conditional));
      assert SomeReallocates(kids) <==> SomeReallocates(kids[..n]) || ReallocatesIn(kids[n]);
    }
  }

  predicate Agrees(a: Returned, b: Returned) {
    a.effect == b.effect && (a.effect == BorrowFromArg ==> a.borrow == b.borrow)
  }

  predicate Speaks(f: Function, store: Store, v: Visited)
    requires ReturnsPointer(f, v.ret)
  {
    !SilentReturn(f, store, v)
  }

  /** Two returns that say different things. */
  predicate Disagree(f: Function, store: Store, v: Visited, w: Visited)
    requires ReturnsPointer(f, v.ret) && ReturnsPointer(f, w.ret)
  {
    Speaks(f, store, v) && Speaks(f, store, w) && !Agrees(Said(f, store, v), Said(f, store, w))
  }

  ghost predicate SomeDisagree(f: Function, store: Store, vs: seq<Visited>)
    requires Pointers(f, vs)
  {
    exists v, w :: v in vs && w in vs && Disagree(f, store, v, w)
  }

  function ResultOf(s: Summary): Returned { Returned(s.result, s.borrowArg) }

  /** Nothing said otherwise. */
  ghost predicate AllAgree(f: Function, store: Store, vs: seq<Visited>, r: Returned)
    requires Pointers(f, vs)
  {
    forall v :: v in vs && Speaks(f, store, v) ==> Agrees(r, Said(f, store, v))
  }

  ghost predicate SomeSpeaks(f: Function, store: Store, vs: seq<Visited>)
    requires Pointers(f, vs)
  {
    exists v :: v in vs && Speaks(f, store, v)
  }

  lemma OneSaid(f: Function, store: Store, s: Summary, v: Visited)
    requires ReturnsPointer(f, v.ret)
    ensures var r := CombineReturn(s, Said(f, store, v));
      if !Speaks(f, store, v) then r == s
      else if s.result == NoReturn then ResultOf(r) == Said(f, store, v) && r.conflict == s.conflict
      else ResultOf(r) == ResultOf(s) && (r.conflict <==> s.conflict || !Agrees(ResultOf(s), Said(f, store, v)))
    ensures Speaks(f, store, v) ==> Said(f, store, v).effect != NoReturn
  {
    OwnedSaid(f, store, v);
  }

  /** If a result is there to start with, it stays, and whatever is said otherwise is a conflict. */
  lemma {:induction false} CombinedOntoResult(f: Function, store: Store, s: Summary, vs: seq<Visited>)
    requires Pointers(f, vs) && s.result != NoReturn
    ensures var r := Combined(f, store, s, vs);
      ResultOf(r) == ResultOf(s) && (r.conflict <==> s.conflict || !AllAgree(f, store, vs, ResultOf(s)))
    decreases |vs|
  {
    if vs != [] {
      var init, last := vs[..|vs| - 1], vs[|vs| - 1];
      assert vs == init + [last] && last in vs;
      CombinedOntoResult(f, store, s, init);
      OneSaid(f, store, Combined(f, store, s, init), last);
      assert AllAgree(f, store, vs, ResultOf(s)) <==>
        AllAgree(f, store, init, ResultOf(s)) && (Speaks(f, store, last) ==> Agrees(ResultOf(s), Said(f, store, last)));
    }
  }

  /** Otherwise the first return that says anything decides, and the others must agree. */
  lemma {:induction false} CombinedFromNothing(f: Function, store: Store, s: Summary, vs: seq<Visited>)
    requires Pointers(f, vs) && s.result == NoReturn
    ensures var r := Combined(f, store, s, vs);
      && (if SomeSpeaks(f, store, vs) then
            exists v :: v in vs && Speaks(f, store, v) && ResultOf(r) == Said(f, store, v)
          else ResultOf(r) == ResultOf(s))
      && (r.conflict <==> s.conflict || (SomeSpeaks(f, store, vs) && !AllAgree(f, store, vs, ResultOf(r))))
      && (SomeSpeaks(f, store, vs) ==> r.result != NoReturn)
    decreases |vs|
  {
    if vs != [] {
      var init, last := vs[..|vs| - 1], vs[|vs| - 1];
      assert vs == init + [last] && last in vs;
      CombinedFromNothing(f, store, s, init);
      var before := Combined(f, store, s, init);
      var r := Combined(f, store, s, vs);
      OneSaid(f, store, before, last);
      assert SomeSpeaks(f, store, vs) <==> SomeSpeaks(f, store, init) || Speaks(f, store, last);
      assert AllAgree(f, store, vs, ResultOf(r)) <==>
        AllAgree(f, store, init, ResultOf(r)) && (Speaks(f, store, last) ==> Agrees(ResultOf(r), Said(f, store, last)));
    }
  }

  /** Agreeing with one of them is agreeing with each other. */
  lemma AgreeTogether(f: Function, store: Store, vs: seq<Visited>, v: Visited)
    requires Pointers(f, vs) && v in vs && Speaks(f, store, v)
    ensures AllAgree(f, store, vs, Said(f, store, v)) <==> !SomeDisagree(f, store, vs)
  {
    if SomeDisagree(f, store, vs) {
      var a, b :| a in vs && b in vs && Disagree(f, store, a, b);
      assert !(Agrees(Said(f, store, v), Said(f, store, a)) && Agrees(Said(f, store, v), Said(f, store, b)));
    } else {
      forall w | w in vs && Speaks(f, store, w) ensures Agrees(Said(f, store, v), Said(f, store, w)) {
        assert !Disagree(f, store, v, w);
      }
    }
  }

  // ---------------------------------------------------------------------------------------------
  // The result in the summary
  // ---------------------------------------------------------------------------------------------

  predicate ResultUnannotated(d: Defined) { !d.annotations.returnsOwn && d.annotations.borrowsFrom.None? }

  ghost predicate AllSilent(f: Function, store: Store, vs: seq<Visited>)
    requires Pointers(f, vs)
  {
    forall v :: v in vs ==> SilentReturn(f, store, v)
  }

  /** A function without annotations is in conflict exactly if it reallocates or if two returned pointers
      say different things. */
  lemma ConflictExactly(d: Defined, returnsPointer: bool, store: Store)
    requires ResultUnannotated(d)
    ensures Pointers(d.f, Visits(d, store))
    ensures Build(d, returnsPointer, store).conflict <==>
      ReallocatesIn(d.f.body) || SomeDisagree(d.f, store, Visits(d, store))
  {
    var vs, a := Visits(d, store), Annotated(d);
    ScanOutcome(d.f, store, a, d.f.body, false);
    CombinedFromNothing(d.f, store, a, vs);
    if SomeSpeaks(d.f, store, vs) {
      var v :| v in vs && Speaks(d.f, store, v) && ResultOf(Combined(d.f, store, a, vs)) == Said(d.f, store, v);
      AgreeTogether(d.f, store, vs, v);
    }
  }

  /** With a valid annotation exactly if it reallocates or some returned pointer says something else; the
      result is then what the annotation says. */
  lemma AnnotatedExactly(d: Defined, returnsPointer: bool, store: Store)
    requires !ResultUnannotated(d)
    ensures Pointers(d.f, Visits(d, store))
    ensures var r, b := Build(d, returnsPointer, store), d.annotations.borrowsFrom;
      var said := if b.Some? then Returned(BorrowFromArg, b) else Returned(Owned, None);
      && (r.conflict <==>
            (b.Some? && b.value >= |d.f.params|) || ReallocatesIn(d.f.body) ||
            !AllAgree(d.f, store, Visits(d, store), said))
      && (!r.conflict ==> ResultOf(r) == said)
  {
    var vs, a := Visits(d, store), Annotated(d);
    ScanOutcome(d.f, store, a, d.f.body, false);
    if a.result != NoReturn {
      CombinedOntoResult(d.f, store, a, vs);
    } else {
      CombinedFromNothing(d.f, store, a, vs);
    }
  }

  /** A function without annotations returns an owned object exactly if it does not reallocate, some
      returned pointer is owned, and every other one is, too, or is said to be none. */
  lemma OwnedExactly(d: Defined, returnsPointer: bool, store: Store)
    requires ResultUnannotated(d)
    ensures Pointers(d.f, Visits(d, store))
    ensures var vs := Visits(d, store);
      Build(d, returnsPointer, store).result == Owned <==>
        && !ReallocatesIn(d.f.body)
        && (exists v :: v in vs && OwnedReturn(d.f, store, v))
        && (forall v :: v in vs ==> OwnedReturn(d.f, store, v) || SilentReturn(d.f, store, v))
  {
    var vs, a := Visits(d, store), Annotated(d);
    ScanOutcome(d.f, store, a, d.f.body, false);
    CombinedFromNothing(d.f, store, a, vs);
    forall v | v in vs ensures Said(d.f, store, v).effect == Owned <==> OwnedReturn(d.f, store, v) {
      OwnedSaid(d.f, store, v);
    }
    if v :| v in vs && OwnedReturn(d.f, store, v) {
      OwnedSaid(d.f, store, v);
      assert Speaks(d.f, store, v);
    }
  }

  /** It borrows from parameter `from` exactly if some returned pointer does and every other one does, too,
      or is said to be none. */
  lemma BorrowsExactly(d: Defined, returnsPointer: bool, store: Store, from: Option<nat>)
    requires ResultUnannotated(d)
    ensures Pointers(d.f, Visits(d, store))
    ensures var vs := Visits(d, store);
      ResultOf(Build(d, returnsPointer, store)) == Returned(BorrowFromArg, from) <==>
        && !ReallocatesIn(d.f.body)
        && (exists v :: v in vs && BorrowedReturn(d.f, store, v, from))
        && (forall v :: v in vs ==> BorrowedReturn(d.f, store, v, from) || SilentReturn(d.f, store, v))
  {
    var vs, a := Visits(d, store), Annotated(d);
    ScanOutcome(d.f, store, a, d.f.body, false);
    CombinedFromNothing(d.f, store, a, vs);
    forall v | v in vs
      ensures Said(d.f, store, v) == Returned(BorrowFromArg, from) <==> BorrowedReturn(d.f, store, v, from)
    {
      BorrowedSaid(d.f, store, v, from);
    }
    if v :| v in vs && BorrowedReturn(d.f, store, v, from) {
      OwnedSaid(d.f, store, v);
      assert Speaks(d.f, store, v);
    }
  }

  /** It is said to return nothing exactly if it is no function that returns a pointer and nothing is said;
      in every case that is left the result is unknown. */
  lemma NothingExactly(d: Defined, returnsPointer: bool, store: Store)
    requires ResultUnannotated(d)
    ensures Pointers(d.f, Visits(d, store))
    ensures Build(d, returnsPointer, store).result == NoReturn <==>
      !returnsPointer && !ReallocatesIn(d.f.body) && AllSilent(d.f, store, Visits(d, store))
  {
    var vs, a := Visits(d, store), Annotated(d);
    ScanOutcome(d.f, store, a, d.f.body, false);
    CombinedFromNothing(d.f, store, a, vs);
  }
}
