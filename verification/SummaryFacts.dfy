/** What summaries promise: which consuming uses of a parameter are not forgotten, and when a result that
    is said to borrow from a parameter does. */
module SummaryFacts {
  import opened Options
  import opened Syntax
  import opened Origins
  import opened Holdings
  import opened Effects
  import opened Summaries

  // ---------------------------------------------------------------------------------------------
  // Consuming uses
  // ---------------------------------------------------------------------------------------------

  predicate Rests(s: Summary, i: nat) { i < |s.params| && Harmless(s.params[i]) }

  /** An argument may give parameter `i` away: it involves other parameters too, or the callee does
      more than borrow it. */
  predicate GivesAway(n: Note, i: nat) {
    i in n.involved && (|n.involved| > 1 || !Harmless(n.effect))
  }

  predicate Consumes(f: Function, store: Store, node: Stmt, i: nat) {
    node.Call? && exists n :: n in Notes(f, store, node) && GivesAway(n, i)
  }

  /** Some node of the tree may give parameter `i` away. */
  ghost predicate ConsumedIn(f: Function, store: Store, s: Stmt, i: nat)
    decreases s
  {
    Consumes(f, store, s, i) || exists c :: c in Children(s) && ConsumedIn(f, store, c, i)
  }

  /** A pointer to something that is no pointer. */
  predicate PlainPointee(f: Function, i: nat) {
    i < |f.params| && !(f.params[i].Pointer? && f.params[i].pointee.Pointer?)
  }

  // ---------------------------------------------------------------------------------------------
  // One node
  // ---------------------------------------------------------------------------------------------

  lemma {:induction false} ForgetAllRests(s: Summary, ps: seq<nat>, i: nat)
    requires forall j :: j in ps ==> j < |s.params|
    ensures Rests(ForgetAll(s, ps), i) <==> Rests(s, i) && i !in ps
    decreases |ps|
  {
    if ps != [] {
      assert forall j :: j in ps[1..] ==> j in ps;
      ForgetAllRests(SetParam(s, ps[0], UnknownEffect), ps[1..], i);
      assert i in ps <==> i == ps[0] || i in ps[1..];
    }
  }

  lemma NoteRests(s: Summary, n: Note, conditional: bool, i: nat)
    requires forall j :: j in n.involved ==> j < |s.params|
    ensures Rests(NoteStep(s, n, conditional), i) <==> Rests(s, i) && !GivesAway(n, i)
  {
    if |n.involved| > 1 {
      ForgetAllRests(s, n.involved, i);
    } else if |n.involved| == 1 {
      assert n.involved[0] in n.involved;
    }
  }

  predicate NotesWithin(ns: seq<Note>, size: nat) {
    forall n, j :: n in ns && j in n.involved ==> j < size
  }

  lemma {:induction false} NotesRest(s: Summary, ns: seq<Note>, conditional: bool, i: nat)
    requires NotesWithin(ns, |s.params|)
    ensures Rests(NoteSteps(s, ns, conditional), i) <==> Rests(s, i) && forall n :: n in ns ==> !GivesAway(n, i)
  {
    if ns != [] {
      var m := |ns| - 1;
      assert ns == ns[..m] + [ns[m]];
      NotesRest(s, ns[..m], conditional, i);
      NoteRests(NoteSteps(s, ns[..m], conditional), ns[m], conditional, i);
    }
  }

  lemma NotesAreWithin(f: Function, store: Store, call: Stmt)
    requires call.Call?
    ensures NotesWithin(Notes(f, store, call), |f.params|)
  {
    forall n, j | n in Notes(f, store, call) && j in n.involved ensures j < |f.params| {
      var k :| 0 <= k < |call.arguments| && NoteOf(f, store, call, k) == n;
    }
  }

  lemma CallRests(f: Function, store: Store, s: Summary, call: Stmt, conditional: bool, i: nat)
    requires |s.params| == |f.params| && call.Call?
    ensures Rests(CallStep(f, store, s, call, conditional), i) <==> Rests(s, i) && !Consumes(f, store, call, i)
  {
    NotesAreWithin(f, store, call);
    NotesRest(s, Notes(f, store, call), conditional, i);
  }

  /** Direct uses never make a resting parameter of plain pointee consumed, nor the other way round. */
  lemma MarkFlowRests(f: Function, s: Summary, e: Stmt, i: nat)
    ensures Rests(MarkFlow(f, s, e), i) ==> Rests(s, i)
    ensures Rests(s, i) && PlainPointee(f, i) ==> Rests(MarkFlow(f, s, e), i)
  {
  }

  lemma {:induction false} MarkFlowsRest(f: Function, s: Summary, ds: seq<Declarator>, i: nat)
    ensures Rests(MarkFlows(f, s, ds), i) ==> Rests(s, i)
    ensures Rests(s, i) && PlainPointee(f, i) ==> Rests(MarkFlows(f, s, ds), i)
  {
    if ds != [] {
      var d := ds[|ds| - 1];
      var before := MarkFlows(f, s, ds[..|ds| - 1]);
      MarkFlowsRest(f, s, ds[..|ds| - 1], i);
      if d.ty.Pointer? && d.init.Some? {
        MarkFlowRests(f, before, d.init.value, i);
      }
    }
  }

  lemma NodeRests(f: Function, store: Store, s: Summary, node: Stmt, conditional: bool, i: nat)
    requires |s.params| == |f.params|
    ensures Rests(NodeStep(f, store, s, node, conditional), i) ==> Rests(s, i) && !Consumes(f, store, node, i)
    ensures Rests(s, i) && !Consumes(f, store, node, i) && PlainPointee(f, i) ==>
      Rests(NodeStep(f, store, s, node, conditional), i)
  {
    match node
    case Dereference(x, _) => MarkFlowRests(f, s, x, i);
    case Declaration(ds) => MarkFlowsRest(f, s, ds, i);
    case Assignment(_, right) => MarkFlowRests(f, s, right, i);
    case Call(_, _, _) => CallRests(f, store, s, node, conditional, i);
    case _ =>
  }

  // ---------------------------------------------------------------------------------------------
  // The whole tree
  // ---------------------------------------------------------------------------------------------

  lemma {:induction false} NullConsumesNothing(f: Function, store: Store, e: Stmt, i: nat)
    requires Strip(e).Zero?
    ensures !ConsumedIn(f, store, e, i)
  {
    if e.Cast? {
      NullConsumesNothing(f, store, e.operand, i);
    }
  }

  lemma {:induction false} ScanRests(f: Function, store: Store, s: Summary, node: Stmt, conditional: bool, i: nat)
    requires |s.params| == |f.params|
    ensures Rests(Scan(f, store, s, node, conditional), i) ==> Rests(s, i) && !ConsumedIn(f, store, node, i)
    ensures Rests(s, i) && !ConsumedIn(f, store, node, i) && PlainPointee(f, i) ==>
      Rests(Scan(f, store, s, node, conditional), i)
    decreases node, |Children(node)| + 1
  {
    if ReturnsNull(f, node) {
      NullConsumesNothing(f, store, node.returned.value, i);
    } else {
      NodeRests(f, store, s, node, conditional, i);
      ScanAllRests(f, store, NodeStep(f, store, s, node, conditional), node, Children(node),
        conditional || node.Branching? || node.Conditional?, i);
    }
  }

  lemma {:induction false} ScanAllRests(f: Function, store: Store, s: Summary, parent: Stmt, kids: seq<Stmt>,
      conditional: bool, i: nat)
    requires |s.params| == |f.params| && forall c :: c in kids ==> c < parent
    ensures var r := ScanAll(f, store, s, parent, kids, conditional);
      && (Rests(r, i) ==> Rests(s, i) && forall c :: c in kids ==> !ConsumedIn(f, store, c, i))
      && (Rests(s, i) && (forall c :: c in kids ==> !ConsumedIn(f, store, c, i)) && PlainPointee(f, i) ==> Rests(r, i))
    decreases parent, |kids|
  {
    if kids != [] {
      var n := |kids| - 1;
      assert kids[n] in kids && forall c :: c in kids[..n] ==> c in kids;
      assert forall c :: c in kids ==> c in kids[..n] || c == kids[n];
      ScanAllRests(f, store, s, parent, kids[..n], conditional, i);
      ScanRests(f, store, ScanAll(f, store, s, parent, kids[..n], conditional), kids[n], conditional, i);
    }
  }

  lemma {:induction false} ConsumedInside(f: Function, store: Store, node: Stmt, s: Stmt, i: nat)
    requires Occurs(node, s) && Consumes(f, store, node, i)
    ensures ConsumedIn(f, store, s, i)
    decreases s
  {
    if node != s {
      var c :| c in Children(s) && Occurs(node, c);
      ConsumedInside(f, store, node, c, i);
    }
  }

  /** In a summary without conflict, a parameter that does not point to pointers is said to be at most
      borrowed exactly when its annotation says no more and no use in the body may give it away. */
  lemma BorrowedExactly(d: Defined, returnsPointer: bool, store: Store, i: nat)
    requires WellAnnotated(d) && !Build(d, returnsPointer, store).conflict && PlainPointee(d.f, i)
    ensures Rests(Build(d, returnsPointer, store), i) <==>
      Rests(Annotated(d), i) && !ConsumedIn(d.f, store, d.f.body, i)
  {
    ScanRests(d.f, store, Annotated(d), d.f.body, false, i);
  }

  /** If a pointer parameter ends up at most borrowed, then no call in the body passes anything
      containing it to `free`, to a position that is destroyed, consumed or unknown, or to a callee
      without a summary for that position. */
  lemma NoConsumingEffectForgotten(d: Defined, returnsPointer: bool, store: Store, i: nat, call: Stmt, k: nat)
    requires WellAnnotated(d) && Rests(Build(d, returnsPointer, store), i)
    requires Occurs(call, d.f.body) && call.Call? && k < |call.arguments|
    requires Tracked(d.f, i) && ContainsParameter(d.f, call.arguments[k], i)
    ensures !IsFree(call)
    ensures CalleeEffect(store, call, k) == Some(NoEffect) || CalleeEffect(store, call, k) == Some(Borrows)
    ensures forall j :: j != i && Tracked(d.f, j) ==> !ContainsParameter(d.f, call.arguments[k], j)
  {
    ScanRests(d.f, store, Annotated(d), d.f.body, false, i);
    assert !Consumes(d.f, store, call, i) by {
      if Consumes(d.f, store, call, i) { ConsumedInside(d.f, store, call, d.f.body, i); }
    }
    var involved := Involved(d.f, store, call, k);
    assert Notes(d.f, store, call)[k] == NoteOf(d.f, store, call, k);
    assert !GivesAway(NoteOf(d.f, store, call, k), i);
    assert i in Contained(d.f, call.arguments[k], |d.f.params|);
    assert i in involved && |involved| == 1;
    forall j: nat | Tracked(d.f, j) && ContainsParameter(d.f, call.arguments[k], j) ensures j == i {
      assert j in involved;
    }
  }

  /** The same for an argument that is a local initialised with the parameter, as far as the alias rule
      follows such locals: it is not passed to `free`, nor where it is destroyed or consumed. */
  lemma NoConsumedAliasForgotten(d: Defined, returnsPointer: bool, store: Store, i: nat, call: Stmt, k: nat)
    requires WellAnnotated(d) && Rests(Build(d, returnsPointer, store), i)
    requires Occurs(call, d.f.body) && call.Call? && k < |call.arguments|
    requires Contained(d.f, call.arguments[k], |d.f.params|) == [] &&
      AliasedParameter(d.f, call.arguments[k]) == Some(i)
    ensures !ConsumingCall(store, call, k)
  {
    ScanRests(d.f, store, Annotated(d), d.f.body, false, i);
    assert Notes(d.f, store, call)[k] == NoteOf(d.f, store, call, k);
    if ConsumingCall(store, call, k) {
      assert GivesAway(NoteOf(d.f, store, call, k), i);
      assert Consumes(d.f, store, call, i);
      ConsumedInside(d.f, store, call, d.f.body, i);
    }
  }

  // ---------------------------------------------------------------------------------------------
  // Results
  // ---------------------------------------------------------------------------------------------

  /** A conflict stays, and so does the first result. */
  predicate Extends(s: Summary, r: Summary) {
    && (s.conflict ==> r.conflict)
    && (s.result != NoReturn ==> r.result == s.result && r.borrowArg == s.borrowArg)
  }

  predicate SameResult(s: Summary, r: Summary) {
    r.result == s.result && r.borrowArg == s.borrowArg && r.conflict == s.conflict
  }

  lemma {:induction false} ForgettingKeepsResult(s: Summary, ps: seq<nat>)
    ensures SameResult(s, ForgetAll(s, ps))
    decreases |ps|
  {
    if ps != [] { ForgettingKeepsResult(SetParam(s, ps[0], UnknownEffect), ps[1..]); }
  }

  lemma {:induction false} NotesKeepResult(s: Summary, ns: seq<Note>, conditional: bool)
    ensures SameResult(s, NoteSteps(s, ns, conditional))
  {
    if ns != [] {
      NotesKeepResult(s, ns[..|ns| - 1], conditional);
      ForgettingKeepsResult(NoteSteps(s, ns[..|ns| - 1], conditional), ns[|ns| - 1].involved);
    }
  }

  lemma {:induction false} FlowsKeepResult(f: Function, s: Summary, ds: seq<Declarator>)
    ensures SameResult(s, MarkFlows(f, s, ds))
  {
    if ds != [] { FlowsKeepResult(f, s, ds[..|ds| - 1]); }
  }

  lemma NodeExtends(f: Function, store: Store, s: Summary, node: Stmt, conditional: bool)
    ensures Extends(s, NodeStep(f, store, s, node, conditional))
  {
    match node
    case Call(_, _, _) => NotesKeepResult(s, Notes(f, store, node), conditional);
    case Declaration(ds) => FlowsKeepResult(f, s, ds);
    case _ =>
  }

  lemma {:induction false} ScanExtends(f: Function, store: Store, s: Summary, node: Stmt, conditional: bool)
    ensures Extends(s, Scan(f, store, s, node, conditional))
    decreases node, |Children(node)| + 1
  {
    if !ReturnsNull(f, node) {
      NodeExtends(f, store, s, node, conditional);
      ScanAllExtends(f, store, NodeStep(f, store, s, node, conditional), node, Children(node),
        conditional || node.Branching? || node.Conditional?);
    }
  }

  lemma {:induction false} ScanAllExtends(f: Function, store: Store, s: Summary, parent: Stmt, kids: seq<Stmt>,
      conditional: bool)
    requires forall c :: c in kids ==> c < parent
    ensures Extends(s, ScanAll(f, store, s, parent, kids, conditional))
    decreases parent, |kids|
  {
    if kids != [] {
      var n := |kids| - 1;
      assert kids[n] in kids && forall c :: c in kids[..n] ==> c in kids;
      ScanAllExtends(f, store, s, parent, kids[..n], conditional);
      ScanExtends(f, store, ScanAll(f, store, s, parent, kids[..n], conditional), kids[n], conditional);
    }
  }

  /** The summary `r` agrees with what this returned value says, judged at some point of the scan. */
  ghost predicate Counted(f: Function, store: Store, r: Summary, value: Stmt) {
    r.conflict || exists s :: CountedAs(r, ValueReturned(f, store, s, value))
  }

  predicate CountedAs(r: Summary, v: Returned) {
    v.effect == NoReturn || (r.result == v.effect && (v.effect == BorrowFromArg ==> r.borrowArg == v.borrow))
  }

  lemma CountedLater(f: Function, store: Store, s: Summary, r: Summary, value: Stmt)
    requires Counted(f, store, s, value) && Extends(s, r)
    ensures Counted(f, store, r, value)
  {
    if !s.conflict {
      var s0 :| CountedAs(s, ValueReturned(f, store, s0, value));
      assert CountedAs(r, ValueReturned(f, store, s0, value));
    }
  }

  lemma ReturnCounts(f: Function, store: Store, s: Summary, ret: Stmt, conditional: bool)
    requires ReturnsPointer(f, ret)
    ensures Counted(f, store, NodeStep(f, store, s, ret, conditional), Strip(ret.returned.value))
  {
    var v := ValueReturned(f, store, s, Strip(ret.returned.value));
    var r := CombineReturn(s, v);
    assert r.conflict || CountedAs(r, v);
  }

  lemma {:induction false} NoReturnInNull(e: Stmt, ret: Stmt)
    requires Strip(e).Zero? && Occurs(ret, e)
    ensures !ret.Return?
  {
    if e.Cast? && ret != e {
      NoReturnInNull(e.operand, ret);
    }
  }

  lemma {:induction false} ScanCounts(f: Function, store: Store, s: Summary, node: Stmt, conditional: bool, ret: Stmt)
    requires Occurs(ret, node) && ReturnsPointer(f, ret) && !ReturnsNull(f, ret)
    ensures Counted(f, store, Scan(f, store, s, node, conditional), Strip(ret.returned.value))
    decreases node, |Children(node)| + 1
  {
    if ReturnsNull(f, node) {
      var c :| c in Children(node) && Occurs(ret, c);
      NoReturnInNull(node.returned.value, ret);
    } else {
      var s1 := NodeStep(f, store, s, node, conditional);
      var inner := conditional || node.Branching? || node.Conditional?;
      if ret == node {
        ReturnCounts(f, store, s, node, conditional);
        ScanAllExtends(f, store, s1, node, Children(node), inner);
        CountedLater(f, store, s1, ScanAll(f, store, s1, node, Children(node), inner), Strip(ret.returned.value));
      } else {
        ScanAllCounts(f, store, s1, node, Children(node), inner, ret);
      }
    }
  }

  lemma {:induction false} ScanAllCounts(f: Function, store: Store, s: Summary, parent: Stmt, kids: seq<Stmt>,
      conditional: bool, ret: Stmt)
    requires forall c :: c in kids ==> c < parent
    requires (exists c :: c in kids && Occurs(ret, c)) && ReturnsPointer(f, ret) && !ReturnsNull(f, ret)
    ensures Counted(f, store, ScanAll(f, store, s, parent, kids, conditional), Strip(ret.returned.value))
    decreases parent, |kids|
  {
    var n := |kids| - 1;
    assert kids[n] in kids && forall c :: c in kids[..n] ==> c in kids;
    assert kids == kids[..n] + [kids[n]];
    var before := ScanAll(f, store, s, parent, kids[..n], conditional);
    if Occurs(ret, kids[n]) {
      ScanCounts(f, store, before, kids[n], conditional, ret);
    } else {
      ScanAllCounts(f, store, s, parent, kids[..n], conditional, ret);
      ScanExtends(f, store, before, kids[n], conditional);
      CountedLater(f, store, before, Scan(f, store, before, kids[n], conditional), Strip(ret.returned.value));
    }
  }

  /** The call's callee returns no pointer of interest, or borrows from an argument that is not there. */
  predicate SaysNothing(store: Store, call: Stmt) {
    call.Call? && var callee := Find(store, call.callee);
    && callee.Some?
    && (callee.value.result == NoReturn ||
        (callee.value.result == BorrowFromArg && callee.value.borrowArg.Some? &&
          callee.value.borrowArg.value >= |call.arguments|))
  }

  /** The expression that a returned value borrows from: the argument that the callee's result borrows
      from, or the value itself. */
  function BorrowSource(f: Function, store: Store, value: Stmt): Stmt {
    var call := Strip(value);
    if BorrowedParameter(f, value).None? && call.Call? && Find(store, call.callee).Some? then
      var borrow := Find(store, call.callee).value.borrowArg;
      if borrow.Some? && borrow.value < |call.arguments| then call.arguments[borrow.value] else value
    else value
  }

  lemma StripTwice(f: Function, e: Stmt)
    ensures Strip(Strip(e)) == Strip(e) && BorrowedParameter(f, Strip(e)) == BorrowedParameter(f, e)
  {
  }

  lemma CountedSource(f: Function, store: Store, s: Summary, value: Stmt, i: nat)
    requires ValueReturned(f, store, s, Strip(value)) == Returned(BorrowFromArg, Some(i))
    ensures SaysNothing(store, Strip(value)) ||
      (BorrowedParameter(f, BorrowSource(f, store, value)) == Some(i) && !AssignsParameter(f, f.body, i))
  {
    StripTwice(f, value);
  }

  /** What a function that is said to borrow from parameter `i` returns: null, or the result of a call
      about which nothing is said, or a value whose source the resolver attributes to parameter `i`; and
      whatever that source is, it is null or points into the object that the parameter pointed to on
      entry if and only if it takes its value from null and that parameter, and, unless null is all it
      takes it from, no store reaches the parameter through its address. */
  lemma BorrowedResultIsRight(d: Defined, returnsPointer: bool, store: Store, i: nat, ret: Stmt)
    requires Build(d, returnsPointer, store).result == BorrowFromArg &&
      Build(d, returnsPointer, store).borrowArg == Some(i)
    requires Occurs(ret, d.f.body) && ReturnsPointer(d.f, ret)
    ensures var source := BorrowSource(d.f, store, ret.returned.value);
      || ReturnsNull(d.f, ret)
      || SaysNothing(store, Strip(ret.returned.value))
      || (&& BorrowedParameter(d.f, source) == Some(i)
          && (WellTyped(d.f, source) && TypeOf(d.f, source).Pointer? ==>
                (StaysOnEntry(d.f, source, i) <==>
                  ComesFrom(d.f, source, i) && (OnlyNull(d.f, source) || !ExposedToStores(d.f, i)))))
  {
    if !ReturnsNull(d.f, ret) && !SaysNothing(store, Strip(ret.returned.value)) {
      var value := ret.returned.value;
      var source := BorrowSource(d.f, store, value);
      var r := Scan(d.f, store, Annotated(d), d.f.body, false);
      ScanCounts(d.f, store, Annotated(d), d.f.body, false, ret);
      var s :| CountedAs(r, ValueReturned(d.f, store, s, Strip(value)));
      CountedBorrow(d.f, store, s, value);
      CountedSource(d.f, store, s, value, i);
      if WellTyped(d.f, source) && TypeOf(d.f, source).Pointer? {
        StaysOnEntryExactly(d.f, source, i);
      }
    }
  }

  /** The parameter's address is taken somewhere and something is stored through a pointer somewhere. */
  predicate ExposedToStores(f: Function, i: nat) {
    TakesParameter(f.body, i) && StoresSomewhere(f.body)
  }

  /** Only a callee that returns no pointer counts as no result. */
  lemma CountedBorrow(f: Function, store: Store, s: Summary, value: Stmt)
    ensures ValueReturned(f, store, s, Strip(value)).effect == NoReturn ==> SaysNothing(store, Strip(value))
  {
  }

  /** In particular a plain source stays with the entry object when the parameter's address is never
      taken. */
  lemma PlainSourceStays(d: Defined, returnsPointer: bool, store: Store, i: nat, ret: Stmt)
    requires Build(d, returnsPointer, store).result == BorrowFromArg &&
      Build(d, returnsPointer, store).borrowArg == Some(i)
    requires Occurs(ret, d.f.body) && ReturnsPointer(d.f, ret) && !TakesParameter(d.f.body, i)
    requires var source := BorrowSource(d.f, store, ret.returned.value);
      WellTyped(d.f, source) && TypeOf(d.f, source).Pointer? && Plain(d.f, source)
    ensures || ReturnsNull(d.f, ret)
            || SaysNothing(store, Strip(ret.returned.value))
            || StaysOnEntry(d.f, BorrowSource(d.f, store, ret.returned.value), i)
  {
    var source := BorrowSource(d.f, store, ret.returned.value);
    BorrowedResultIsRight(d, returnsPointer, store, i, ret);
    if BorrowedParameter(d.f, source) == Some(i) {
      ResolvedStaysWith(d.f, source, i);
      StaysWithExactly(d.f, source, i);
    }
  }
}
