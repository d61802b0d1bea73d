/** What a summary says about one parameter is decided by what the body does to that parameter, in the
    order of the scan, and by nothing else. */
module Touches {
  import opened Options
  import opened Effects
  import opened Syntax
  import opened Summaries
  import opened SummaryFacts

  // ---------------------------------------------------------------------------------------------
  // One parameter's history
  // ---------------------------------------------------------------------------------------------

  /** Something through the parameter is accessed; its value goes somewhere; it is passed, alone, to a
      position with an effect; or it is passed together with other parameters. */
  datatype Touch = Used | Flowed | Passed(effect: ParamEffect) | Mixed

  predicate Touched(f: Function, e: Stmt, i: nat) { Tracked(f, i) && ContainsParameter(f, e, i) }

  function Once(c: bool, t: Touch): seq<Touch> { if c then [t] else [] }

  function DeclaredTouches(f: Function, ds: seq<Declarator>, i: nat): seq<Touch> {
    if ds == [] then []
    else
      var d := ds[|ds| - 1];
      DeclaredTouches(f, ds[..|ds| - 1], i) + Once(d.ty.Pointer? && d.init.Some? && Touched(f, d.init.value, i), Flowed)
  }

  function NoteTouch(n: Note, i: nat, conditional: bool): seq<Touch> {
    if i !in n.involved then []
    else if |n.involved| > 1 then [Mixed]
    else [Passed(if conditional && !Harmless(n.effect) then UnknownEffect else n.effect)]
  }

  function NoteTouches(ns: seq<Note>, i: nat, conditional: bool): seq<Touch> {
    if ns == [] then []
    else NoteTouches(ns[..|ns| - 1], i, conditional) + NoteTouch(ns[|ns| - 1], i, conditional)
  }

  function NodeTouches(f: Function, store: Store, node: Stmt, i: nat, conditional: bool): seq<Touch> {
    match node
    case Dereference(x, _) => Once(Touched(f, x, i), Flowed)
    case Member(base, arrow, _) => Once(arrow && Touched(f, base, i), Used)
    case Subscript(base, _, _) => Once(Touched(f, base, i), Used)
    case Declaration(ds) => DeclaredTouches(f, ds, i)
    case Assignment(left, right) => Once(TypeOf(f, left).Pointer? && Touched(f, right, i), Flowed)
    case Call(_, _, _) => NoteTouches(Notes(f, store, node), i, conditional)
    case _ => []
  }

  /** The touches of parameter `i` in the order of the scan. */
  function TreeTouches(f: Function, store: Store, node: Stmt, i: nat, conditional: bool): seq<Touch>
    decreases node, |Children(node)| + 1
  {
    if ReturnsNull(f, node) then []
    else
      NodeTouches(f, store, node, i, conditional) +
      AllTouches(f, store, node, Children(node), i, conditional || node.Branching? || node.Conditional?)
  }

  function AllTouches(f: Function, store: Store, ghost parent: Stmt, kids: seq<Stmt>, i: nat,
      conditional: bool): seq<Touch>
    requires forall c :: c in kids ==> c < parent
    decreases parent, |kids|
  {
    if kids == [] then []
    else
      var n := |kids| - 1;
      assert kids[n] in kids && forall c :: c in kids[..n] ==> c in kids;
      AllTouches(f, store, parent, kids[..n], i, conditional) + TreeTouches(f, store, kids[n], i, conditional)
  }

  predicate PointsToPointer(f: Function, i: nat) {
    i < |f.params| && f.params[i].Pointer? && f.params[i].pointee.Pointer?
  }

  function After(f: Function, i: nat, before: ParamEffect, t: Touch): ParamEffect {
    match t
    case Used => if before == NoEffect then Borrows else before
    case Flowed => if before != NoEffect then before else if PointsToPointer(f, i) then UnknownEffect else Borrows
    case Passed(effect) => Combine(before, effect)
    case Mixed => UnknownEffect
  }

  function AfterAll(f: Function, i: nat, before: ParamEffect, ts: seq<Touch>): ParamEffect {
    if ts == [] then before else After(f, i, AfterAll(f, i, before, ts[..|ts| - 1]), ts[|ts| - 1])
  }

  // ---------------------------------------------------------------------------------------------
  // The scan follows each parameter on its own
  // ---------------------------------------------------------------------------------------------

  lemma {:induction false} AfterBoth(f: Function, i: nat, before: ParamEffect, a: seq<Touch>, b: seq<Touch>)
    ensures AfterAll(f, i, before, a + b) == AfterAll(f, i, AfterAll(f, i, before, a), b)
    decreases |b|
  {
    if b == [] {
      assert a + b == a;
    } else {
      var n := |b| - 1;
      assert (a + b)[..|a + b| - 1] == a + b[..n] && (a + b)[|a + b| - 1] == b[n];
      AfterBoth(f, i, before, a, b[..n]);
    }
  }

  lemma AfterOne(f: Function, i: nat, before: ParamEffect, t: Touch)
    ensures AfterAll(f, i, before, [t]) == After(f, i, before, t)
  {
    assert [t][..0] == [];
  }

  /** In `r`, parameter `i` is as the touches leave it. */
  predicate Follows(f: Function, i: nat, s: Summary, ts: seq<Touch>, r: Summary) {
    i < |s.params| == |r.params| && r.params[i] == AfterAll(f, i, s.params[i], ts)
  }

  lemma FollowsBoth(f: Function, i: nat, s: Summary, a: seq<Touch>, mid: Summary, b: seq<Touch>, r: Summary)
    requires Follows(f, i, s, a, mid) && Follows(f, i, mid, b, r)
    ensures Follows(f, i, s, a + b, r)
  {
    AfterBoth(f, i, s.params[i], a, b);
  }

  lemma MarksFollow(f: Function, s: Summary, e: Stmt, i: nat)
    requires i < |s.params|
    ensures Follows(f, i, s, Once(Touched(f, e, i), Flowed), MarkFlow(f, s, e))
    ensures Follows(f, i, s, Once(Touched(f, e, i), Used), MarkBorrow(f, s, e))
  {
    AfterOne(f, i, s.params[i], Flowed);
    AfterOne(f, i, s.params[i], Used);
  }

  lemma {:induction false} DeclarationsFollow(f: Function, s: Summary, ds: seq<Declarator>, i: nat)
    requires i < |s.params|
    ensures Follows(f, i, s, DeclaredTouches(f, ds, i), MarkFlows(f, s, ds))
  {
    if ds != [] {
      var d := ds[|ds| - 1];
      var before := MarkFlows(f, s, ds[..|ds| - 1]);
      DeclarationsFollow(f, s, ds[..|ds| - 1], i);
      if d.ty.Pointer? && d.init.Some? { MarksFollow(f, before, d.init.value, i); }
      FollowsBoth(f, i, s, DeclaredTouches(f, ds[..|ds| - 1], i), before,
        Once(d.ty.Pointer? && d.init.Some? && Touched(f, d.init.value, i), Flowed), MarkFlows(f, s, ds));
    }
  }

  lemma {:induction false} ForgetAllFollows(s: Summary, ps: seq<nat>, i: nat)
    requires i < |s.params|
    ensures ForgetAll(s, ps).params[i] == if i in ps then UnknownEffect else s.params[i]
    decreases |ps|
  {
    if ps != [] {
      ForgetAllFollows(SetParam(s, ps[0], UnknownEffect), ps[1..], i);
      assert i in ps <==> i == ps[0] || i in ps[1..];
    }
  }

  lemma NoteFollows(f: Function, s: Summary, n: Note, i: nat, conditional: bool)
    requires i < |s.params|
    ensures Follows(f, i, s, NoteTouch(n, i, conditional), NoteStep(s, n, conditional))
  {
    if |n.involved| > 1 {
      ForgetAllFollows(s, n.involved, i);
      AfterOne(f, i, s.params[i], Mixed);
    } else if |n.involved| == 1 {
      AfterOne(f, i, s.params[i], Passed(if conditional && !Harmless(n.effect) then UnknownEffect else n.effect));
    }
  }

  lemma {:induction false} NotesFollow(f: Function, s: Summary, ns: seq<Note>, i: nat, conditional: bool)
    requires i < |s.params|
    ensures Follows(f, i, s, NoteTouches(ns, i, conditional), NoteSteps(s, ns, conditional))
  {
    if ns != [] {
      var m := |ns| - 1;
      NotesFollow(f, s, ns[..m], i, conditional);
      NoteFollows(f, NoteSteps(s, ns[..m], conditional), ns[m], i, conditional);
      FollowsBoth(f, i, s, NoteTouches(ns[..m], i, conditional), NoteSteps(s, ns[..m], conditional),
        NoteTouch(ns[m], i, conditional), NoteSteps(s, ns, conditional));
    }
  }

  lemma AssignmentFollows(f: Function, store: Store, s: Summary, node: Stmt, i: nat, conditional: bool)
    requires i < |s.params| && node.Assignment?
    ensures Follows(f, i, s, NodeTouches(f, store, node, i, conditional), NodeStep(f, store, s, node, conditional))
  {
    MarksFollow(f, s, node.right, i);
  }

  lemma MemberFollows(f: Function, store: Store, s: Summary, node: Stmt, i: nat, conditional: bool)
    requires i < |s.params| && node.Member?
    ensures Follows(f, i, s, NodeTouches(f, store, node, i, conditional), NodeStep(f, store, s, node, conditional))
  {
    MarksFollow(f, s, node.base, i);
  }

  lemma NodeFollows(f: Function, store: Store, s: Summary, node: Stmt, i: nat, conditional: bool)
    requires i < |s.params|
    ensures Follows(f, i, s, NodeTouches(f, store, node, i, conditional), NodeStep(f, store, s, node, conditional))
  {
    match node
    case Dereference(x, _) => MarksFollow(f, s, x, i);
    case Member(_, _, _) => MemberFollows(f, store, s, node, i, conditional);
    case Subscript(base, _, _) => MarksFollow(f, s, base, i);
    case Declaration(ds) => DeclarationsFollow(f, s, ds, i);
    case Assignment(_, _) => AssignmentFollows(f, store, s, node, i, conditional);
    case Call(_, _, _) => NotesFollow(f, s, Notes(f, store, node), i, conditional);
    case _ =>
  }

  lemma {:induction false} ScanFollows(f: Function, store: Store, s: Summary, node: Stmt, i: nat, conditional: bool)
    requires i < |s.params|
    ensures Follows(f, i, s, TreeTouches(f, store, node, i, conditional), Scan(f, store, s, node, conditional))
    decreases node, |Children(node)| + 1
  {
    if !ReturnsNull(f, node) {
      var inner := conditional || node.Branching? || node.Conditional?;
      var s1 := NodeStep(f, store, s, node, conditional);
      NodeFollows(f, store, s, node, i, conditional);
      ScanAllFollows(f, store, s1, node, Children(node), i, inner);
      FollowsBoth(f, i, s, NodeTouches(f, store, node, i, conditional), s1,
        AllTouches(f, store, node, Children(node), i, inner), Scan(f, store, s, node, conditional));
    }
  }

  lemma {:induction false} ScanAllFollows(f: Function, store: Store, s: Summary, parent: Stmt, kids: seq<Stmt>, i: nat,
      conditional: bool)
    requires i < |s.params| && forall c :: c in kids ==> c < parent
    ensures Follows(f, i, s, AllTouches(f, store, parent, kids, i, conditional),
      ScanAll(f, store, s, parent, kids, conditional))
    decreases parent, |kids|
  {
    if kids != [] {
      var n := |kids| - 1;
      assert kids[n] in kids && forall c :: c in kids[..n] ==> c in kids;
      var mid := ScanAll(f, store, s, parent, kids[..n], conditional);
      ScanAllFollows(f, store, s, parent, kids[..n], i, conditional);
      ScanFollows(f, store, mid, kids[n], i, conditional);
      FollowsBoth(f, i, s, AllTouches(f, store, parent, kids[..n], i, conditional), mid,
        TreeTouches(f, store, kids[n], i, conditional), ScanAll(f, store, s, parent, kids, conditional));
    }
  }

  function History(d: Defined, store: Store, i: nat): seq<Touch> {
    TreeTouches(d.f, store, d.f.body, i, false)
  }

  /** In a summary without conflict, the effect of any parameter, whatever it points to, is its annotated
      effect changed by its own touches in turn. */
  lemma EffectExactly(d: Defined, returnsPointer: bool, store: Store, i: nat)
    requires WellAnnotated(d) && !Build(d, returnsPointer, store).conflict && i < |d.f.params|
    ensures Follows(d.f, i, Annotated(d), History(d, store, i), Build(d, returnsPointer, store))
  {
    ScanFollows(d.f, store, Annotated(d), d.f.body, i, false);
  }

  // ---------------------------------------------------------------------------------------------
  // When a parameter comes to rest
  // ---------------------------------------------------------------------------------------------

  /** A parameter with a harmless effect so far keeps one. */
  predicate Spared(f: Function, i: nat, before: ParamEffect, t: Touch) {
    match t
    case Used => true
    case Flowed => PointsToPointer(f, i) ==> before == Borrows
    case Passed(effect) => Harmless(effect)
    case Mixed => false
  }

  lemma HarmlessStep(f: Function, i: nat, before: ParamEffect, t: Touch)
    ensures Harmless(After(f, i, before, t)) <==> Harmless(before) && Spared(f, i, before, t)
  {
  }

  /** No touch of `ts` harms the parameter. */
  predicate AllSpared(f: Function, i: nat, before: ParamEffect, ts: seq<Touch>) {
    forall k :: 0 <= k < |ts| ==> Spared(f, i, AfterAll(f, i, before, ts[..k]), ts[k])
  }

  lemma AllSparedNext(f: Function, i: nat, before: ParamEffect, init: seq<Touch>, t: Touch)
    ensures AllSpared(f, i, before, init + [t]) <==>
      AllSpared(f, i, before, init) && Spared(f, i, AfterAll(f, i, before, init), t)
  {
    var ts := init + [t];
    forall k | 0 <= k < |init| ensures ts[..k] == init[..k] && ts[k] == init[k] { }
    assert ts[..|init|] == init && ts[|init|] == t;
  }

  lemma {:induction false} HarmlessExactly(f: Function, i: nat, before: ParamEffect, ts: seq<Touch>)
    ensures Harmless(AfterAll(f, i, before, ts)) <==> Harmless(before) && AllSpared(f, i, before, ts)
    decreases |ts|
  {
    if ts != [] {
      var init, t := ts[..|ts| - 1], ts[|ts| - 1];
      assert ts == init + [t];
      HarmlessExactly(f, i, before, init);
      AllSparedNext(f, i, before, init, t);
      HarmlessStep(f, i, AfterAll(f, i, before, init), t);
    }
  }

  /** In a summary without conflict, a parameter is said to be at most borrowed exactly when its
      annotation says no more, no touch gives it away, and, if it points to pointers, its value goes
      nowhere before it counts as borrowed. */
  lemma RestsExactly(d: Defined, returnsPointer: bool, store: Store, i: nat)
    requires WellAnnotated(d) && !Build(d, returnsPointer, store).conflict && i < |d.f.params|
    ensures var before, ts := Annotated(d).params[i], History(d, store, i);
      Rests(Build(d, returnsPointer, store), i) <==>
        Harmless(before) && AllSpared(d.f, i, before, ts)
  {
    EffectExactly(d, returnsPointer, store, i);
    HarmlessExactly(d.f, i, Annotated(d).params[i], History(d, store, i));
  }

  // ---------------------------------------------------------------------------------------------
  // When a parameter is consumed
  // ---------------------------------------------------------------------------------------------

  /** A parameter that is said to be consumed in this way stays so. */
  predicate KeepsConsumed(effect: ParamEffect, t: Touch) {
    match t
    case Used => true
    case Flowed => true
    case Passed(e) => e == effect || (effect == TakesOwnership && e == Destroys)
    case Mixed => false
  }

  predicate AllKeep(effect: ParamEffect, ts: seq<Touch>) { forall t :: t in ts ==> KeepsConsumed(effect, t) }

  /** Touch `k` consumes it, nothing before does any harm, and nothing after does anything else. */
  predicate ConsumesAt(f: Function, i: nat, before: ParamEffect, ts: seq<Touch>, effect: ParamEffect, k: nat) {
    && k < |ts| && ts[k] == Passed(effect)
    && Harmless(before) && AllSpared(f, i, before, ts[..k]) && AllKeep(effect, ts[k + 1..])
  }

  ghost predicate ConsumedBy(f: Function, i: nat, before: ParamEffect, ts: seq<Touch>, effect: ParamEffect) {
    (before == effect && AllKeep(effect, ts)) || exists k :: ConsumesAt(f, i, before, ts, effect, k)
  }

  lemma ConsumedOnce(f: Function, i: nat, before: ParamEffect, t: Touch, effect: ParamEffect)
    requires effect == Destroys || effect == TakesOwnership
    ensures After(f, i, before, t) == effect <==>
      (before == effect && KeepsConsumed(effect, t)) || (Harmless(before) && t == Passed(effect))
  {
  }

  lemma ConsumedNext(f: Function, i: nat, before: ParamEffect, init: seq<Touch>, t: Touch, effect: ParamEffect)
    requires effect == Destroys || effect == TakesOwnership
    ensures ConsumedBy(f, i, before, init + [t], effect) <==>
      || (ConsumedBy(f, i, before, init, effect) && KeepsConsumed(effect, t))
      || (Harmless(before) && AllSpared(f, i, before, init) && t == Passed(effect))
  {
    var ts, n := init + [t], |init|;
    assert ts[..n] == init && ts[n + 1..] == [];
    if k: nat :| ConsumesAt(f, i, before, ts, effect, k) {
      if k < n {
        assert ts[..k] == init[..k] && ts[k + 1..] == init[k + 1..] + [t];
        assert ConsumesAt(f, i, before, init, effect, k);
      }
    }
    if k: nat :| ConsumesAt(f, i, before, init, effect, k) {
      assert ts[..k] == init[..k] && ts[k + 1..] == init[k + 1..] + [t];
      if KeepsConsumed(effect, t) { assert ConsumesAt(f, i, before, ts, effect, k); }
    }
    if Harmless(before) && AllSpared(f, i, before, init) && t == Passed(effect) {
      assert ConsumesAt(f, i, before, ts, effect, n);
    }
  }

  lemma {:induction false} ConsumedAfterAll(f: Function, i: nat, before: ParamEffect, ts: seq<Touch>,
      effect: ParamEffect)
    requires effect == Destroys || effect == TakesOwnership
    ensures AfterAll(f, i, before, ts) == effect <==> ConsumedBy(f, i, before, ts, effect)
    decreases |ts|
  {
    if ts != [] {
      var init, t := ts[..|ts| - 1], ts[|ts| - 1];
      assert ts == init + [t];
      ConsumedAfterAll(f, i, before, init, effect);
      HarmlessExactly(f, i, before, init);
      ConsumedOnce(f, i, AfterAll(f, i, before, init), t, effect);
      ConsumedNext(f, i, before, init, t, effect);
    }
  }

  /** In a summary without conflict, a parameter is said to be destroyed, or taken over, exactly when its
      annotation says so and no use says otherwise, or when it is passed on to that effect after harmless
      uses only and nothing else happens to it from there on. */
  lemma ConsumedExactly(d: Defined, returnsPointer: bool, store: Store, i: nat, effect: ParamEffect)
    requires WellAnnotated(d) && !Build(d, returnsPointer, store).conflict && i < |d.f.params|
    requires effect == Destroys || effect == TakesOwnership
    ensures Build(d, returnsPointer, store).params[i] == effect <==>
      ConsumedBy(d.f, i, Annotated(d).params[i], History(d, store, i), effect)
  {
    EffectExactly(d, returnsPointer, store, i);
    ConsumedAfterAll(d.f, i, Annotated(d).params[i], History(d, store, i), effect);
  }

  // ---------------------------------------------------------------------------------------------
  // What an argument does
  // ---------------------------------------------------------------------------------------------

  predicate Inside(f: Function, e: Stmt, i: nat) { Tracked(f, i) && ContainsParameter(f, e, i) }

  /** Parameter `i` is a tracked parameter in the argument, and the only one. */
  predicate OnlyIn(f: Function, e: Stmt, i: nat) {
    Inside(f, e, i) && forall j: nat :: j < |f.params| && Inside(f, e, j) ==> j == i
  }

  predicate AnotherIn(f: Function, e: Stmt, i: nat) {
    exists j: nat :: j < |f.params| && j != i && Inside(f, e, j)
  }

  predicate NoneIn(f: Function, e: Stmt) {
    forall j: nat :: j < |f.params| ==> !Inside(f, e, j)
  }

  /** What a call does to its argument `k`: `free` destroys it, a callee with a summary does what that
      says, and any other may do anything. */
  function DoneTo(store: Store, call: Stmt, k: nat): ParamEffect
    requires call.Call?
  {
    if call.callee == Some(Free) && |call.arguments| == 1 then Destroys
    else if call.callee.Some? && call.callee.value in store && k < |store[call.callee.value].params| then
      store[call.callee.value].params[k]
    else UnknownEffect
  }

  /** Under a condition it is done for certain only if it does no harm. */
  function CertainOnly(e: ParamEffect, conditional: bool): ParamEffect {
    if conditional && e !in {NoEffect, Borrows} then UnknownEffect else e
  }

  predicate Increasing(ps: seq<nat>) { forall j, k :: 0 <= j < k < |ps| ==> ps[j] < ps[k] }

  lemma {:induction false} ContainedInOrder(f: Function, e: Stmt, n: nat)
    ensures Increasing(Contained(f, e, n))
  {
    if n > 0 {
      ContainedInOrder(f, e, n - 1);
      var before := Contained(f, e, n - 1);
      forall j | 0 <= j < |before| ensures before[j] < n - 1 { assert before[j] in before; }
    }
  }

  lemma {:induction false} Spread(ps: seq<nat>)
    requires Increasing(ps) && ps != []
    ensures ps[|ps| - 1] >= ps[0] + |ps| - 1
    decreases |ps|
  {
    if |ps| > 1 { Spread(ps[..|ps| - 1]); }
  }

  lemma SingleMember(ps: seq<nat>, i: nat)
    requires Increasing(ps) && i in ps && forall j :: j in ps ==> j == i
    ensures ps == [i]
  {
    assert ps[0] in ps && ps[|ps| - 1] in ps;
    Spread(ps);
  }

  lemma ContainedOnly(f: Function, e: Stmt, i: nat)
    requires OnlyIn(f, e, i)
    ensures Contained(f, e, |f.params|) == [i]
  {
    var ps := Contained(f, e, |f.params|);
    ContainedInOrder(f, e, |f.params|);
    assert i in ps;
    forall j | j in ps ensures j == i { assert Inside(f, e, j); }
    SingleMember(ps, i);
  }

  lemma TwoMembers(ps: seq<nat>, i: nat, j: nat)
    requires i in ps && j in ps && i != j
    ensures |ps| > 1
  {
    var a: nat :| a < |ps| && ps[a] == i;
    var b: nat :| b < |ps| && ps[b] == j;
    assert a != b;
  }

  lemma ContainedMore(f: Function, e: Stmt, i: nat)
    requires Inside(f, e, i) && AnotherIn(f, e, i)
    ensures |Contained(f, e, |f.params|)| > 1
  {
    var j: nat :| j < |f.params| && j != i && Inside(f, e, j);
    TwoMembers(Contained(f, e, |f.params|), i, j);
  }

  lemma ContainedNone(f: Function, e: Stmt)
    ensures NoneIn(f, e) <==> Contained(f, e, |f.params|) == []
  {
    var ps := Contained(f, e, |f.params|);
    if NoneIn(f, e) {
      if ps != [] { assert ps[0] in ps && Inside(f, e, ps[0]); }
    } else {
      var j: nat :| j < |f.params| && Inside(f, e, j);
      assert j in ps;
    }
  }

  /** An argument that contains parameter `i` alone passes it on to what the call does to the argument; one
      that contains others too is mixed; one that contains none concerns the parameter that it is an alias
      of, if the call consumes it. */
  lemma ArgumentTouches(f: Function, store: Store, call: Stmt, k: nat, i: nat, conditional: bool)
    requires call.Call? && k < |call.arguments|
    ensures var touch, e := NoteTouch(NoteOf(f, store, call, k), i, conditional), call.arguments[k];
      && (OnlyIn(f, e, i) ==> touch == [Passed(CertainOnly(DoneTo(store, call, k), conditional))])
      && (Inside(f, e, i) && AnotherIn(f, e, i) ==> touch == [Mixed])
      && (!Inside(f, e, i) && !NoneIn(f, e) ==> touch == [])
      && (NoneIn(f, e) ==>
            if DoneTo(store, call, k) in {Destroys, TakesOwnership} && AliasedParameter(f, e) == Some(i) then
              touch == [Passed(CertainOnly(DoneTo(store, call, k), conditional))]
            else touch == [])
  {
    var e := call.arguments[k];
    var note := NoteOf(f, store, call, k);
    InvolvedExactly(f, store, call, k);
    assert note.effect == DoneTo(store, call, k);
    if OnlyIn(f, e, i) {
      ContainedOnly(f, e, i);
      assert note.involved == [i];
    } else if Inside(f, e, i) && AnotherIn(f, e, i) {
      ContainedMore(f, e, i);
      assert i in note.involved && |note.involved| > 1;
    }
  }

  /** Whom an argument concerns. */
  lemma InvolvedExactly(f: Function, store: Store, call: Stmt, k: nat)
    requires call.Call? && k < |call.arguments|
    ensures var e := call.arguments[k];
      Involved(f, store, call, k) ==
        if !NoneIn(f, e) then Contained(f, e, |f.params|)
        else if DoneTo(store, call, k) in {Destroys, TakesOwnership} && AliasedParameter(f, e).Some? then
          [AliasedParameter(f, e).value]
        else []
  {
    ContainedNone(f, call.arguments[k]);
    assert ConsumingCall(store, call, k) <==> DoneTo(store, call, k) in {Destroys, TakesOwnership};
  }
}
