/** Function summaries: what a scan of a function's body says about its parameters and its result. */
module Summaries {
  import opened Options
  import opened Effects
  import opened Syntax
  import opened Origins

  datatype Summary = Summary(result: ReturnEffect, borrowArg: Option<nat>, params: seq<ParamEffect>, conflict: bool)

  type Store = map<Name, Summary>

  /** Nothing is known about a call without a direct callee. */
  function Find(store: Store, callee: Option<Name>): Option<Summary> {
    if callee.Some? && callee.value in store then Some(store[callee.value]) else None
  }

  predicate Tracked(f: Function, i: nat) { i < |f.params| && f.params[i].Pointer? }

  // ---------------------------------------------------------------------------------------------
  // Direct uses of parameters
  // ---------------------------------------------------------------------------------------------

  /** Every untouched pointer parameter that occurs in `e` becomes borrowed. */
  function MarkBorrow(f: Function, s: Summary, e: Stmt): (r: Summary)
    ensures |r.params| == |s.params|
  {
    s.(params := seq(|s.params|, i requires 0 <= i < |s.params| =>
      if Tracked(f, i) && ContainsParameter(f, e, i) && s.params[i] == NoEffect then Borrows else s.params[i]))
  }

  /** As above, but what a parameter points to may itself be a pointer, and then nothing is known. */
  function MarkFlow(f: Function, s: Summary, e: Stmt): (r: Summary)
    ensures |r.params| == |s.params|
  {
    s.(params := seq(|s.params|, i requires 0 <= i < |s.params| =>
      if Tracked(f, i) && ContainsParameter(f, e, i) && s.params[i] == NoEffect then
        (if f.params[i].pointee.Pointer? then UnknownEffect else Borrows)
      else s.params[i]))
  }

  // ---------------------------------------------------------------------------------------------
  // Calls
  // ---------------------------------------------------------------------------------------------

  /** The tracked parameters below `n` that occur in `e`, in order. */
  function Contained(f: Function, e: Stmt, n: nat): (r: seq<nat>)
    ensures forall i: nat :: i in r <==> i < n && Tracked(f, i) && ContainsParameter(f, e, i)
  {
    if n == 0 then []
    else Contained(f, e, n - 1) + if Tracked(f, n - 1) && ContainsParameter(f, e, n - 1) then [n - 1] else []
  }

  predicate IsFree(call: Stmt) {
    call.Call? && call.callee == Some(Free) && |call.arguments| == 1
  }

  function CalleeEffect(store: Store, call: Stmt, k: nat): Option<ParamEffect>
    requires call.Call?
  {
    var callee := Find(store, call.callee);
    if callee.Some? && k < |callee.value.params| then Some(callee.value.params[k]) else None
  }

  predicate ConsumingCall(store: Store, call: Stmt, k: nat)
    requires call.Call?
  {
    IsFree(call) || CalleeEffect(store, call, k) == Some(Destroys) ||
      CalleeEffect(store, call, k) == Some(TakesOwnership)
  }

  /** A local pointer that is taken to hold a parameter's value throughout: initialised with the
      parameter, never assigned, its address never taken, and the parameter never assigned directly. */
  function AliasedParameter(f: Function, e: Stmt): Option<nat> {
    var r := Strip(e);
    if !r.Variable? || !r.ty.Pointer? || r.v !in f.locals || f.locals[r.v].isStatic || f.locals[r.v].qualified
       || f.locals[r.v].init.None? then None
    else
      var p := ParameterIndex(f, f.locals[r.v].init.value);
      if p.None? || AssignsVariable(f.body, r.v) || TakesAddress(f.body, r.v) || AssignsParameter(f, f.body, p.value)
      then None else p
  }

  /** The parameters that argument `k` involves. An alias counts only towards a consuming call. */
  function Involved(f: Function, store: Store, call: Stmt, k: nat): seq<nat>
    requires call.Call? && k < |call.arguments|
  {
    var direct := Contained(f, call.arguments[k], |f.params|);
    if direct != [] || !ConsumingCall(store, call, k) then direct
    else
      var alias := AliasedParameter(f, call.arguments[k]);
      if alias.Some? then [alias.value] else []
  }

  function ArgumentEffect(store: Store, call: Stmt, k: nat): ParamEffect
    requires call.Call?
  {
    if IsFree(call) then Destroys
    else
      var e := CalleeEffect(store, call, k);
      if e.Some? then e.value else UnknownEffect
  }

  predicate Harmless(e: ParamEffect) { e == NoEffect || e == Borrows }

  /** A second effect on a parameter. */
  function Combine(before: ParamEffect, effect: ParamEffect): ParamEffect {
    if before == TakesOwnership && (effect == TakesOwnership || effect == Destroys) then before
    else if Harmless(before) then effect
    else if effect != before then UnknownEffect
    else before
  }

  function SetParam(s: Summary, i: nat, e: ParamEffect): (r: Summary)
    ensures |r.params| == |s.params|
  {
    if i < |s.params| then s.(params := s.params[i := e]) else s
  }

  function ForgetAll(s: Summary, ps: seq<nat>): (r: Summary)
    ensures |r.params| == |s.params|
    decreases |ps|
  {
    if ps == [] then s else ForgetAll(SetParam(s, ps[0], UnknownEffect), ps[1..])
  }

  function EffectNow(s: Summary, i: nat): ParamEffect {
    if i < |s.params| then s.params[i] else UnknownEffect
  }

  /** What one argument of a call does: to which parameters, and how. */
  datatype Note = Note(involved: seq<nat>, effect: ParamEffect)

  function NoteOf(f: Function, store: Store, call: Stmt, k: nat): Note
    requires call.Call? && k < |call.arguments|
  {
    Note(Involved(f, store, call, k), ArgumentEffect(store, call, k))
  }

  function Notes(f: Function, store: Store, call: Stmt): seq<Note>
    requires call.Call?
  {
    seq(|call.arguments|, k requires 0 <= k < |call.arguments| => NoteOf(f, store, call, k))
  }

  /** Under a condition, a consuming effect is only a possible one. */
  function NoteStep(s: Summary, n: Note, conditional: bool): (r: Summary)
    ensures |r.params| == |s.params|
  {
    if n.involved == [] then s
    else if |n.involved| > 1 then ForgetAll(s, n.involved)
    else
      var effect := if conditional && !Harmless(n.effect) then UnknownEffect else n.effect;
      SetParam(s, n.involved[0], Combine(EffectNow(s, n.involved[0]), effect))
  }

  function NoteSteps(s: Summary, ns: seq<Note>, conditional: bool): (r: Summary)
    ensures |r.params| == |s.params|
  {
    if ns == [] then s
    else NoteStep(NoteSteps(s, ns[..|ns| - 1], conditional), ns[|ns| - 1], conditional)
  }

  function CallStep(f: Function, store: Store, s: Summary, call: Stmt, conditional: bool): (r: Summary)
    requires call.Call?
    ensures |r.params| == |s.params|
  {
    var noted := NoteSteps(s, Notes(f, store, call), conditional);
    if call.callee == Some(Realloc) then noted.(conflict := true) else noted
  }

  // ---------------------------------------------------------------------------------------------
  // Returns
  // ---------------------------------------------------------------------------------------------

  predicate IsAllocator(call: Stmt) {
    call.Call? && (call.callee == Some(Malloc) || call.callee == Some(Calloc))
  }

  predicate OwnedInitializer(store: Store, e: Stmt) {
    var r := Strip(e);
    IsAllocator(r) || (r.Call? && Find(store, r.callee).Some? && Find(store, r.callee).value.result == Owned)
  }

  /** Some declaration inside `s` gives the variable an owned initialiser. */
  predicate OwnedLocal(store: Store, s: Stmt, v: nat) {
    || (s.Declaration? &&
      exists d :: d in s.variables && d.v == v && d.init.Some? && OwnedInitializer(store, d.init.value))
    || exists c :: c in Children(s) && OwnedLocal(store, c, v)
  }

  datatype Returned = Returned(effect: ReturnEffect, borrow: Option<nat>)

  const UNRESOLVED := Returned(UnknownReturn, None)

  function CallReturned(f: Function, store: Store, call: Stmt): Returned
    requires call.Call?
  {
    if IsAllocator(call) then Returned(Owned, None)
    else
      var callee := Find(store, call.callee);
      if callee.None? then UNRESOLVED
      else
        var borrow := callee.value.borrowArg;
        if callee.value.result == BorrowFromArg && borrow.Some? && borrow.value < |call.arguments| then
          var mapped := ParameterIndex(f, call.arguments[borrow.value]);
          if mapped.Some? && AssignsParameter(f, f.body, mapped.value) then UNRESOLVED
          else if mapped.Some? then Returned(BorrowFromArg, mapped)
          else Returned(UnknownReturn, borrow)
        else Returned(callee.value.result, borrow)
  }

  /** What a returned pointer, casts stripped, says about the function's result. */
  function ValueReturned(f: Function, store: Store, s: Summary, value: Stmt): Returned {
    var borrow := BorrowedParameter(f, value);
    if borrow.Some? then
      if AssignsParameter(f, f.body, borrow.value) then UNRESOLVED
      else Returned(if EffectNow(s, borrow.value) == TakesOwnership then Owned else BorrowFromArg, borrow)
    else if value.Call? then CallReturned(f, store, value)
    else if value.Variable? && OwnedLocal(store, f.body, value.v) && !AssignsVariable(f.body, value.v) then
      Returned(Owned, None)
    else UNRESOLVED
  }

  function CombineReturn(s: Summary, v: Returned): (r: Summary)
    ensures r.params == s.params
  {
    if v.effect == NoReturn then s
    else if s.result == NoReturn then s.(result := v.effect, borrowArg := v.borrow)
    else if s.result != v.effect || (v.effect == BorrowFromArg && s.borrowArg != v.borrow) then s.(conflict := true)
    else s
  }

  predicate ReturnsPointer(f: Function, s: Stmt) {
    s.Return? && s.returned.Some? && TypeOf(f, s.returned.value).Pointer?
  }

  predicate ReturnsNull(f: Function, s: Stmt) {
    ReturnsPointer(f, s) && Strip(s.returned.value).Zero?
  }

  // ---------------------------------------------------------------------------------------------
  // The scan
  // ---------------------------------------------------------------------------------------------

  function MarkFlows(f: Function, s: Summary, ds: seq<Declarator>): (r: Summary)
    ensures |r.params| == |s.params|
  {
    if ds == [] then s
    else
      var d := ds[|ds| - 1];
      var before := MarkFlows(f, s, ds[..|ds| - 1]);
      if d.ty.Pointer? && d.init.Some? then MarkFlow(f, before, d.init.value) else before
  }

  /** The effect of a node itself, its children aside. */
  function NodeStep(f: Function, store: Store, s: Summary, node: Stmt, conditional: bool): (r: Summary)
    ensures |r.params| == |s.params|
  {
    match node
    case Return(_) =>
      if ReturnsPointer(f, node) then CombineReturn(s, ValueReturned(f, store, s, Strip(node.returned.value))) else s
    case Dereference(x, _) => MarkFlow(f, s, x)
    case Member(base, arrow, _) => if arrow then MarkBorrow(f, s, base) else s
    case Subscript(base, _, _) => MarkBorrow(f, s, base)
    case Declaration(ds) => MarkFlows(f, s, ds)
    case Assignment(left, right) => if TypeOf(f, left).Pointer? then MarkFlow(f, s, right) else s
    case Call(_, _, _) => CallStep(f, store, s, node, conditional)
    case _ => s
  }

  function Scan(f: Function, store: Store, s: Summary, node: Stmt, conditional: bool): (r: Summary)
    ensures |r.params| == |s.params|
    decreases node, |Children(node)| + 1
  {
    if ReturnsNull(f, node) then s
    else
      ScanAll(f, store, NodeStep(f, store, s, node, conditional), node, Children(node),
        conditional || node.Branching? || node.Conditional?)
  }

  function ScanAll(f: Function, store: Store, s: Summary, ghost parent: Stmt, kids: seq<Stmt>,
      conditional: bool): (r: Summary)
    requires forall c :: c in kids ==> c < parent
    ensures |r.params| == |s.params|
    decreases parent, |kids|
  {
    if kids == [] then s
    else
      var n := |kids| - 1;
      assert kids[n] in kids && forall c :: c in kids[..n] ==> c in kids;
      Scan(f, store, ScanAll(f, store, s, parent, kids[..n], conditional), kids[n], conditional)
  }

  /** The scan of the first `k` children of `node`. */
  function ScanFirst(f: Function, store: Store, s: Summary, node: Stmt, k: nat, conditional: bool): (r: Summary)
    requires k <= |Children(node)|
    ensures |r.params| == |s.params|
  {
    assert forall c :: c in Children(node)[..k] ==> c in Children(node);
    ScanAll(f, store, s, node, Children(node)[..k], conditional)
  }

  lemma ScanFirstNext(f: Function, store: Store, s: Summary, node: Stmt, k: nat, conditional: bool)
    requires k < |Children(node)|
    ensures ScanFirst(f, store, s, node, 0, conditional) == s
    ensures ScanFirst(f, store, s, node, k + 1, conditional) ==
      Scan(f, store, ScanFirst(f, store, s, node, k, conditional), Children(node)[k], conditional)
    ensures Children(node)[k] < node
  {
    var kids := Children(node);
    assert kids[k] in kids && kids[..k + 1][..k] == kids[..k];
  }

  // ---------------------------------------------------------------------------------------------
  // Building a summary
  // ---------------------------------------------------------------------------------------------

  /** The ownership annotations of a declaration. */
  datatype Annotations = Annotations(returnsOwn: bool, borrowsFrom: Option<nat>, params: seq<ParamEffect>)

  datatype Defined = Defined(f: Function, annotations: Annotations)

  predicate WellAnnotated(d: Defined) { |d.annotations.params| == |d.f.params| }

  function Annotated(d: Defined): Summary {
    var result := if d.annotations.returnsOwn then Owned else NoReturn;
    var plain := Summary(result, None, d.annotations.params, false);
    if d.annotations.borrowsFrom.None? then plain
    else if d.annotations.borrowsFrom.value < |d.f.params| then
      plain.(result := BorrowFromArg, borrowArg := d.annotations.borrowsFrom)
    else plain.(conflict := true)
  }

  function Build(d: Defined, returnsPointer: bool, store: Store): Summary {
    var s := Scan(d.f, store, Annotated(d), d.f.body, false);
    var r := if returnsPointer && s.result == NoReturn then s.(result := UnknownReturn) else s;
    if r.conflict then Summary(UnknownReturn, None, seq(|r.params|, _ => UnknownEffect), true) else r
  }
}
