/** What one element of a basic block, and one branch edge, does to an abstract state. Each function
    here is the specification of a handler of `Analyzer.FlowAnalyzer`. */
module Transfer {
  import opened Flow
  import opened Height
  import opened Options
  import opened OutOwners

  // ---------------------------------------------------------------------------------------------
  // The analysed program
  // ---------------------------------------------------------------------------------------------

  /** A producing call: its identity, its out-slot, the variable that receives its result, the
      variables its other arguments mention, and whether the syntactic half of the acceptance test
      holds (direct, non-variadic, not a realloc, not in a loop, slot address not taken elsewhere;
      and, for the result variable, its address not taken). */
  datatype Production = Production(
    call: nat, site: Site, dest: Storage, contract: OutOwner, result: Option<Storage>,
    arguments: set<Storage>, admissible: bool, resultPrivate: bool)

  /** One element of a basic block. `decl` tells a declaration's initialiser from an assignment;
      `at` is the rank of the element's source position. `CallPoint` is a call without effect on
      ownership, such as the allocation call that comes before the `Malloc` that stores its result.
      `Enclosing` is what mentions variables and does nothing else: the arguments of such a call, before
      it, and an expression or declaration around earlier elements, which mentions their variables
      again. */
  datatype Cmd =
    | Malloc(x: Storage, site: Site, decl: bool, at: nat)
    | SetNull(x: Storage, decl: bool, at: nat)
    | Copy(x: Storage, y: Storage, decl: bool, at: nat)
    | Move(x: Storage, y: Storage, decl: bool, at: nat)
    | Borrow(x: Storage, y: Storage, kind: BorrowKind, at: nat)
    | Declare(x: Storage)
    | Free(x: Storage, at: nat)
    | Deref(x: Storage, at: nat)
    | Bump(x: Storage, at: nat)
    | StoreScalar(x: Storage, decl: bool)
    | Produce(production: Production, decl: bool, at: nat)
    | CallPoint
    | Enclosing(mentioned: set<Storage>)
    | Opaque

  datatype Subject =
    | Variable(v: Storage)
    | AssignedVariable(v: Storage)
    | ProducingCall(dest: Storage, contract: OutOwner)
    | OtherSubject

  datatype Cond =
    | Not(inner: Cond)
    | Equal(subject: Subject, constant: Option<int>)
    | NotEqual(subject: Subject, constant: Option<int>)
    | Truth(subject: Subject)
    | OtherCond

  /** A successor that the control-flow graph has pruned is `None`; it still has an edge number. */
  datatype Block = Block(cmds: seq<Cmd>, cond: Option<Cond>, loopHead: bool, succs: seq<Option<nat>>)

  // ---------------------------------------------------------------------------------------------
  // Reports
  // ---------------------------------------------------------------------------------------------

  /** Findings first, then the unsupported obligations that turn a PASS into INCOMPLETE. */
  datatype Report =
    | UseAfterDestroy | DoubleDestroy | UseAfterMove | DoubleMove | MoveFromDead | ConflictingOwner
    | DestroyFromNonOwner | DestroyBorrowedParameter
    | DestroyedWhileBorrowed(borrow: Storage) | BorrowUsedAfterDeath | BorrowConflict(borrow: Storage)
    | NewBorrowConflict
    | AmbiguousAliasTarget | FreeUntracked | FreeUnknownState | AccessUnknownState
    | HeapWidening | IdExhausted | OwnerOverwrite | MoveBorrowedStorage | BorrowUnknownParent
    | UnknownBorrowState | UnrefinedOutOwnerUse | PointerArithmetic | PointerOutput | UnsupportedConstruct

  /** `created` lists the storages that became borrows. */
  datatype Outcome = Outcome(state: FlowState, reports: set<Report>, created: set<Storage>)

  function Silent(st: FlowState): Outcome { Outcome(st, {}, {}) }
  function Reporting(st: FlowState, r: Report): Outcome { Outcome(st, {r}, {}) }

  /** The result of the borrow-liveness analysis at one program point. While the flow analysis is
      still converging nothing has been measured, and every borrow counts as live. */
  datatype LiveAfter = Unmeasured | Measured(live: set<Storage>)

  predicate LiveIn(l: LiveAfter, v: Storage) {
    l.Unmeasured? || v in l.live
  }

  // ---------------------------------------------------------------------------------------------
  // Object identities
  // ---------------------------------------------------------------------------------------------

  const PARAMETER_BASE: nat := 0x8000_0000

  function ObjectIdFor(site: Site, generation: nat): ObjectId {
    if generation == 0 then (if site < PARAMETER_BASE then site else UNKNOWN_ID)
    else if 0xFFFF_FFFF / GENERATION_STRIDE < site then UNKNOWN_ID
    else
      var id := (site + generation * GENERATION_STRIDE) % 0x1_0000_0000;
      if id < PARAMETER_BASE then id else UNKNOWN_ID
  }

  predicate BelongsToSite(site: Site, id: ObjectId) {
    id != NULL_ID && id != UNKNOWN_ID && id % GENERATION_STRIDE == site
  }

  predicate Retained(site: Site, dest: Storage, st: FlowState) {
    || (exists v :: v in st.storages && v != dest && BelongsToSite(site, st.storages[v].id))
    || (exists v :: v in st.borrows && BelongsToSite(site, st.borrows[v].parent))
  }

  // ---------------------------------------------------------------------------------------------
  // Allocation, null, copy
  // ---------------------------------------------------------------------------------------------

  function Bind(st: FlowState, x: Storage, id: ObjectId, relation: Relation, at: nat): FlowState {
    st.(storages := st.storages[x := Binding(id, relation, At(at), false)])
  }

  function BindUnresolved(st: FlowState, x: Storage, at: nat): FlowState {
    Bind(st, x, UNKNOWN_ID, UnknownRelation, at)
  }

  function ObjectAt(st: FlowState, id: ObjectId): ObjectInfo {
    if id in st.objects then st.objects[id] else FRESH_OBJECT
  }

  /** The state in which `x` owns object `id`, newly allocated at `at`. */
  function BindOwned(st: FlowState, x: Storage, id: ObjectId, at: nat): FlowState {
    Bind(st, x, id, Owner, at).(objects :=
      st.objects[id := ObjectAt(st, id).(state := Owned, allocation := At(at))])
  }

  function Generation(st: FlowState, site: Site): nat {
    if site in st.generations then st.generations[site] else 0
  }

  function AllocateAs(st: FlowState, x: Storage, site: Site, generation: nat, at: nat): Outcome {
    var id := ObjectIdFor(site, generation);
    if id == UNKNOWN_ID then Reporting(BindUnresolved(st, x, at), IdExhausted)
    else Silent(BindOwned(st, x, id, at))
  }

  /** Allocation with at most two generations per site; looking the generation up enters it. */
  function BindAllocation(st0: FlowState, x: Storage, site: Site, at: nat): Outcome {
    var generation := Generation(st0, site);
    var st := st0.(generations := st0.generations[site := generation]);
    if site in st.widened then
      Reporting(BindUnresolved(st, x, at), HeapWidening)
    else if !Retained(site, x, st) then
      AllocateAs(st, x, site, generation, at)
    else if generation >= 1 then
      Reporting(BindUnresolved(st.(widened := st.widened + {site}), x, at), HeapWidening)
    else
      AllocateAs(st.(generations := st.generations[site := 1]), x, site, 1, at)
  }

  function ObjectOf(st: FlowState, b: Binding): Option<ObjectInfo> {
    if b.id == NULL_ID || b.id == UNKNOWN_ID || b.id !in st.objects then None else Some(st.objects[b.id])
  }

  predicate MayBeLive(s: ObjectState) {
    s == Owned || s == MaybeDead || s == UnknownState
  }

  predicate Overwrites(st: FlowState, x: Storage) {
    && x in st.storages
    && (var target := ObjectOf(st, st.storages[x]); target.Some? && MayBeLive(target.value.state))
  }

  /** An assignment, unlike a declaration, must not overwrite the owner of a live object. */
  function MallocStep(st: FlowState, x: Storage, site: Site, decl: bool, at: nat): Outcome {
    var o := BindAllocation(st, x, site, at);
    if !decl && Overwrites(st, x) then o.(reports := o.reports + {OwnerOverwrite}) else o
  }

  function CopiedRelation(r: Relation): Relation {
    if r == Moved then Moved else if r == MaybeMoved then MaybeMoved else Alias
  }

  /** Copying an unresolved pointer is reported and leaves the target's binding as it was. */
  function CopyStep(st: FlowState, x: Storage, y: Storage, at: nat): Outcome {
    if y !in st.storages || Unresolved(st.storages[y]) then Reporting(st, AmbiguousAliasTarget)
    else if st.storages[y].id == NULL_ID then Silent(Bind(st, x, NULL_ID, Null, at))
    else Silent(Bind(st, x, st.storages[y].id, CopiedRelation(st.storages[y].relation), at))
  }

  // ---------------------------------------------------------------------------------------------
  // Moves
  // ---------------------------------------------------------------------------------------------

  /** The cases in which a move through an initialiser or assignment is dropped without a word:
      the source is unresolved, or its object is not one this function may give away. */
  predicate MoveIgnored(st: FlowState, y: Storage) {
    || y !in st.storages
    || st.storages[y].id == UNKNOWN_ID
    || (y !in st.borrows && !KnownNull(st.storages[y]) &&
        (st.storages[y].id !in st.objects ||
         (st.objects[st.storages[y].id].origin == Parameter &&
          st.objects[st.storages[y].id].capability != MayTakeOwnership)))
  }

  function MoveStep(st: FlowState, x: Storage, y: Storage, at: nat): Outcome {
    if MoveIgnored(st, y) then Silent(st)
    else if y in st.borrows then Reporting(st, MoveBorrowedStorage)
    else
      var b := st.storages[y];
      if KnownNull(b) then Silent(Bind(st, x, NULL_ID, Null, at))
      else
        var o := st.objects[b.id];
        if MovedRelation(b.relation) then Reporting(st, DoubleMove)
        else if o.state == Dead || o.state == MaybeDead then Reporting(st, MoveFromDead)
        else if b.relation != Owner || x == y then Reporting(st, ConflictingOwner)
        else if Overwrites(st, x) then Reporting(st, ConflictingOwner)
        else
          var given := st.(storages := st.storages[y := b.(relation := Moved, where := At(at))]);
          Silent(Bind(given, x, b.id, Owner, at))
  }

  // ---------------------------------------------------------------------------------------------
  // Borrows
  // ---------------------------------------------------------------------------------------------

  predicate Conflicts(st: FlowState, x: Storage, parent: ObjectId, kind: BorrowKind, v: Storage) {
    && v in st.borrows && v != x && st.borrows[v].parent == parent && st.borrows[v].state == Live
    && (kind == Mutable || st.borrows[v].kind == Mutable)
  }

  predicate DeadOrMaybeDead(st: FlowState, id: ObjectId) {
    id in st.objects && (st.objects[id].state == Dead || st.objects[id].state == MaybeDead)
  }

  /** On a conflict the first conflicting borrow is reported and nothing is created. */
  function CreateBorrow(st: FlowState, x: Storage, parent: ObjectId, kind: BorrowKind, at: nat): Outcome {
    if parent == UNKNOWN_ID || parent !in st.objects || DeadOrMaybeDead(st, parent) then
      Reporting(st, BorrowUnknownParent)
    else if exists v :: v in st.borrows && Conflicts(st, x, parent, kind, v) then Reporting(st, NewBorrowConflict)
    else Outcome(st.(borrows := st.borrows[x := BorrowInfo(parent, kind, Live, At(at), NoLocation)]), {}, {x})
  }

  function BorrowStep(st: FlowState, x: Storage, y: Storage, kind: BorrowKind, at: nat): Outcome {
    if y !in st.storages || st.storages[y].id == UNKNOWN_ID || st.storages[y].id == NULL_ID then
      Reporting(st, BorrowUnknownParent)
    else
      var parent := st.storages[y].id;
      CreateBorrow(Bind(st, x, parent, Alias, at), x, parent, kind, at)
  }

  /** Borrows that no later element uses are forgotten. */
  function ExpireBorrows(st: FlowState, live: LiveAfter): FlowState {
    st.(borrows := map v | v in st.borrows && LiveIn(live, v) :: st.borrows[v])
  }

  // ---------------------------------------------------------------------------------------------
  // Access and destruction
  // ---------------------------------------------------------------------------------------------

  function MutableBorrows(st: FlowState, id: ObjectId): set<Storage> {
    set v | v in st.borrows && st.borrows[v].parent == id && st.borrows[v].kind == Mutable &&
      st.borrows[v].state == Live
  }

  /** The pointer expression of an access is not itself a measured point, so every live mutable
      borrow of the owner counts. */
  function OwnerAccessReports(st: FlowState, x: Storage): set<Report> {
    if x in st.borrows || x !in st.storages || st.storages[x].relation != Owner then {}
    else set v | v in MutableBorrows(st, st.storages[x].id) :: BorrowConflict(v)
  }

  function BindingAccessReports(st: FlowState, x: Storage): set<Report> {
    if x !in st.storages then {}
    else
      var b := st.storages[x];
      if b.producedMaybe then {UnrefinedOutOwnerUse}
      else if Unresolved(b) then {AmbiguousAliasTarget}
      else if KnownNull(b) then {}
      else match ObjectOf(st, b)
        case None => {AccessUnknownState}
        case Some(o) =>
          if MovedRelation(b.relation) then {UseAfterMove}
          else if o.state == Dead || o.state == MaybeDead then {UseAfterDestroy}
          else if o.state == UnknownState then {AccessUnknownState}
          else {}
  }

  function AccessReports(st: FlowState, x: Storage): set<Report> {
    if x in st.borrows && (st.borrows[x].state == Invalid || st.borrows[x].state == MaybeInvalid ||
                           DeadOrMaybeDead(st, st.borrows[x].parent)) then {BorrowUsedAfterDeath}
    else if x in st.borrows && st.borrows[x].state == UnknownBorrow then {UnknownBorrowState}
    else OwnerAccessReports(st, x) + BindingAccessReports(st, x)
  }

  /** Live borrows of `id` that a later element still uses. */
  function LiveBorrows(st: FlowState, id: ObjectId, live: LiveAfter): set<Storage> {
    set v | v in st.borrows && st.borrows[v].parent == id && st.borrows[v].state == Live && LiveIn(live, v)
  }

  function InvalidatedBorrows(m: map<Storage, BorrowInfo>, id: ObjectId, at: nat): map<Storage, BorrowInfo> {
    map v | v in m ::
      if m[v].parent == id && m[v].state == Live then m[v].(state := Invalid, invalidated := At(at)) else m[v]
  }

  function InvalidateBorrows(st: FlowState, id: ObjectId, at: nat): FlowState {
    st.(borrows := InvalidatedBorrows(st.borrows, id, at))
  }

  function Destroyed(st: FlowState, x: Storage, id: ObjectId, state: ObjectState, at: nat): FlowState
    requires id in st.objects
  {
    st.(objects := st.objects[id := st.objects[id].(
      state := state, destruction := At(at), destructionKnown := true, destructionStorage := x + 1)])
  }

  function DestroyStep(st: FlowState, x: Storage, b: Binding, at: nat): Outcome
    requires b.id in st.objects
  {
    var s := st.objects[b.id].state;
    if MovedRelation(b.relation) then Reporting(st, DestroyFromNonOwner)
    else if b.relation == MaybeNull && s == Owned then Silent(Destroyed(st, x, b.id, MaybeDead, at))
    else match s
      case NullObject => Silent(st)
      case Owned => Silent(InvalidateBorrows(Destroyed(st, x, b.id, Dead, at), b.id, at))
      case Dead => Reporting(st, DoubleDestroy)
      case MaybeDead => Reporting(st, DoubleDestroy)
      case UnknownState => Reporting(st, FreeUnknownState)
      case Untracked => Reporting(st, FreeUnknownState)
  }

  function FreeStep(st: FlowState, x: Storage, at: nat, live: LiveAfter): Outcome {
    if x !in st.storages then Reporting(st, FreeUntracked)
    else
      var b := st.storages[x];
      if b.producedMaybe then Reporting(st, UnrefinedOutOwnerUse)
      else if KnownNull(b) then Silent(st)
      else if b.id == UNKNOWN_ID || b.id == NULL_ID then Reporting(st, AmbiguousAliasTarget)
      else if b.id !in st.objects then Reporting(st, FreeUnknownState)
      else if st.objects[b.id].origin == Parameter && st.objects[b.id].capability == MayBorrow then
        Reporting(st, DestroyBorrowedParameter)
      else
        var o := DestroyStep(st, x, b, at);
        o.(reports := o.reports + set v | v in LiveBorrows(st, b.id, live) :: DestroyedWhileBorrowed(v))
  }

  // ---------------------------------------------------------------------------------------------
  // Out-owner production
  // ---------------------------------------------------------------------------------------------

  /** A write to `x` ends every guard kept in `x` or testifying about `x`, except those recorded by
      the call whose result is being written. */
  function KillForWrite(st: FlowState, x: Storage, exempt: Option<nat>): FlowState {
    st.(pending := map v | v in st.pending &&
      (!(x == v || x == st.pending[v].dest) || Some(st.pending[v].call) == exempt) :: st.pending[v])
  }

  predicate Accepts(st: FlowState, p: Production) {
    && p.admissible
    && p.result != Some(p.dest)
    && (if p.dest in st.storages then
          var r := st.storages[p.dest].relation;
          (r == Null || MovedRelation(r)) && (p.contract.writeOnSuccess ==> r == Null)
        else !p.contract.writeOnSuccess)
  }

  function KillInCall(st: FlowState, p: Production, accepted: bool): FlowState {
    var mentioned := if accepted then p.arguments else p.arguments + {p.dest};
    st.(pending := map v | v in st.pending && st.pending[v].dest !in mentioned &&
      !(accepted && st.pending[v].dest == p.dest) :: st.pending[v])
  }

  predicate PassesUnrefined(st: FlowState, p: Production, accepted: bool) {
    exists v :: v in st.storages && st.storages[v].producedMaybe &&
      (v in p.arguments || (!accepted && v == p.dest))
  }

  function ProducedBinding(p: Production, id: ObjectId, at: nat): Binding {
    var usable := !p.contract.writeOnSuccess && !p.contract.nullable;
    Binding(id, if usable then Owner else MaybeNull, At(at), !usable)
  }

  function ApplyProduce(st: FlowState, p: Production, at: nat): Outcome {
    var id := ObjectIdFor(p.site, 0);
    if id == UNKNOWN_ID then
      Reporting(st.(storages := st.storages[p.dest := Binding(UNKNOWN_ID, UnknownRelation, At(at), true)]),
        IdExhausted)
    else Silent(st.(
      storages := st.storages[p.dest := ProducedBinding(p, id, at)],
      objects := st.objects[id := ObjectAt(st, id).(state := Owned, allocation := At(at))],
      pending := map v | v in st.pending && st.pending[v].dest != p.dest :: st.pending[v]))
  }

  function RecordGuard(st: FlowState, p: Production): FlowState {
    if p.contract.writeOnSuccess && p.result.Some? && p.resultPrivate then
      st.(pending := st.pending[p.result.value := PendingGuard(p.dest, p.contract.successNonzero, p.call)])
    else st
  }

  /** The call element, then the store of its result into a variable. */
  function ProduceStep(st: FlowState, p: Production, decl: bool, at: nat): Outcome {
    var accepted := Accepts(st, p);
    var unrefined := if PassesUnrefined(st, p, accepted) then {UnrefinedOutOwnerUse} else {};
    var st1 := KillInCall(st, p, accepted);
    var o := if accepted then var o' := ApplyProduce(st1, p, at); o'.(state := RecordGuard(o'.state, p))
             else Reporting(st1, PointerOutput);
    var stored := if p.result.Some? && !decl then KillForWrite(o.state, p.result.value, Some(p.call)) else o.state;
    Outcome(stored, o.reports + unrefined, {})
  }

  // ---------------------------------------------------------------------------------------------
  // Blocks and edges
  // ---------------------------------------------------------------------------------------------

  function Written(st: FlowState, x: Storage, decl: bool): FlowState {
    if decl then st else KillForWrite(st, x, None)
  }

  /** Elements that are calls or unary expressions end with the expiry of unused borrows. */
  function Step(c: Cmd, st: FlowState, live: LiveAfter): Outcome {
    match c
    case Malloc(x, site, decl, at) => MallocStep(Written(st, x, decl), x, site, decl, at)
    case SetNull(x, decl, at) => Silent(Bind(Written(st, x, decl), x, NULL_ID, Null, at))
    case Copy(x, y, decl, at) => CopyStep(Written(st, x, decl), x, y, at)
    case Move(x, y, decl, at) => MoveStep(Written(st, x, decl), x, y, at)
    case Borrow(x, y, kind, at) => BorrowStep(st, x, y, kind, at)
    case Declare(_) => Silent(st)
    case Free(x, at) => var o := FreeStep(st, x, at, live); o.(state := ExpireBorrows(o.state, live))
    case Deref(x, _) => Outcome(ExpireBorrows(st, live), AccessReports(st, x), {})
    case Bump(x, at) =>
      Reporting(ExpireBorrows(BindUnresolved(KillForWrite(st, x, None), x, at), live), PointerArithmetic)
    case StoreScalar(x, decl) => Silent(Written(st, x, decl))
    case Produce(p, decl, at) => var o := ProduceStep(st, p, decl, at); o.(state := ExpireBorrows(o.state, live))
    case CallPoint => Silent(ExpireBorrows(st, live))
    case Enclosing(_) => Silent(st)
    case Opaque => Reporting(st, UnsupportedConstruct)
  }

  function RunBlock(cmds: seq<Cmd>, st: FlowState, live: seq<LiveAfter>): Outcome
    requires |live| == |cmds|
  {
    if cmds == [] then Silent(st)
    else
      var n := |cmds| - 1;
      var before := RunBlock(cmds[..n], st, live[..n]);
      var o := Step(cmds[n], before.state, live[n]);
      Outcome(o.state, before.reports + o.reports, before.created + o.created)
  }

  lemma RunBlockNext(cmds: seq<Cmd>, st: FlowState, live: seq<LiveAfter>, k: nat)
    requires k < |cmds| == |live|
    ensures var before := RunBlock(cmds[..k], st, live[..k]); var o := Step(cmds[k], before.state, live[k]);
      RunBlock(cmds[..k + 1], st, live[..k + 1]) == Outcome(o.state, before.reports + o.reports,
        before.created + o.created)
  {
    assert cmds[..k + 1][..k] == cmds[..k] && live[..k + 1][..k] == live[..k];
  }

  function NothingMeasured(n: nat): (s: seq<LiveAfter>)
    ensures |s| == n && forall k :: 0 <= k < n ==> s[k] == Unmeasured
  {
    seq(n, _ => Unmeasured)
  }

  /** A block's effect while the analysis converges. */
  function TransferBlock(b: Block, st: FlowState): FlowState {
    RunBlock(b.cmds, st, NothingMeasured(|b.cmds|)).state
  }

  /** The storages that become borrows meanwhile. */
  function CreatedIn(b: Block, st: FlowState): set<Storage> {
    RunBlock(b.cmds, st, NothingMeasured(|b.cmds|)).created
  }

  function RefineByPolarity(st: FlowState, dest: Storage, successNonzero: bool, equal: bool, zero: bool): FlowState {
    if dest !in st.storages || !st.storages[dest].producedMaybe then st
    else
      var b := st.storages[dest];
      var success := if equal then !successNonzero == zero else successNonzero && zero;
      var failure := if equal then !success else !successNonzero && zero;
      if success && b.id != NULL_ID && b.id != UNKNOWN_ID then
        st.(storages := st.storages[dest := Binding(b.id, Owner, b.where, false)])
      else if failure then
        st.(storages := st.storages[dest := Binding(NULL_ID, Null, b.where, true)])
      else st
  }

  function RefineByNullCheck(st: FlowState, dest: Storage, nonNull: bool): FlowState {
    if dest !in st.storages || !st.storages[dest].producedMaybe then st
    else
      var b := st.storages[dest];
      if !nonNull then st.(storages := st.storages[dest := Binding(NULL_ID, Null, b.where, true)])
      else if b.id != NULL_ID && b.id != UNKNOWN_ID then
        st.(storages := st.storages[dest := Binding(b.id, Owner, b.where, false)])
      else st
  }

  /** `equal`: the edge says that the subject equals the constant; `zero`: the constant is 0. */
  function RefineSubject(st: FlowState, s: Subject, equal: bool, zero: bool): FlowState {
    match s
    case ProducingCall(dest, contract) => RefineByPolarity(st, dest, contract.successNonzero, equal, zero)
    case OtherSubject => st
    case Variable(v) => RefineVariable(st, v, equal, zero)
    case AssignedVariable(v) => RefineVariable(st, v, equal, zero)
  }

  function RefineVariable(st: FlowState, v: Storage, equal: bool, zero: bool): FlowState {
    if v in st.pending then RefineByPolarity(st, st.pending[v].dest, st.pending[v].successNonzero, equal, zero)
    else if zero then RefineByNullCheck(st, v, !equal)
    else st
  }

  /** `holds`: the condition is true on this edge. */
  function Refine(st: FlowState, c: Cond, holds: bool): FlowState {
    match c
    case Not(inner) => Refine(st, inner, !holds)
    case Equal(s, k) => if k.Some? then RefineSubject(st, s, holds, k.value == 0) else st
    case NotEqual(s, k) => if k.Some? then RefineSubject(st, s, !holds, k.value == 0) else st
    case Truth(s) => RefineSubject(st, s, !holds, true)
    case OtherCond => st
  }

  /** What flows along edge number `i` of a block whose elements end in `out`. */
  function EdgeState(b: Block, i: nat, out: FlowState): FlowState {
    var refined := if b.cond.Some? then Refine(out, b.cond.value, i == 0) else out;
    if b.loopHead then refined.(pending := map[]) else refined
  }
}
