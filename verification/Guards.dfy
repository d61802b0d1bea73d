/** Pending out-owner guards tell the truth: while a guard survives, its variable still holds the
    result of the latest producing call for the guarded slot, and the slot still holds what that call
    left in it. */
module Guards {
  import opened Flow
  import opened Options
  import opened Transfer
  import opened Program
  import opened Execution

  // ---------------------------------------------------------------------------------------------
  // What is asked of the program
  // ---------------------------------------------------------------------------------------------

  ghost predicate HasProduction(blocks: seq<Block>, p: Production) {
    exists b, k :: ProducesAt(blocks, b, k, p)
  }

  predicate ProducesAt(blocks: seq<Block>, b: nat, k: nat, p: Production) {
    b < |blocks| && k < |blocks[b].cmds| && blocks[b].cmds[k].Produce? && blocks[b].cmds[k].production == p
  }

  /** A call is one production, and variables that receive results are not slots: they differ in type. */
  ghost predicate CallsAgree(blocks: seq<Block>) {
    forall p, q :: HasProduction(blocks, p) && HasProduction(blocks, q) ==>
      (p.call == q.call ==> p == q) && p.result != Some(q.dest)
  }

  function CondSubject(c: Cond): Subject {
    match c
    case Not(inner) => CondSubject(inner)
    case Equal(s, _) => s
    case NotEqual(s, _) => s
    case Truth(s) => s
    case OtherCond => OtherSubject
  }

  /** A condition on a call directly follows that call. */
  predicate ConditionFollowsCall(b: Block) {
    b.cond.Some? && CondSubject(b.cond.value).ProducingCall? ==>
      && b.cmds != [] && b.cmds[|b.cmds| - 1].Produce?
      && CondSubject(b.cond.value) ==
           ProducingCall(b.cmds[|b.cmds| - 1].production.dest, b.cmds[|b.cmds| - 1].production.contract)
  }

  /** Conditions ask only for the results of calls that write their slot on success only: other calls
      say nothing by their result. */
  predicate ConditionOnSignal(b: Block) {
    b.cond.Some? && CondSubject(b.cond.value).ProducingCall? ==> CondSubject(b.cond.value).contract.writeOnSuccess
  }

  predicate Declares(c: Cmd, x: Storage) {
    match c
    case Malloc(y, _, decl, _) => decl && x == y
    case SetNull(y, decl, _) => decl && x == y
    case Copy(y, _, decl, _) => decl && x == y
    case Move(y, _, decl, _) => decl && x == y
    case Borrow(y, _, _, _) => x == y
    case Declare(y) => x == y
    case StoreScalar(y, decl) => decl && x == y
    case Produce(p, decl, _) => decl && p.result == Some(x)
    case _ => false
  }

  /** The production involves `x`, as its slot or to receive its result. */
  predicate Involves(c: Cmd, x: Storage) {
    c.Produce? && (c.production.dest == x || c.production.result == Some(x))
  }

  ghost predicate BlockInvolves(b: Block, x: Storage) {
    exists k :: 0 <= k < |b.cmds| && Involves(b.cmds[k], x)
  }

  /** Control does not come back from a production to a declaration it involves, except around a loop,
      whose head forgets all guards. */
  ghost predicate NoStaleDeclaration(blocks: seq<Block>, b: nat, k: nat, x: Storage) {
    b < |blocks| && k < |blocks[b].cmds| && Declares(blocks[b].cmds[k], x) ==>
      && (forall j :: 0 <= j < k ==> !Involves(blocks[b].cmds[j], x))
      && (forall p :: 0 <= p < |blocks| && BlockInvolves(blocks[p], x) ==> !Downstream(blocks, true, p, b))
  }

  ghost predicate NoStaleDeclarations(blocks: seq<Block>) {
    forall b, k, x :: NoStaleDeclaration(blocks, b, k, x)
  }

  // ---------------------------------------------------------------------------------------------
  // Which guards an element leaves
  // ---------------------------------------------------------------------------------------------

  function GuardOf(p: Production): PendingGuard {
    PendingGuard(p.dest, p.contract.successNonzero, p.call)
  }

  predicate RecordsGuard(c: Cmd, v: Storage, g: PendingGuard) {
    c.Produce? && c.production.contract.writeOnSuccess && c.production.result == Some(v) && g == GuardOf(c.production)
  }

  /** An element's writes do not touch the guard of `v`. */
  predicate Spares(c: Cmd, v: Storage, g: PendingGuard) {
    match c
    case Malloc(x, _, decl, _) => decl || (v != x && g.dest != x)
    case SetNull(x, decl, _) => decl || (v != x && g.dest != x)
    case Copy(x, _, decl, _) => decl || (v != x && g.dest != x)
    case Move(x, _, decl, _) => decl || (v != x && g.dest != x)
    case Bump(x, _) => v != x && g.dest != x
    case StoreScalar(x, decl) => decl || (v != x && g.dest != x)
    case Produce(p, decl, _) =>
      && g.dest != p.dest
      && (p.result.Some? && !decl ==> (v != p.result.value && g.dest != p.result.value) || g.call == p.call)
    case _ => true
  }

  predicate KeptOrRecorded(c: Cmd, st: FlowState, st': FlowState, v: Storage) {
    v in st'.pending ==>
      || (v in st.pending && st'.pending[v] == st.pending[v] && Spares(c, v, st.pending[v]))
      || (RecordsGuard(c, v, st'.pending[v]) && Accepts(st, c.production))
  }

  lemma AllocationPending(st: FlowState, x: Storage, site: Site, decl: bool, at: nat)
    ensures MallocStep(st, x, site, decl, at).state.pending == st.pending
  {
  }

  lemma MovePending(st: FlowState, x: Storage, y: Storage, at: nat)
    ensures MoveStep(st, x, y, at).state.pending == st.pending
  {
  }

  lemma CopyPending(st: FlowState, x: Storage, y: Storage, at: nat)
    ensures CopyStep(st, x, y, at).state.pending == st.pending
  {
  }

  lemma BorrowPending(st: FlowState, x: Storage, y: Storage, kind: BorrowKind, at: nat)
    ensures BorrowStep(st, x, y, kind, at).state.pending == st.pending
  {
  }

  lemma FreePending(st: FlowState, x: Storage, at: nat, live: LiveAfter)
    ensures FreeStep(st, x, at, live).state.pending == st.pending
  {
  }

  /** Neither kind of call leaves a guard for its slot or for a slot among its arguments. */
  lemma CallKills(st: FlowState, p: Production, accepted: bool, v: Storage)
    ensures var left := KillInCall(st, p, accepted).pending;
      && (v in left <==> v in st.pending && st.pending[v].dest != p.dest && st.pending[v].dest !in p.arguments)
      && (v in left ==> left[v] == st.pending[v])
  {
  }

  predicate Records(p: Production, v: Storage) {
    p.contract.writeOnSuccess && p.result == Some(v) && p.resultPrivate
  }

  lemma ApplyKills(st: FlowState, p: Production, at: nat, v: Storage)
    requires v in st.pending ==> st.pending[v].dest != p.dest
    ensures var left := RecordGuard(ApplyProduce(st, p, at).state, p).pending;
      && (v in left <==> v in st.pending || Records(p, v))
      && (v in left ==> left[v] == if Records(p, v) then GuardOf(p) else st.pending[v])
  {
  }

  lemma WriteKills(st: FlowState, x: Storage, exempt: Option<nat>, v: Storage)
    ensures var left := KillForWrite(st, x, exempt).pending;
      && (v in left <==> v in st.pending && ((x != v && x != st.pending[v].dest) || Some(st.pending[v].call) == exempt))
      && (v in left ==> left[v] == st.pending[v])
  {
  }

  /** The guard of `v` after a call and the store of its result. */
  lemma ProducedPending(st: FlowState, p: Production, decl: bool, at: nat, v: Storage)
    ensures var st' := ProduceStep(st, p, decl, at).state; var c := Produce(p, decl, at);
      && (Accepts(st, p) && Records(p, v) ==> v in st'.pending && st'.pending[v] == GuardOf(p))
      && (!(Accepts(st, p) && Records(p, v)) ==>
            && (v in st'.pending <==>
              v in st.pending && Spares(c, v, st.pending[v]) && st.pending[v].dest !in p.arguments)
            && (v in st'.pending ==> st'.pending[v] == st.pending[v]))
  {
    var accepted := Accepts(st, p);
    var st1 := KillInCall(st, p, accepted);
    CallKills(st, p, accepted, v);
    ApplyKills(st1, p, at, v);
    var st2 := if accepted then RecordGuard(ApplyProduce(st1, p, at).state, p) else st1;
    if p.result.Some? { WriteKills(st2, p.result.value, Some(p.call), v); }
  }

  lemma ProducePending(st: FlowState, p: Production, decl: bool, at: nat, v: Storage)
    ensures KeptOrRecorded(Produce(p, decl, at), st, ProduceStep(st, p, decl, at).state, v)
  {
    ProducedPending(st, p, decl, at, v);
  }

  lemma StepPending(c: Cmd, st: FlowState, live: LiveAfter, v: Storage)
    ensures KeptOrRecorded(c, st, Step(c, st, live).state, v)
  {
    match c
    case Malloc(x, site, decl, at) => AllocationPending(Written(st, x, decl), x, site, decl, at);
    case Copy(x, y, decl, at) => CopyPending(Written(st, x, decl), x, y, at);
    case Move(x, y, decl, at) => MovePending(Written(st, x, decl), x, y, at);
    case Borrow(x, y, kind, at) => BorrowPending(st, x, y, kind, at);
    case Free(x, at) => FreePending(st, x, at, live);
    case Produce(p, decl, at) => ProducePending(st, p, decl, at, v);
    case _ =>
  }

  // ---------------------------------------------------------------------------------------------
  // Declarations meet no guard
  // ---------------------------------------------------------------------------------------------

  /** Some pending guard is kept in `x` or testifies about `x`. */
  ghost predicate Guarded(st: FlowState, x: Storage) {
    exists v :: v in st.pending && (v == x || st.pending[v].dest == x)
  }

  lemma StepUnguarded(c: Cmd, st: FlowState, live: LiveAfter, x: Storage)
    requires !Guarded(st, x) && !Involves(c, x)
    ensures !Guarded(Step(c, st, live).state, x)
  {
    var st' := Step(c, st, live).state;
    forall v | v in st'.pending ensures v != x && st'.pending[v].dest != x {
      StepPending(c, st, live, v);
    }
  }

  lemma {:induction false} RunUnguarded(cmds: seq<Cmd>, st: FlowState, live: seq<LiveAfter>, x: Storage)
    requires |live| == |cmds| && !Guarded(st, x)
    requires forall k :: 0 <= k < |cmds| ==> !Involves(cmds[k], x)
    ensures !Guarded(RunBlock(cmds, st, live).state, x)
  {
    if cmds != [] {
      var n := |cmds| - 1;
      RunUnguarded(cmds[..n], st, live[..n], x);
      StepUnguarded(cmds[n], RunBlock(cmds[..n], st, live[..n]).state, live[n], x);
    }
  }

  lemma SubjectPending(st: FlowState, s: Subject, equal: bool, zero: bool)
    ensures RefineSubject(st, s, equal, zero).pending == st.pending
  {
  }

  lemma {:induction false} RefinePending(st: FlowState, c: Cond, holds: bool)
    ensures Refine(st, c, holds).pending == st.pending
  {
    match c
    case Not(inner) => RefinePending(st, inner, !holds);
    case Equal(s, k) => SubjectPending(st, s, holds, k.Some? && k.value == 0);
    case NotEqual(s, k) => SubjectPending(st, s, !holds, k.Some? && k.value == 0);
    case Truth(s) => SubjectPending(st, s, !holds, true);
    case OtherCond =>
  }

  lemma EdgePending(b: Block, i: nat, out: FlowState)
    ensures EdgeState(b, i, out).pending == if b.loopHead then map[] else out.pending
  {
    if b.cond.Some? {
      RefinePending(out, b.cond.value, i == 0);
    }
  }

  lemma {:induction false} ArrivedUnguarded(d: Arrival, blocks: seq<Block>, entry: nat, c: nat, x: Storage)
    requires Arrives(d, blocks, entry, c)
    requires forall p :: 0 <= p < |blocks| && BlockInvolves(blocks[p], x) ==> !Downstream(blocks, true, p, c)
    ensures !Guarded(Arrived(d, blocks), x)
  {
    match d
    case Begin =>
    case Along(before, from, i) =>
      EdgePending(blocks[from], i, TransferBlock(blocks[from], Arrived(before, blocks)));
      if !blocks[from].loopHead {
        assert Connects(blocks, true, from, c);
        forall p | 0 <= p < |blocks| && BlockInvolves(blocks[p], x)
          ensures p != from && !Downstream(blocks, true, p, from) {
          if p == from || Downstream(blocks, true, p, from) { DownstreamExtends(blocks, true, p, from, c); }
        }
        ArrivedUnguarded(before, blocks, entry, from, x);
        RunUnguarded(blocks[from].cmds, Arrived(before, blocks), NothingMeasured(|blocks[from].cmds|), x);
      }
    case Merge(l, r) =>
      ArrivedUnguarded(l, blocks, entry, c, x);
      ArrivedUnguarded(r, blocks, entry, c, x);
  }

  /** The element gives `x` a new value and ends no guard by doing so. (`T *x = x;` gives no new value.) */
  predicate Resets(c: Cmd, x: Storage) {
    Declares(c, x) && !((c.Copy? || c.Move? || c.Borrow?) && c.y == x)
  }

  /** A call ends the guards whose slots it fills or its arguments mention, and records one anew for the
      variable that privately receives its result. */
  predicate OutlivesCall(p: Production, st: FlowState, v: Storage)
    requires v in st.pending
  {
    && st.pending[v].dest != p.dest && st.pending[v].dest !in p.arguments
    && !(Accepts(st, p) && Records(p, v))
  }

  /** The guard kept in `v` outlives the element: no write ends it, and no call. */
  predicate Survives(c: Cmd, st: FlowState, v: Storage) {
    v in st.pending && Spares(c, v, st.pending[v]) && (c.Produce? ==> OutlivesCall(c.production, st, v))
  }

  /** No guard that outlives the element is kept in, or testifies about, a variable that it resets. */
  ghost predicate DeclarationsFresh(c: Cmd, st: FlowState) {
    forall v :: Survives(c, st, v) ==> !Resets(c, v) && !Resets(c, st.pending[v].dest)
  }

  /** An element that resets a variable and is no call ends no guard at all. */
  lemma DeclarationsEndNoGuard(c: Cmd, st: FlowState, x: Storage, v: Storage)
    requires Resets(c, x) && !c.Produce?
    ensures Survives(c, st, v) <==> v in st.pending
  {
  }

  /** In the block's `k`-th state, in either pass. */
  lemma DeclarationsAreFresh(blocks: seq<Block>, entry: nat, st: FlowState, b: nat, k: nat, live: seq<LiveAfter>)
    requires NoStaleDeclarations(blocks) && b < |blocks| && k < |blocks[b].cmds| && |live| == k
    requires ArrivesAt(st, blocks, entry, b)
    ensures DeclarationsFresh(blocks[b].cmds[k], RunBlock(blocks[b].cmds[..k], st, live).state)
  {
    var d :| Arrives(d, blocks, entry, b) && Arrived(d, blocks) == st;
    var before := RunBlock(blocks[b].cmds[..k], st, live).state;
    forall x | Declares(blocks[b].cmds[k], x) ensures !Guarded(before, x) {
      assert NoStaleDeclaration(blocks, b, k, x);
      ArrivedUnguarded(d, blocks, entry, b, x);
      RunUnguarded(blocks[b].cmds[..k], st, live, x);
    }
    forall v | Survives(blocks[b].cmds[k], before, v)
      ensures !Resets(blocks[b].cmds[k], v) && !Resets(blocks[b].cmds[k], before.pending[v].dest)
    {
      assert Guarded(before, v) && Guarded(before, before.pending[v].dest);
    }
  }

  // ---------------------------------------------------------------------------------------------
  // Guards tell the truth
  // ---------------------------------------------------------------------------------------------

  ghost predicate Recorded(blocks: seq<Block>, v: Storage, g: PendingGuard) {
    exists p :: HasProduction(blocks, p) && p.contract.writeOnSuccess && p.result == Some(v) && g == GuardOf(p)
  }

  /** The variable holds the result of the latest producing call for the slot, which is this one; the
      slot is untouched since; and if the result says failure, the slot holds no object. */
  predicate Testifies(m: Machine, v: Storage, g: PendingGuard) {
    && g.dest in m.made
    && var made := m.made[g.dest];
    && made.call == g.call && ValueOf(m, v) == Number(made.result) && ValueOf(m, g.dest) == made.slot
    && ((made.result != 0) != g.successNonzero ==> !made.slot.Obj?)
  }

  ghost predicate GuardTrue(blocks: seq<Block>, st: FlowState, m: Machine, v: Storage) {
    v in st.pending ==> Recorded(blocks, v, st.pending[v]) && Testifies(m, v, st.pending[v])
  }

  ghost predicate GuardsTrue(blocks: seq<Block>, st: FlowState, m: Machine) {
    forall v :: GuardTrue(blocks, st, m, v)
  }

  lemma FewerGuards(blocks: seq<Block>, st: FlowState, st': FlowState, m: Machine)
    requires GuardsTrue(blocks, st, m)
    requires forall v :: v in st'.pending ==> v in st.pending && st'.pending[v] == st.pending[v]
    ensures GuardsTrue(blocks, st', m)
  {
    forall v ensures GuardTrue(blocks, st', m, v) { assert GuardTrue(blocks, st, m, v); }
  }

  /** An accepted call that writes its slot only on success finds no object there. */
  predicate SlotEmpty(c: Cmd, st: FlowState, m: Machine) {
    c.Produce? && Accepts(st, c.production) && c.production.contract.writeOnSuccess ==>
      !ValueOf(m, c.production.dest).Obj?
  }

  /** The element may write `w` or call a producer for it. */
  predicate MayTouch(c: Cmd, w: Storage) {
    match c
    case Malloc(x, _, _, _) => w == x
    case SetNull(x, _, _) => w == x
    case Copy(x, _, _, _) => w == x
    case Move(x, _, _, _) => w == x
    case Borrow(x, _, _, _) => w == x
    case Declare(x) => w == x
    case Bump(x, _) => w == x
    case StoreScalar(x, _) => w == x
    case Produce(p, _, _) => w == p.dest || p.result == Some(w)
    case _ => false
  }

  lemma Untouched(c: Cmd, m: Machine, m': Machine, w: Storage)
    requires Steps(c, m, m') && !c.Opaque? && !MayTouch(c, w)
    ensures ValueOf(m', w) == ValueOf(m, w)
    ensures w in m.made <==> w in m'.made
    ensures w in m.made ==> m'.made[w] == m.made[w]
  {
  }

  /** The element writes back what it reads. */
  predicate SelfCopy(c: Cmd, w: Storage) {
    (c.Copy? || c.Move? || c.Borrow?) && c.x == w && c.y == w
  }

  lemma SparedIsUntouched(blocks: seq<Block>, c: Cmd, st: FlowState, v: Storage)
    requires CallsAgree(blocks) && InProgram(c, blocks) && !c.Opaque?
    requires Survives(c, st, v) && Recorded(blocks, v, st.pending[v]) && DeclarationsFresh(c, st)
    ensures MayTouch(c, v) ==> SelfCopy(c, v)
    ensures MayTouch(c, st.pending[v].dest) ==> SelfCopy(c, st.pending[v].dest)
  {
    var g := st.pending[v];
    var q :| HasProduction(blocks, q) && q.contract.writeOnSuccess && q.result == Some(v) && g == GuardOf(q);
    if c.Produce? {
      ProductionInProgram(blocks, c);
      assert v != c.production.dest && c.production.result != Some(g.dest) && g.call != c.production.call;
    }
  }

  lemma KeptGuardIsTrue(blocks: seq<Block>, c: Cmd, st: FlowState, m: Machine, m': Machine, v: Storage)
    requires CallsAgree(blocks) && InProgram(c, blocks) && !c.Opaque? && Steps(c, m, m')
    requires Survives(c, st, v) && GuardTrue(blocks, st, m, v) && DeclarationsFresh(c, st)
    ensures Testifies(m', v, st.pending[v])
  {
    SparedIsUntouched(blocks, c, st, v);
    KeepsValue(c, m, m', v);
    KeepsValue(c, m, m', st.pending[v].dest);
  }

  lemma KeepsValue(c: Cmd, m: Machine, m': Machine, w: Storage)
    requires Steps(c, m, m') && !c.Opaque? && (MayTouch(c, w) ==> SelfCopy(c, w))
    ensures ValueOf(m', w) == ValueOf(m, w)
    ensures w in m.made <==> w in m'.made
    ensures w in m.made ==> m'.made[w] == m.made[w]
  {
    if !MayTouch(c, w) { Untouched(c, m, m', w); }
  }

  lemma ProductionInProgram(blocks: seq<Block>, c: Cmd)
    requires InProgram(c, blocks) && c.Produce?
    ensures HasProduction(blocks, c.production)
  {
    var b, k :| 0 <= b < |blocks| && 0 <= k < |blocks[b].cmds| && blocks[b].cmds[k] == c;
    assert ProducesAt(blocks, b, k, c.production);
  }

  lemma RecordedGuardIsTrue(blocks: seq<Block>, c: Cmd, st: FlowState, m: Machine, m': Machine, v: Storage,
      g: PendingGuard)
    requires CallsAgree(blocks) && InProgram(c, blocks) && Steps(c, m, m')
    requires RecordsGuard(c, v, g) && Accepts(st, c.production) && SlotEmpty(c, st, m)
    ensures Recorded(blocks, v, g) && Testifies(m', v, g)
  {
    ProductionInProgram(blocks, c);
    CallTellsTheTruth(c, st, m, m');
  }

  /** After an accepted call, its result tells the truth about its slot. */
  lemma CallTellsTheTruth(c: Cmd, st: FlowState, m: Machine, m': Machine)
    requires c.Produce? && Steps(c, m, m') && Accepts(st, c.production) && SlotEmpty(c, st, m)
    ensures c.production.dest in m'.made
    ensures var made := m'.made[c.production.dest];
      && made.call == c.production.call && ValueOf(m', c.production.dest) == made.slot
      && (c.production.result.Some? ==> ValueOf(m', c.production.result.value) == Number(made.result))
      && (Failed(c.production.contract, made.result) ==> !made.slot.Obj?)
  {
    var p := c.production;
    assert p.result != Some(p.dest);
    var result :| Produces(p, result, m, m');
  }

  lemma ProductionSurvival(st: FlowState, p: Production, decl: bool, at: nat, v: Storage)
    ensures var st' := ProduceStep(st, p, decl, at).state;
      Survives(Produce(p, decl, at), st, v) <==>
        && v in st.pending && v in st'.pending && st'.pending[v] == st.pending[v]
        && !(RecordsGuard(Produce(p, decl, at), v, st.pending[v]) && Accepts(st, p))
  {
    ProducedPending(st, p, decl, at, v);
  }

  /** Elements that assign a pointer touch guards by that write only. */
  lemma AssignmentPending(c: Cmd, st: FlowState, live: LiveAfter)
    requires c.Malloc? || c.SetNull? || c.Copy? || c.Move?
    ensures Step(c, st, live).state.pending == Written(st, c.x, c.decl).pending
  {
    match c
    case Malloc(x, site, decl, at) => AllocationPending(Written(st, x, decl), x, site, decl, at);
    case Copy(x, y, decl, at) => CopyPending(Written(st, x, decl), x, y, at);
    case Move(x, y, decl, at) => MovePending(Written(st, x, decl), x, y, at);
    case _ =>
  }

  /** The guards that outlive an element are those that it leaves and has not recorded itself. */
  lemma SurvivesExactly(c: Cmd, st: FlowState, live: LiveAfter, v: Storage)
    ensures var st' := Step(c, st, live).state;
      Survives(c, st, v) <==>
        && v in st.pending && v in st'.pending && st'.pending[v] == st.pending[v]
        && !(RecordsGuard(c, v, st.pending[v]) && Accepts(st, c.production))
  {
    if c.Malloc? || c.SetNull? || c.Copy? || c.Move? {
      AssignmentPending(c, st, live);
      WriteKills(st, c.x, None, v);
    } else {
      match c
      case StoreScalar(x, decl) => WriteKills(st, x, None, v);
      case Bump(x, at) => WriteKills(st, x, None, v);
      case Borrow(x, y, kind, at) => BorrowPending(st, x, y, kind, at);
      case Free(x, at) => FreePending(st, x, at, live);
      case Produce(p, decl, at) => ProductionSurvival(st, p, decl, at, v);
      case _ =>
    }
  }

  /** Every element keeps the guards true. */
  lemma StepKeepsGuards(blocks: seq<Block>, c: Cmd, st: FlowState, live: LiveAfter, m: Machine, m': Machine)
    requires CallsAgree(blocks) && InProgram(c, blocks) && !c.Opaque? && Steps(c, m, m')
    requires GuardsTrue(blocks, st, m) && DeclarationsFresh(c, st) && SlotEmpty(c, st, m)
    ensures GuardsTrue(blocks, Step(c, st, live).state, m')
  {
    var st' := Step(c, st, live).state;
    forall v ensures GuardTrue(blocks, st', m', v) {
      assert GuardTrue(blocks, st, m, v);
      StepPending(c, st, live, v);
      SurvivesExactly(c, st, live, v);
      if v in st'.pending {
        if RecordsGuard(c, v, st'.pending[v]) && Accepts(st, c.production) {
          RecordedGuardIsTrue(blocks, c, st, m, m', v, st'.pending[v]);
        } else {
          KeptGuardIsTrue(blocks, c, st, m, m', v);
        }
      }
    }
  }

  lemma JoinKeepsGuards(blocks: seq<Block>, x: FlowState, e: FlowState, m: Machine)
    requires GuardsTrue(blocks, e, m)
    ensures GuardsTrue(blocks, JoinFlow(x, e), m)
  {
    FewerGuards(blocks, e, JoinFlow(x, e), m);
  }

  lemma EdgeKeepsGuards(blocks: seq<Block>, b: Block, i: nat, out: FlowState, m: Machine)
    requires GuardsTrue(blocks, out, m)
    ensures GuardsTrue(blocks, EdgeState(b, i, out), m)
  {
    EdgePending(b, i, out);
    FewerGuards(blocks, out, EdgeState(b, i, out), m);
  }
}
