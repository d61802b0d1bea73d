/** What a producing call leaves behind, and that a checked one can be used: on every edge on which the call
    has succeeded the slot is an owner, and accessing and freeing it is not reported. */
module Productions {
  import opened Flow
  import opened Height
  import opened Options
  import opened OutOwners
  import opened Transfer
  import opened Ownership
  import opened Renaming
  import opened Guards
  import opened Refinement
  import opened Causes
  import A = Aftermath

  /** The slot is written and holds an owner for certain. */
  predicate Certain(contract: OutOwner) { !contract.writeOnSuccess && !contract.nullable }

  predicate Accepted(c: Cmd, st: FlowState) {
    c.Produce? && Takes(st, c.production) && 1 <= c.production.site < GENERATION_STRIDE
  }

  /** The slot of an accepted call names a live object: as its owner if that is certain, else unrefined. */
  lemma ProductionLeaves(c: Cmd, st: FlowState, live: LiveAfter)
    requires Accepted(c, st)
    ensures var st', p := Step(c, st, live).state, c.production;
      && A.NamesObject(st', p.dest) && ObjectNow(st', p.dest).state == Owned
      && (Unrefined(st', p.dest) <==> !Certain(p.contract))
      && st'.storages[p.dest].relation == (if Certain(p.contract) then Owner else MaybeNull)
      && (forall v :: v != p.dest && v in st.storages ==> A.SameBinding(st, st', v))
  {
    var p := c.production;
    TakenExactly(st, p, c.decl, c.at);
    ProduceShape(st, p, c.decl, c.at);
  }

  /** The variable privately receives the result of an accepted call that writes on success. */
  predicate NewlyGuarded(c: Cmd, st: FlowState, v: Storage) {
    && c.Produce? && Takes(st, c.production) && c.production.contract.writeOnSuccess
    && c.production.result == Some(v) && c.production.resultPrivate
  }

  lemma GuardIsRecorded(st: FlowState, p: Production, decl: bool, at: nat, v: Storage)
    requires NewlyGuarded(Produce(p, decl, at), st, v)
    ensures var st' := ProduceStep(st, p, decl, at).state; v in st'.pending && st'.pending[v] == GuardOf(p)
  {
    TakenExactly(st, p, decl, at);
  }

  /** Only such a variable is guarded anew. */
  lemma NoOtherIsRecorded(st: FlowState, p: Production, decl: bool, at: nat, v: Storage)
    requires !NewlyGuarded(Produce(p, decl, at), st, v) && v in ProduceStep(st, p, decl, at).state.pending
    ensures v in st.pending && ProduceStep(st, p, decl, at).state.pending[v] == st.pending[v]
    ensures !(Accepts(st, p) && Records(p, v))
  {
    TakenExactly(st, p, decl, at);
  }

  /** The guards after an element are those that outlive it and the one that it records. */
  lemma GuardsExactly(c: Cmd, st: FlowState, live: LiveAfter, v: Storage)
    ensures var st' := Step(c, st, live).state;
      && (v in st'.pending <==> Survives(c, st, v) || NewlyGuarded(c, st, v))
      && (NewlyGuarded(c, st, v) ==> st'.pending[v] == GuardOf(c.production))
      && (v in st'.pending && !NewlyGuarded(c, st, v) ==> st'.pending[v] == st.pending[v])
  {
    SurvivesExactly(c, st, live, v);
    if NewlyGuarded(c, st, v) {
      GuardIsRecorded(st, c.production, c.decl, c.at, v);
    } else if c.Produce? {
      if v in Step(c, st, live).state.pending { NoOtherIsRecorded(st, c.production, c.decl, c.at, v); }
    } else {
      StepPending(c, st, live, v);
    }
  }

  // ---------------------------------------------------------------------------------------------
  // Checked calls
  // ---------------------------------------------------------------------------------------------

  /** The condition asks for the result of the call: by the call itself, or by the variable that received
      it. */
  predicate Checks(c: Cond, p: Production) {
    match CondSubject(c)
    case ProducingCall(dest, contract) => dest == p.dest && contract == p.contract
    case Variable(v) => p.result == Some(v) && p.resultPrivate
    case AssignedVariable(v) => p.result == Some(v) && p.resultPrivate
    case OtherSubject => false
  }

  lemma CheckAsks(c: Cmd, st: FlowState, live: LiveAfter, cond: Cond)
    requires Accepted(c, st) && c.production.contract.writeOnSuccess && Checks(cond, c.production)
    ensures AsksResult(Step(c, st, live).state, cond, c.production.dest, c.production.contract)
  {
    var s := CondSubject(cond);
    if s.Variable? || s.AssignedVariable? { GuardsExactly(c, st, live, s.v); }
  }

  /** An owner that no borrow concerns is accessed and freed without a report. */
  lemma OwnerIsUsable(st: FlowState, x: Storage, at: nat, live: LiveAfter)
    requires Tells(st, x) && st.storages[x].relation == Owner && ObjectNow(st, x).state == Owned
    requires !(ObjectNow(st, x).origin == Parameter && ObjectNow(st, x).capability == MayBorrow)
    requires x !in st.borrows && forall v :: v in st.borrows ==> st.borrows[v].parent != st.storages[x].id
    ensures Step(Deref(x, at), st, live).reports == {} && Step(Free(x, at), st, live).reports == {}
  {
    forall r ensures r !in Step(Deref(x, at), st, live).reports && r !in Step(Free(x, at), st, live).reports {
      UseReportsExactly(r, Deref(x, at), st, live);
      UseReportsExactly(r, Free(x, at), st, live);
    }
  }

  /** What is known of an unrefined slot is that it may not be used yet. */
  lemma UnrefinedIsUnusable(st: FlowState, x: Storage, at: nat, live: LiveAfter)
    requires Unrefined(st, x) && x !in st.borrows && st.storages[x].relation != Owner
    ensures Step(Deref(x, at), st, live).reports == {UnrefinedOutOwnerUse}
    ensures Step(Free(x, at), st, live).reports == {UnrefinedOutOwnerUse}
  {
  }

  /** No borrow concerns the slot or the object that the call makes. */
  predicate Unborrowed(st: FlowState, p: Production) {
    p.dest !in st.borrows && forall v :: v in st.borrows ==> st.borrows[v].parent != p.site
  }

  lemma StillUnborrowed(c: Cmd, st: FlowState, live: LiveAfter)
    requires Accepted(c, st) && Local(st) && Unborrowed(st, c.production)
    ensures var st' := Step(c, st, live).state; Local(st') && Unborrowed(st', c.production)
    ensures Step(c, st, live).state.storages[c.production.dest].id == c.production.site
  {
    TakenExactly(st, c.production, c.decl, c.at);
    StepLocal(c, st, live);
    A.ProductionSpares(st, c.production, c.decl, c.at);
    ProduceShape(st, c.production, c.decl, c.at);
  }

  /** After an accepted call that writes on success: on every edge of a check on which every allowed result
      means success the slot can be used, and on every other it cannot. */
  lemma CheckedExactly(c: Cmd, st: FlowState, live: LiveAfter, cond: Cond, holds: bool, after: LiveAfter, at: nat)
    requires Accepted(c, st) && c.production.contract.writeOnSuccess && Checks(cond, c.production)
    requires Local(st) && Unborrowed(st, c.production)
    ensures var st', x := Refine(Step(c, st, live).state, cond, holds), c.production.dest;
      var reports := if OnlySuccess(cond, holds, c.production.contract) then {} else {UnrefinedOutOwnerUse};
      Step(Deref(x, at), st', after).reports == reports && Step(Free(x, at), st', after).reports == reports
  {
    var made, x := Step(c, st, live).state, c.production.dest;
    ProductionLeaves(c, st, live);
    StillUnborrowed(c, st, live);
    CheckAsks(c, st, live, cond);
    ResultRefinesExactly(made, cond, holds, x, c.production.contract);
    var st' := Refine(made, cond, holds);
    if OnlySuccess(cond, holds, c.production.contract) {
      OwnerIsUsable(st', x, at, after);
    } else {
      UnrefinedIsUnusable(st', x, at, after);
    }
  }
}
