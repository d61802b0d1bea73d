/** Exactly when an element keeps the pending out-owner guards true: whenever it does not reset a
    variable that a surviving guard is kept in or testifies about. */
module GuardLimits {
  import opened Flow
  import opened Options
  import opened Transfer
  import opened Program
  import opened Execution
  import opened Guards

  /** Some machine makes all guards true. */
  ghost predicate Satisfiable(blocks: seq<Block>, st: FlowState) {
    exists m :: GuardsTrue(blocks, st, m)
  }

  ghost predicate KeptBy(blocks: seq<Block>, c: Cmd, st: FlowState, live: LiveAfter, m: Machine, m': Machine) {
    GuardsTrue(blocks, st, m) && SlotEmpty(c, st, m) && Steps(c, m, m') ==>
      GuardsTrue(blocks, Step(c, st, live).state, m')
  }

  ghost predicate KeepsGuards(blocks: seq<Block>, c: Cmd, st: FlowState, live: LiveAfter) {
    forall m, m' :: KeptBy(blocks, c, st, live, m, m')
  }

  // ---------------------------------------------------------------------------------------------
  // A machine for given guards
  // ---------------------------------------------------------------------------------------------

  function Slots(st: FlowState): set<Storage> { set v | v in st.pending :: st.pending[v].dest }

  /** The call that the guards of slot `d` speak of. */
  ghost function CallFor(st: FlowState, d: Storage): nat
    requires d in Slots(st)
  {
    var v :| v in st.pending && st.pending[v].dest == d; st.pending[v].call
  }

  /** The call for `loud` returned 1 and the others 0; slot `cleared` is null, the others were never set. */
  ghost function Witness(st: FlowState, loud: Storage, cleared: Option<Storage>): Machine {
    var made := map d | d in Slots(st) ::
      Made(CallFor(st, d), if d == loud then 1 else 0, if cleared == Some(d) then NullValue else Undef);
    var vars := map x | x in st.pending.Keys + Slots(st) ::
      if x in Slots(st) then made[x].slot else Number(made[st.pending[x].dest].result);
    Machine(vars, {}, {}, made)
  }

  /** Guards of one slot are guards of one call, and result variables are no slots. */
  ghost predicate Consistent(st: FlowState) {
    && (forall v, w :: v in st.pending && w in st.pending && st.pending[v].dest == st.pending[w].dest ==> v == w)
    && (forall v :: v in st.pending ==> v !in Slots(st))
  }

  lemma SatisfiableIsConsistent(blocks: seq<Block>, st: FlowState)
    requires CallsAgree(blocks) && Satisfiable(blocks, st)
    ensures Consistent(st)
  {
    var m :| GuardsTrue(blocks, st, m);
    forall v, w | v in st.pending && w in st.pending
      ensures st.pending[v].dest == st.pending[w].dest ==> v == w
      ensures v != st.pending[w].dest
    {
      assert GuardTrue(blocks, st, m, v) && GuardTrue(blocks, st, m, w);
      var p :| HasProduction(blocks, p) && p.contract.writeOnSuccess && p.result == Some(v) &&
        st.pending[v] == GuardOf(p);
      var q :| HasProduction(blocks, q) && q.contract.writeOnSuccess && q.result == Some(w) &&
        st.pending[w] == GuardOf(q);
    }
  }

  lemma CallOfGuard(st: FlowState, v: Storage)
    requires Consistent(st) && v in st.pending
    ensures st.pending[v].dest in Slots(st) && CallFor(st, st.pending[v].dest) == st.pending[v].call
  {
    assert st.pending[v].dest in Slots(st);
  }

  lemma WitnessValues(st: FlowState, loud: Storage, cleared: Option<Storage>, v: Storage)
    requires Consistent(st) && v in st.pending
    ensures var m, d := Witness(st, loud, cleared), st.pending[v].dest;
      && ValueOf(m, v) == Number(if d == loud then 1 else 0)
      && ValueOf(m, d) == (if cleared == Some(d) then NullValue else Undef)
      && d in m.made && m.made[d] == Made(st.pending[v].call, if d == loud then 1 else 0, ValueOf(m, d))
  {
    CallOfGuard(st, v);
  }

  lemma WitnessMeetsGuards(blocks: seq<Block>, st: FlowState, loud: Storage, cleared: Option<Storage>)
    requires Consistent(st) && Satisfiable(blocks, st)
    ensures GuardsTrue(blocks, st, Witness(st, loud, cleared))
    ensures forall x :: !ValueOf(Witness(st, loud, cleared), x).Obj?
  {
    var m :| GuardsTrue(blocks, st, m);
    forall v ensures GuardTrue(blocks, st, Witness(st, loud, cleared), v) {
      assert GuardTrue(blocks, st, m, v);
      if v in st.pending { WitnessValues(st, loud, cleared, v); }
    }
    forall x ensures !ValueOf(Witness(st, loud, cleared), x).Obj? {
    }
  }

  // ---------------------------------------------------------------------------------------------
  // Resetting breaks a guard
  // ---------------------------------------------------------------------------------------------

  predicate CopiesPointer(c: Cmd) { c.Copy? || c.Move? || c.Borrow? }

  /** The value that an element without a call can put into the variable it resets, in machine `m`. */
  function PutBy(c: Cmd, m: Machine): Value {
    if CopiesPointer(c) then ValueOf(m, c.y)
    else if c.Malloc? || c.SetNull? then NullValue
    else if c.StoreScalar? then Number(2)
    else Undef
  }

  lemma PutsValue(c: Cmd, m: Machine, x: Storage)
    requires Resets(c, x) && !c.Produce?
    ensures Steps(c, m, Assign(m, x, PutBy(c, m)))
  {
  }

  /** A guard does not survive another value in its variable or its slot. */
  lemma ValueBreaks(m: Machine, v: Storage, g: PendingGuard, x: Storage, value: Value)
    requires Testifies(m, v, g) && (x == v || x == g.dest) && value != ValueOf(m, x)
    ensures !Testifies(Assign(m, x, value), v, g)
  {
  }

  lemma WitnessTestifies(st: FlowState, loud: Storage, cleared: Option<Storage>, v: Storage)
    requires Consistent(st) && v in st.pending
    ensures Testifies(Witness(st, loud, cleared), v, st.pending[v])
  {
    WitnessValues(st, loud, cleared, v);
  }

  lemma ElsewhereIsDifferent(st: FlowState, v: Storage, y: Storage)
    requires Consistent(st) && v in st.pending
    ensures y != v ==> ValueOf(Witness(st, st.pending[v].dest, None), y) != Number(1)
    ensures y != st.pending[v].dest ==> ValueOf(Witness(st, 0, Some(st.pending[v].dest)), y) != NullValue
  {
    if y in st.pending {
      WitnessValues(st, st.pending[v].dest, None, y);
      WitnessValues(st, 0, Some(st.pending[v].dest), y);
    }
  }

  /** An element that resets the variable of a guard can put something else there. */
  lemma ResultBroken(c: Cmd, st: FlowState, v: Storage) returns (m: Machine, m': Machine)
    requires Consistent(st) && v in st.pending && Resets(c, v) && !c.Produce?
    ensures m == Witness(st, st.pending[v].dest, None) && Steps(c, m, m') && !Testifies(m', v, st.pending[v])
  {
    m := Witness(st, st.pending[v].dest, None);
    m' := Assign(m, v, PutBy(c, m));
    PutsValue(c, m, v);
    WitnessValues(st, st.pending[v].dest, None, v);
    WitnessTestifies(st, st.pending[v].dest, None, v);
    if CopiesPointer(c) { ElsewhereIsDifferent(st, v, c.y); }
    ValueBreaks(m, v, st.pending[v], v, PutBy(c, m));
  }

  /** So can one that resets the slot. */
  lemma SlotBroken(c: Cmd, st: FlowState, v: Storage) returns (m: Machine, m': Machine, cleared: Option<Storage>)
    requires Consistent(st) && v in st.pending && Resets(c, st.pending[v].dest) && !c.Produce?
    ensures m == Witness(st, 0, cleared) && Steps(c, m, m') && !Testifies(m', v, st.pending[v])
  {
    var d := st.pending[v].dest;
    cleared := if CopiesPointer(c) || c.Declare? then Some(d) else None;
    m := Witness(st, 0, cleared);
    m' := Assign(m, d, PutBy(c, m));
    PutsValue(c, m, d);
    WitnessValues(st, 0, cleared, v);
    WitnessTestifies(st, 0, cleared, v);
    if CopiesPointer(c) { ElsewhereIsDifferent(st, v, c.y); }
    ValueBreaks(m, v, st.pending[v], d, PutBy(c, m));
  }

  /** A call that stores its result in a fresh declaration of a guard's variable. */
  lemma ResultOverwritten(c: Cmd, st: FlowState, v: Storage) returns (m: Machine, m': Machine)
    requires Consistent(st) && v in st.pending && c.Produce? && Resets(c, v) && st.pending[v].dest != c.production.dest
    ensures m == Witness(st, 0, None) && Steps(c, m, m') && !Testifies(m', v, st.pending[v])
  {
    var p := c.production;
    m := Witness(st, 0, None);
    WitnessValues(st, 0, None, v);
    if Failed(p.contract, 2) {
      m' := Returned(m, p, 2);
    } else {
      var filled := Assign(m, p.dest, NullValue);
      assert Allocates(m, p.dest, filled);
      m' := Returned(filled, p, 2);
    }
    assert Produces(p, 2, m, m');
  }

  lemma SlotsAreNotResults(blocks: seq<Block>, c: Cmd, st: FlowState, v: Storage)
    requires CallsAgree(blocks) && InProgram(c, blocks) && c.Produce? && Satisfiable(blocks, st) && v in st.pending
    ensures c.production.result != Some(st.pending[v].dest)
  {
    var m :| GuardsTrue(blocks, st, m);
    assert GuardTrue(blocks, st, m, v);
    ProductionInProgram(blocks, c);
  }

  lemma StaleIsBroken(blocks: seq<Block>, c: Cmd, st: FlowState, v: Storage) returns (m: Machine, m': Machine)
    requires CallsAgree(blocks) && InProgram(c, blocks) && !c.Opaque? && Satisfiable(blocks, st) && Consistent(st)
    requires Survives(c, st, v) && (Resets(c, v) || Resets(c, st.pending[v].dest))
    ensures GuardsTrue(blocks, st, m) && SlotEmpty(c, st, m) && Steps(c, m, m') && !Testifies(m', v, st.pending[v])
  {
    if c.Produce? {
      SlotsAreNotResults(blocks, c, st, v);
      m, m' := ResultOverwritten(c, st, v);
      WitnessMeetsGuards(blocks, st, 0, None);
    } else if Resets(c, v) {
      m, m' := ResultBroken(c, st, v);
      WitnessMeetsGuards(blocks, st, st.pending[v].dest, None);
    } else {
      var cleared;
      m, m', cleared := SlotBroken(c, st, v);
      WitnessMeetsGuards(blocks, st, 0, cleared);
    }
  }

  /** Whatever the machine, the element keeps true guards true, if and only if it resets no variable
      that a surviving guard is kept in or testifies about. */
  lemma ExactlyFreshDeclarationsKeepGuards(blocks: seq<Block>, c: Cmd, st: FlowState, live: LiveAfter)
    requires CallsAgree(blocks) && InProgram(c, blocks) && !c.Opaque? && Satisfiable(blocks, st)
    ensures KeepsGuards(blocks, c, st, live) <==> DeclarationsFresh(c, st)
  {
    if DeclarationsFresh(c, st) {
      forall m, m' ensures KeptBy(blocks, c, st, live, m, m') {
        if GuardsTrue(blocks, st, m) && SlotEmpty(c, st, m) && Steps(c, m, m') {
          StepKeepsGuards(blocks, c, st, live, m, m');
        }
      }
    } else {
      var v :| Survives(c, st, v) && (Resets(c, v) || Resets(c, st.pending[v].dest));
      SatisfiableIsConsistent(blocks, st);
      SurvivesExactly(c, st, live, v);
      var m, m' := StaleIsBroken(blocks, c, st, v);
      assert !GuardTrue(blocks, Step(c, st, live).state, m', v);
      assert !KeptBy(blocks, c, st, live, m, m');
    }
  }
}
