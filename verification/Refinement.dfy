/** Exactly what a branch edge refines: a slot becomes an owner when every result, or every value, that
    the condition allows on the edge means that it was written, null when every one means that it was not,
    and stays as it is otherwise. */
module Refinement {
  import opened Flow
  import opened Options
  import opened OutOwners
  import opened Transfer
  import opened Execution
  import opened Guards
  import opened Renaming

  // ---------------------------------------------------------------------------------------------
  // What an edge allows
  // ---------------------------------------------------------------------------------------------

  /** The condition comes out as `holds` in some machine in which its subject has the value. */
  ghost predicate AllowsValue(c: Cond, holds: bool, v: Value) {
    exists m :: SubjectValue(CondSubject(c), m) == v && Allows(c, holds, m)
  }

  /** Whatever the subject returned, if the condition allows it, the call succeeded. */
  ghost predicate OnlySuccess(c: Cond, holds: bool, contract: OutOwner) {
    forall r: int :: AllowsValue(c, holds, Number(r)) ==> !Failed(contract, r)
  }

  ghost predicate OnlyFailure(c: Cond, holds: bool, contract: OutOwner) {
    forall r: int :: AllowsValue(c, holds, Number(r)) ==> Failed(contract, r)
  }

  predicate IsPointer(v: Value) { v.NullValue? || v.Obj? }

  ghost predicate OnlyObjects(c: Cond, holds: bool) {
    forall v :: IsPointer(v) && AllowsValue(c, holds, v) ==> v.Obj?
  }

  ghost predicate OnlyNull(c: Cond, holds: bool) {
    forall v :: IsPointer(v) && AllowsValue(c, holds, v) ==> v.NullValue?
  }

  // ---------------------------------------------------------------------------------------------
  // What is refined
  // ---------------------------------------------------------------------------------------------

  /** The condition asks for the result of a call that writes `slot` on success, either directly or by a
      variable that still holds it. (A call that always writes is judged as if it wrote on success.) */
  predicate AsksResult(st: FlowState, c: Cond, slot: Storage, contract: OutOwner) {
    && contract.writeOnSuccess
    && match CondSubject(c)
       case ProducingCall(dest, k) => dest == slot && k.(writeOnSuccess := true) == contract
       case OtherSubject => false
       case Variable(v) =>
         v in st.pending && st.pending[v].dest == slot && st.pending[v].successNonzero == contract.successNonzero
       case AssignedVariable(v) =>
         v in st.pending && st.pending[v].dest == slot && st.pending[v].successNonzero == contract.successNonzero
  }

  /** The condition compares the slot itself. */
  predicate AsksSlot(st: FlowState, c: Cond, slot: Storage) {
    slot !in st.pending && (CondSubject(c) == Variable(slot) || CondSubject(c) == AssignedVariable(slot))
  }

  /** The comparison is with null. */
  predicate ComparesWithNull(c: Cond) {
    match c
    case Not(inner) => ComparesWithNull(inner)
    case Equal(_, k) => k == Some(0)
    case NotEqual(_, k) => k == Some(0)
    case Truth(_) => true
    case OtherCond => false
  }

  predicate Unrefined(st: FlowState, slot: Storage) { slot in st.storages && st.storages[slot].producedMaybe }

  function AsOwner(st: FlowState, slot: Storage): FlowState
    requires slot in st.storages
  {
    st.(storages := st.storages[slot := Binding(st.storages[slot].id, Owner, st.storages[slot].where, false)])
  }

  /** Null, and still unrefined. */
  function AsNull(st: FlowState, slot: Storage): FlowState
    requires slot in st.storages
  {
    st.(storages := st.storages[slot := Binding(NULL_ID, Null, st.storages[slot].where, true)])
  }

  // ---------------------------------------------------------------------------------------------
  // Conditions see their subject only
  // ---------------------------------------------------------------------------------------------

  lemma {:induction false} SubjectDecides(c: Cond, holds: bool, m: Machine, m': Machine)
    requires SubjectValue(CondSubject(c), m) == SubjectValue(CondSubject(c), m')
    ensures Allows(c, holds, m) <==> Allows(c, holds, m')
  {
    match c
    case Not(inner) => SubjectDecides(inner, !holds, m, m');
    case _ =>
  }

  /** Every value is the subject's in some machine, if it is one of a variable, and every number if it is
      the result of a call. */
  lemma SomeMachine(s: Subject, v: Value) returns (m: Machine)
    requires !s.OtherSubject? && (s.ProducingCall? ==> v.Number?)
    ensures SubjectValue(s, m) == v
  {
    if s.ProducingCall? {
      m := INITIAL.(made := map[s.dest := Made(0, v.k, Undef)]);
    } else {
      m := INITIAL.(vars := map[s.v := v]);
    }
  }

  lemma ValueDecides(c: Cond, holds: bool, m: Machine, v: Value)
    requires SubjectValue(CondSubject(c), m) == v
    ensures AllowsValue(c, holds, v) <==> Allows(c, holds, m)
  {
    if m' :| SubjectValue(CondSubject(c), m') == v && Allows(c, holds, m') { SubjectDecides(c, holds, m, m'); }
  }

  /** Negations change sides. */
  lemma NotAllows(c: Cond, holds: bool, v: Value)
    ensures AllowsValue(Not(c), holds, v) <==> AllowsValue(c, !holds, v)
  {
    if m :| SubjectValue(CondSubject(Not(c)), m) == v && Allows(Not(c), holds, m) {
      assert SubjectValue(CondSubject(c), m) == v && Allows(c, !holds, m);
    }
    if m :| SubjectValue(CondSubject(c), m) == v && Allows(c, !holds, m) {
      assert SubjectValue(CondSubject(Not(c)), m) == v && Allows(Not(c), holds, m);
    }
  }

  /** Which numbers and pointers a single comparison allows. */
  lemma ComparisonAllows(c: Cond, holds: bool, v: Value)
    requires !c.Not? && !c.OtherCond? && !CondSubject(c).OtherSubject? && (CondSubject(c).ProducingCall? ==> v.Number?)
    ensures AllowsValue(c, holds, v) <==>
      match c
      case Equal(_, k) => k.Some? ==> MayCompare(v, k.value, holds)
      case NotEqual(_, k) => k.Some? ==> MayCompare(v, k.value, !holds)
      case Truth(_) => MayCompare(v, 0, !holds)
      case _ => true
  {
    var m := SomeMachine(CondSubject(c), v);
    ValueDecides(c, holds, m, v);
  }

  // ---------------------------------------------------------------------------------------------
  // Results
  // ---------------------------------------------------------------------------------------------

  /** A comparison with `k` that comes out as `equal`. */
  ghost predicate OnlyIf(k: int, equal: bool, contract: OutOwner, failed: bool) {
    forall r: int :: MayCompare(Number(r), k, equal) ==> Failed(contract, r) == failed
  }

  lemma PolarityExactly(st: FlowState, slot: Storage, contract: OutOwner, equal: bool, k: int)
    requires contract.writeOnSuccess && Unrefined(st, slot)
    ensures RefineByPolarity(st, slot, contract.successNonzero, equal, k == 0) ==
      if OnlyIf(k, equal, contract, false) && Names(st.storages[slot].id) then AsOwner(st, slot)
      else if OnlyIf(k, equal, contract, true) then AsNull(st, slot)
      else st
  {
    assert MayCompare(Number(k), k, true) && MayCompare(Number(k + 1), k, false);
    assert MayCompare(Number(k - 1), k, false) && MayCompare(Number(k + 2), k, false);
    if k != 0 { assert MayCompare(Number(0), k, false); }
    if k == -1 { assert MayCompare(Number(1), k, false); }
  }

  lemma ResultComparison(st: FlowState, c: Cond, holds: bool, slot: Storage, contract: OutOwner)
    requires !c.Not? && AsksResult(st, c, slot, contract) && Unrefined(st, slot)
    ensures Refine(st, c, holds) ==
      if OnlySuccess(c, holds, contract) && Names(st.storages[slot].id) then AsOwner(st, slot)
      else if OnlyFailure(c, holds, contract) then AsNull(st, slot)
      else st
  {
    forall r: int ensures AllowsValue(c, holds, Number(r)) <==>
      match c
      case Equal(_, k) => k.Some? ==> MayCompare(Number(r), k.value, holds)
      case NotEqual(_, k) => k.Some? ==> MayCompare(Number(r), k.value, !holds)
      case Truth(_) => MayCompare(Number(r), 0, !holds)
      case _ => true
    {
      ComparisonAllows(c, holds, Number(r));
    }
    match c
    case Equal(_, k) =>
      if k.Some? {
        PolarityExactly(st, slot, contract, holds, k.value);
        Restated(c, holds, k.value, holds, contract);
      } else {
        BothAllowed(c, holds, contract);
      }
    case NotEqual(_, k) =>
      if k.Some? {
        PolarityExactly(st, slot, contract, !holds, k.value);
        Restated(c, holds, k.value, !holds, contract);
      } else {
        BothAllowed(c, holds, contract);
      }
    case Truth(_) =>
      PolarityExactly(st, slot, contract, !holds, 0);
      Restated(c, holds, 0, !holds, contract);
  }

  lemma Restated(c: Cond, holds: bool, k: int, equal: bool, contract: OutOwner)
    requires forall r: int :: AllowsValue(c, holds, Number(r)) <==> MayCompare(Number(r), k, equal)
    ensures OnlySuccess(c, holds, contract) <==> OnlyIf(k, equal, contract, false)
    ensures OnlyFailure(c, holds, contract) <==> OnlyIf(k, equal, contract, true)
  {
  }

  lemma BothAllowed(c: Cond, holds: bool, contract: OutOwner)
    requires contract.writeOnSuccess && forall r: int :: AllowsValue(c, holds, Number(r))
    ensures !OnlySuccess(c, holds, contract) && !OnlyFailure(c, holds, contract)
  {
    assert AllowsValue(c, holds, Number(0)) && AllowsValue(c, holds, Number(1));
  }

  /** On an edge that tells something about the result of a call: the slot becomes an owner if every
      result that the edge allows means success, null if every one means failure, and is left alone
      otherwise. */
  lemma {:induction false} ResultRefinesExactly(st: FlowState, c: Cond, holds: bool, slot: Storage, contract: OutOwner)
    requires AsksResult(st, c, slot, contract) && Unrefined(st, slot)
    ensures Refine(st, c, holds) ==
      if OnlySuccess(c, holds, contract) && Names(st.storages[slot].id) then AsOwner(st, slot)
      else if OnlyFailure(c, holds, contract) then AsNull(st, slot)
      else st
  {
    if c.Not? {
      ResultRefinesExactly(st, c.inner, !holds, slot, contract);
      forall r: int ensures AllowsValue(c, holds, Number(r)) <==> AllowsValue(c.inner, !holds, Number(r)) {
        NotAllows(c.inner, holds, Number(r));
      }
      assert OnlySuccess(c, holds, contract) <==> OnlySuccess(c.inner, !holds, contract);
      assert OnlyFailure(c, holds, contract) <==> OnlyFailure(c.inner, !holds, contract);
    } else {
      ResultComparison(st, c, holds, slot, contract);
    }
  }

  // ---------------------------------------------------------------------------------------------
  // Null checks
  // ---------------------------------------------------------------------------------------------

  /** On an edge that compares the slot with null: it becomes an owner if only objects are allowed there,
      and null if only null is. */
  lemma {:induction false} NullCheckRefinesExactly(st: FlowState, c: Cond, holds: bool, slot: Storage)
    requires AsksSlot(st, c, slot) && Unrefined(st, slot) && ComparesWithNull(c)
    ensures OnlyNull(c, holds) != OnlyObjects(c, holds)
    ensures Refine(st, c, holds) ==
      if OnlyNull(c, holds) then AsNull(st, slot) else if Names(st.storages[slot].id) then AsOwner(st, slot) else st
  {
    if c.Not? {
      NullCheckRefinesExactly(st, c.inner, !holds, slot);
      forall v ensures AllowsValue(c, holds, v) <==> AllowsValue(c.inner, !holds, v) { NotAllows(c.inner, holds, v); }
      assert OnlyNull(c, holds) <==> OnlyNull(c.inner, !holds);
      assert OnlyObjects(c, holds) <==> OnlyObjects(c.inner, !holds);
    } else {
      var equal := if c.Equal? then holds else !holds;
      forall v ensures AllowsValue(c, holds, v) <==> MayCompare(v, 0, equal) { ComparisonAllows(c, holds, v); }
      assert MayCompare(Obj(0), 0, false) && MayCompare(NullValue, 0, true);
    }
  }

  // ---------------------------------------------------------------------------------------------
  // Nothing else is refined
  // ---------------------------------------------------------------------------------------------

  /** A condition that asks for no recorded result and compares no slot with null, or that asks about a
      slot which is not unrefined, refines nothing. */
  lemma {:induction false} OthersRefineNothing(st: FlowState, c: Cond, holds: bool)
    requires match CondSubject(c)
      case ProducingCall(dest, _) => !Unrefined(st, dest)
      case OtherSubject => true
      case Variable(v) =>
        if v in st.pending then !Unrefined(st, st.pending[v].dest) else !Unrefined(st, v) || !ComparesWithNull(c)
      case AssignedVariable(v) =>
        if v in st.pending then !Unrefined(st, st.pending[v].dest) else !Unrefined(st, v) || !ComparesWithNull(c)
    ensures Refine(st, c, holds) == st
  {
    if c.Not? { OthersRefineNothing(st, c.inner, !holds); }
  }

  /** What flows along an edge: the refined state, without guards if the edge leaves a loop head. */
  lemma EdgeRefinesExactly(b: Block, i: nat, st: FlowState, slot: Storage, contract: OutOwner)
    requires b.cond.Some? && AsksResult(st, b.cond.value, slot, contract) && Unrefined(st, slot)
    ensures var st', c := EdgeState(b, i, st), b.cond.value;
      && st'.pending == (if b.loopHead then map[] else st.pending)
      && st'.(pending := st.pending) ==
           if OnlySuccess(c, i == 0, contract) && Names(st.storages[slot].id) then AsOwner(st, slot)
           else if OnlyFailure(c, i == 0, contract) then AsNull(st, slot)
           else st
  {
    ResultRefinesExactly(st, b.cond.value, i == 0, slot, contract);
  }

  /** The same for a null check. */
  lemma EdgeChecksExactly(b: Block, i: nat, st: FlowState, slot: Storage)
    requires b.cond.Some? && AsksSlot(st, b.cond.value, slot) && Unrefined(st, slot) && ComparesWithNull(b.cond.value)
    ensures var st', c := EdgeState(b, i, st), b.cond.value;
      && st'.pending == (if b.loopHead then map[] else st.pending)
      && st'.(pending := st.pending) ==
           if OnlyNull(c, i == 0) then AsNull(st, slot)
           else if Names(st.storages[slot].id) then AsOwner(st, slot) else st
  {
    NullCheckRefinesExactly(st, b.cond.value, i == 0, slot);
  }
}
