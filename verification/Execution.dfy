/** What a program does when it runs: local variables over a heap of objects that are born at
    allocations and productions and die at `free`. A branch is taken only if its condition allows. */
module Execution {
  import opened Flow
  import opened Options
  import opened OutOwners
  import opened Transfer

  datatype Value = Undef | NullValue | Number(k: int) | Obj(n: nat)

  /** What the latest producing call for a slot returned, and what it left in the slot. */
  datatype Made = Made(call: nat, result: int, slot: Value)

  /** `used` are the objects ever allocated; `alive` those not yet destroyed. */
  datatype Machine = Machine(vars: map<Storage, Value>, alive: set<nat>, used: set<nat>, made: map<Storage, Made>)

  const INITIAL := Machine(map[], {}, {}, map[])

  function ValueOf(m: Machine, x: Storage): Value {
    if x in m.vars then m.vars[x] else Undef
  }

  function Assign(m: Machine, x: Storage, v: Value): Machine {
    m.(vars := m.vars[x := v])
  }

  function Allocated(m: Machine, x: Storage, n: nat): Machine {
    m.(vars := m.vars[x := Obj(n)], alive := m.alive + {n}, used := m.used + {n})
  }

  /** Allocation into `x`; it may fail. */
  ghost predicate Allocates(m: Machine, x: Storage, m': Machine) {
    m' == Assign(m, x, NullValue) || exists n :: n !in m.used && m' == Allocated(m, x, n)
  }

  /** A call that writes its slot only on success says by its result whether it did. */
  predicate Failed(c: OutOwner, result: int) {
    c.writeOnSuccess && (result != 0) != c.successNonzero
  }

  function Returned(m: Machine, p: Production, result: int): Machine {
    var m' := m.(made := m.made[p.dest := Made(p.call, result, ValueOf(m, p.dest))]);
    if p.result.Some? then Assign(m', p.result.value, Number(result)) else m'
  }

  /** A producing call keeps its contract: a failed one leaves the slot as it was. */
  ghost predicate Produces(p: Production, result: int, m: Machine, m': Machine) {
    if Failed(p.contract, result) then m' == Returned(m, p, result)
    else exists filled :: Allocates(m, p.dest, filled) && m' == Returned(filled, p, result)
  }

  /** `CAND_MOVE(y)` is just `y` at run time. Freeing null does nothing (section
      7.22.3.3 of ISO/IEC 9899:2011). What is not modelled may do anything. */
  ghost predicate Steps(c: Cmd, m: Machine, m': Machine) {
    match c
    case Malloc(x, _, _, _) => Allocates(m, x, m')
    case SetNull(x, _, _) => m' == Assign(m, x, NullValue)
    case Copy(x, y, _, _) => m' == Assign(m, x, ValueOf(m, y))
    case Move(x, y, _, _) => m' == Assign(m, x, ValueOf(m, y))
    case Borrow(x, y, _, _) => m' == Assign(m, x, ValueOf(m, y))
    case Declare(x) => m' == Assign(m, x, Undef)
    case Free(x, _) => m' == if ValueOf(m, x).Obj? then m.(alive := m.alive - {ValueOf(m, x).n}) else m
    case Deref(_, _) => m' == m
    case Bump(x, _) => exists v :: m' == Assign(m, x, v)
    case StoreScalar(x, _) => exists k :: m' == Assign(m, x, Number(k))
    case Produce(p, _, _) => exists result :: Produces(p, result, m, m')
    case CallPoint => m' == m
    case Enclosing(_) => m' == m
    case Opaque => true
  }

  /** A dead object is destroyed again or accessed. */
  predicate Violates(c: Cmd, m: Machine) {
    (c.Free? || c.Deref?) && ValueOf(m, c.x).Obj? && ValueOf(m, c.x).n !in m.alive
  }

  // ---------------------------------------------------------------------------------------------
  // Branches
  // ---------------------------------------------------------------------------------------------

  function SubjectValue(s: Subject, m: Machine): Value {
    match s
    case Variable(v) => ValueOf(m, v)
    case AssignedVariable(v) => ValueOf(m, v)
    case ProducingCall(dest, _) => if dest in m.made then Number(m.made[dest].result) else Undef
    case OtherSubject => Undef
  }

  /** `v == k` may be true; an indeterminate value may compare either way. */
  predicate MayEqual(v: Value, k: int) {
    match v
    case Undef => true
    case NullValue => k == 0
    case Number(n) => n == k
    case Obj(_) => k != 0
  }

  predicate MayDiffer(v: Value, k: int) {
    match v
    case Undef => true
    case NullValue => k != 0
    case Number(n) => n != k
    case Obj(_) => true
  }

  predicate MayCompare(v: Value, k: int, equal: bool) {
    if equal then MayEqual(v, k) else MayDiffer(v, k)
  }

  /** The condition may evaluate to `holds`. */
  predicate Allows(c: Cond, holds: bool, m: Machine) {
    match c
    case Not(inner) => Allows(inner, !holds, m)
    case Equal(s, k) => k.Some? ==> MayCompare(SubjectValue(s, m), k.value, holds)
    case NotEqual(s, k) => k.Some? ==> MayCompare(SubjectValue(s, m), k.value, !holds)
    case Truth(s) => MayCompare(SubjectValue(s, m), 0, !holds)
    case OtherCond => true
  }

  /** Edge 0 is the one on which the condition is true. */
  predicate TakesEdge(b: Block, i: nat, next: nat, m: Machine) {
    i < |b.succs| && b.succs[i] == Some(next) && (b.cond.Some? ==> Allows(b.cond.value, i == 0, m))
  }

  // ---------------------------------------------------------------------------------------------
  // Runs
  // ---------------------------------------------------------------------------------------------

  /** One visit of a block: the machine before the first element, and after each executed one. */
  datatype Visit = Visit(block: nat, states: seq<Machine>)

  ghost predicate VisitOk(blocks: seq<Block>, v: Visit) {
    && v.block < |blocks|
    && 1 <= |v.states| <= |blocks[v.block].cmds| + 1
    && forall k :: 0 <= k < |v.states| - 1 ==> Steps(blocks[v.block].cmds[k], v.states[k], v.states[k + 1])
  }

  /** The visit ran to the end of its block and control took an edge to the next one's. */
  ghost predicate Continues(blocks: seq<Block>, v: Visit, next: Visit) {
    && v.block < |blocks| && |v.states| == |blocks[v.block].cmds| + 1 && |next.states| > 0
    && next.states[0] == v.states[|v.states| - 1]
    && exists i :: TakesEdge(blocks[v.block], i, next.block, next.states[0])
  }

  ghost predicate IsRun(blocks: seq<Block>, entry: nat, run: seq<Visit>) {
    && |run| > 0 && run[0].block == entry
    && (forall i :: 0 <= i < |run| ==> VisitOk(blocks, run[i]))
    && run[0].states[0] == INITIAL
    && (forall i :: 0 <= i < |run| - 1 ==> Continues(blocks, run[i], run[i + 1]))
  }

  ghost predicate SafeVisit(blocks: seq<Block>, v: Visit)
    requires VisitOk(blocks, v)
  {
    forall k :: 0 <= k < |v.states| && k < |blocks[v.block].cmds| ==> !Violates(blocks[v.block].cmds[k], v.states[k])
  }

  ghost predicate SafeRun(blocks: seq<Block>, run: seq<Visit>) {
    forall i :: 0 <= i < |run| ==> VisitOk(blocks, run[i]) && SafeVisit(blocks, run[i])
  }
}
