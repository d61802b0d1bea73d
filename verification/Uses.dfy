/** What the events of borrow liveness mean: an element mentions exactly the variables on which its
    execution depends and those that its text names besides, and a variable that no path uses before it is
    overwritten has no influence on what any run does from there on. */
module Uses {
  import opened Flow
  import opened Options
  import opened Transfer
  import opened Program
  import opened Execution
  import opened Guards
  import L = Liveness

  // ---------------------------------------------------------------------------------------------
  // Machines that differ in some variables only
  // ---------------------------------------------------------------------------------------------

  ghost predicate Alike(a: Machine, b: Machine, vs: set<Storage>) {
    && a.alive == b.alive && a.used == b.used && a.made == b.made
    && forall w :: w !in vs ==> ValueOf(a, w) == ValueOf(b, w)
  }

  /** Allocation does not look at the variable it fills. */
  lemma AllocationMatches(a: Machine, b: Machine, x: Storage, a': Machine, vs: set<Storage>) returns (b': Machine)
    requires Alike(a, b, vs) && Allocates(a, x, a')
    ensures Allocates(b, x, b') && Alike(a', b', vs - {x})
  {
    if a' == Assign(a, x, NullValue) {
      b' := Assign(b, x, NullValue);
    } else {
      var n :| n !in a.used && a' == Allocated(a, x, n);
      b' := Allocated(b, x, n);
    }
  }

  lemma ReturnMatches(a: Machine, b: Machine, p: Production, result: int, vs: set<Storage>)
    requires Alike(a, b, vs) && p.dest !in vs
    ensures Alike(Returned(a, p, result), Returned(b, p, result), if p.result.Some? then vs - {p.result.value} else vs)
  {
  }

  lemma ProductionMatches(a: Machine, b: Machine, p: Production, a': Machine, vs: set<Storage>) returns (b': Machine)
    requires Alike(a, b, vs) && p.dest !in vs && exists result :: Produces(p, result, a, a')
    ensures exists result :: Produces(p, result, b, b')
    ensures Alike(a', b', if p.result.Some? then vs - {p.result.value} else vs)
  {
    var result: int :| Produces(p, result, a, a');
    if Failed(p.contract, result) {
      b' := Returned(b, p, result);
      ReturnMatches(a, b, p, result, vs);
    } else {
      var filled :| Allocates(a, p.dest, filled) && a' == Returned(filled, p, result);
      var other := AllocationMatches(a, b, p.dest, filled, vs);
      assert vs - {p.dest} == vs;
      ReturnMatches(filled, other, p, result, vs);
      b' := Returned(other, p, result);
    }
    assert Produces(p, result, b, b');
  }

  /** The variables that the element gives a number. */
  function Scalars(c: Cmd): set<Storage> {
    match c
    case StoreScalar(x, _) => {x}
    case Produce(p, _, _) => if p.result.Some? then {p.result.value} else {}
    case _ => {}
  }

  /** An element that mentions none of the variables does the same, whatever they hold, and what it
      overwrites no longer differs. */
  lemma StepMatches(c: Cmd, a: Machine, b: Machine, a': Machine, vs: set<Storage>) returns (b': Machine)
    requires Alike(a, b, vs) && Steps(c, a, a') && vs !! Mentions(c)
    ensures Steps(c, b, b') && Alike(a', b', vs - Overwritten(c) - Scalars(c)) && (Violates(c, a) <==> Violates(c, b))
  {
    match c
    case Malloc(x, _, _, _) => b' := AllocationMatches(a, b, x, a', vs);
    case SetNull(x, _, _) => b' := Assign(b, x, NullValue);
    case Copy(x, y, _, _) => b' := Assign(b, x, ValueOf(b, y));
    case Move(x, y, _, _) => b' := Assign(b, x, ValueOf(b, y));
    case Borrow(x, y, _, _) => b' := Assign(b, x, ValueOf(b, y));
    case Declare(x) => b' := Assign(b, x, Undef);
    case Free(x, _) => b' := if ValueOf(b, x).Obj? then b.(alive := b.alive - {ValueOf(b, x).n}) else b;
    case Deref(_, _) => b' := b;
    case Bump(x, _) =>
      var v :| a' == Assign(a, x, v);
      b' := Assign(b, x, v);
    case StoreScalar(x, _) =>
      var k :| a' == Assign(a, x, Number(k));
      b' := Assign(b, x, Number(k));
    case Produce(p, _, _) => b' := ProductionMatches(a, b, p, a', vs);
    case CallPoint => b' := b;
    case Enclosing(_) => b' := b;
    case Opaque => b' := a';
  }

  /** Nor does a condition that mentions none of them. */
  lemma {:induction false} ConditionMatches(c: Cond, holds: bool, a: Machine, b: Machine, vs: set<Storage>)
    requires Alike(a, b, vs) && vs !! CondMentions(c)
    ensures Allows(c, holds, a) <==> Allows(c, holds, b)
  {
    match c
    case Not(inner) => ConditionMatches(inner, !holds, a, b, vs);
    case _ =>
  }

  // ---------------------------------------------------------------------------------------------
  // What is mentioned
  // ---------------------------------------------------------------------------------------------

  /** Every execution of the element from scratch gives the variable a value. */
  ghost predicate Assigns(c: Cmd, v: Storage) {
    forall m :: Steps(c, INITIAL, m) ==> v in m.vars
  }

  /** What an element does depends on the variable: in two machines that differ in it only, the element
      can do something in one that it cannot do in the other. */
  ghost predicate DependsOn(c: Cmd, v: Storage) {
    exists a, b :: Alike(a, b, {v}) && (Violates(c, a) != Violates(c, b) || DiffersAfter(c, a, b, v))
  }

  ghost predicate DiffersAfter(c: Cmd, a: Machine, b: Machine, v: Storage) {
    exists a' :: Steps(c, a, a') && forall b' :: Steps(c, b, b') ==> !Alike(a', b', if Assigns(c, v) then {} else {v})
  }

  /** The text names the variable: as the target of an assignment that is no declaration, as an operand of
      an increment, as an argument of a call, or in an expression around earlier elements. */
  predicate NamedBy(c: Cmd, v: Storage) {
    match c
    case Malloc(x, _, decl, _) => x == v && !decl
    case SetNull(x, decl, _) => x == v && !decl
    case Copy(x, _, decl, _) => x == v && !decl
    case Move(x, _, decl, _) => x == v && !decl
    case Bump(x, _) => x == v
    case StoreScalar(x, decl) => x == v && !decl
    case Produce(p, decl, _) => v == p.dest || v in p.arguments || (p.result == Some(v) && !decl)
    case Enclosing(vs) => v in vs
    case _ => false
  }

  /** Declarations of scalars and the slots of calls are assigned, but do not count as overwritten. */
  predicate NotCounted(c: Cmd, v: Storage) {
    match c
    case StoreScalar(_, decl) => decl
    case Produce(p, decl, _) => decl || p.result != Some(v)
    case _ => false
  }

  lemma NothingAllocated(x: Storage)
    ensures Allocates(INITIAL, x, Assign(INITIAL, x, NullValue))
    ensures forall m :: Allocates(INITIAL, x, m) ==> m.vars.Keys == {x}
  {
  }

  /** What is overwritten is what every execution assigns, with two exceptions. */
  lemma OverwrittenExactly(c: Cmd, v: Storage)
    ensures v in Overwritten(c) <==> Assigns(c, v) && !NotCounted(c, v)
  {
    if v !in Overwritten(c) && !NotCounted(c, v) {
      var m := SomeStep(c, v);
    } else if v in Overwritten(c) {
      forall m | Steps(c, INITIAL, m) ensures v in m.vars { OverwritesInitial(c, v, m); }
    }
  }

  lemma OverwritesInitial(c: Cmd, v: Storage, m: Machine)
    requires v in Overwritten(c) && Steps(c, INITIAL, m)
    ensures v in m.vars
  {
    match c
    case Malloc(x, _, _, _) => NothingAllocated(x);
    case Produce(p, _, _) => var result: int :| Produces(p, result, INITIAL, m);
    case _ =>
  }

  lemma SomeStep(c: Cmd, v: Storage) returns (m: Machine)
    requires v !in Overwritten(c) && !NotCounted(c, v)
    ensures Steps(c, INITIAL, m) && v !in m.vars
  {
    match c
    case Malloc(x, _, _, _) => NothingAllocated(x); m := Assign(INITIAL, x, NullValue);
    case SetNull(x, _, _) => m := Assign(INITIAL, x, NullValue);
    case Copy(x, y, _, _) => m := Assign(INITIAL, x, Undef);
    case Move(x, y, _, _) => m := Assign(INITIAL, x, Undef);
    case Borrow(x, y, _, _) => m := Assign(INITIAL, x, Undef);
    case Declare(x) => m := Assign(INITIAL, x, Undef);
    case Bump(x, _) => m := Assign(INITIAL, x, Undef);
    case StoreScalar(x, _) => m := Assign(INITIAL, x, Number(0));
    case Free(_, _) => m := INITIAL;
    case Deref(_, _) => m := INITIAL;
    case Produce(p, _, _) => assert false;
    case CallPoint => m := INITIAL;
    case Enclosing(_) => m := INITIAL;
    case Opaque => m := INITIAL;
  }

  const DEAD := Machine(map[], {}, {0}, map[])

  /** The values that elements read. */
  lemma ReadsMatter(c: Cmd, v: Storage)
    requires v in Mentions(c) && !NamedBy(c, v)
    ensures DependsOn(c, v)
  {
    var a, b := Assign(DEAD, v, NullValue), Assign(DEAD, v, Obj(0));
    assert Alike(a, b, {v});
    if !c.Free? && !c.Deref? {
      var a' := Assign(a, c.x, NullValue);
      assert Steps(c, a, a');
      var same := if Assigns(c, v) then {} else {v};
      OnlyTargetsAssigned(c, v);
      forall b' | Steps(c, b, b') ensures !Alike(a', b', same) {
        assert ValueOf(b', c.x) == Obj(0) && ValueOf(a', c.x) == NullValue && c.x !in same;
      }
      assert DiffersAfter(c, a, b, v);
    }
  }

  /** A copied variable is assigned only if it is copied to itself. */
  lemma OnlyTargetsAssigned(c: Cmd, v: Storage)
    requires c.Copy? || c.Move? || c.Borrow?
    ensures Assigns(c, v) <==> v == c.x
  {
    assert Steps(c, INITIAL, Assign(INITIAL, c.x, Undef));
  }

  /** An element mentions a variable if and only if its execution depends on it or its text names it. */
  lemma MentionsExactly(c: Cmd, v: Storage)
    ensures v in Mentions(c) <==> DependsOn(c, v) || NamedBy(c, v)
  {
    if v !in Mentions(c) {
      forall a, b | Alike(a, b, {v}) ensures Violates(c, a) == Violates(c, b) && !DiffersAfter(c, a, b, v) {
        UnmentionedMatches(c, v, a, b);
      }
    } else if !NamedBy(c, v) {
      ReadsMatter(c, v);
    }
  }

  lemma UnmentionedMatches(c: Cmd, v: Storage, a: Machine, b: Machine)
    requires v !in Mentions(c) && Alike(a, b, {v})
    ensures Violates(c, a) == Violates(c, b) && !DiffersAfter(c, a, b, v)
  {
    OverwrittenExactly(c, v);
    forall a' | Steps(c, a, a')
      ensures exists b' :: Steps(c, b, b') && Alike(a', b', if Assigns(c, v) then {} else {v})
    {
      var b' := StepMatches(c, a, b, a', {v});
      if Assigns(c, v) && v !in Overwritten(c) { UncountedIsScalar(c, v); }
    }
  }

  /** What is assigned without counting as overwritten or mentioned is given a number. */
  lemma UncountedIsScalar(c: Cmd, v: Storage)
    requires Assigns(c, v) && v !in Overwritten(c) && v !in Mentions(c)
    ensures v in Scalars(c)
  {
    OverwrittenExactly(c, v);
    if c.StoreScalar? {
      assert Steps(c, INITIAL, Assign(INITIAL, c.x, Number(0)));
    } else {
      var p := c.production;
      var result := if p.contract.successNonzero then 1 else 0;
      var filled := Assign(INITIAL, p.dest, NullValue);
      NothingAllocated(p.dest);
      assert Produces(p, result, INITIAL, Returned(filled, p, result));
      assert v in Returned(filled, p, result).vars;
    }
  }

  /** So does a condition. */
  ghost predicate SubjectDependsOn(s: Subject, v: Storage) {
    exists a, b :: Alike(a, b, {v}) && SubjectValue(s, a) != SubjectValue(s, b)
  }

  lemma CondMentionsExactly(c: Cond, v: Storage)
    ensures v in CondMentions(c) <==>
      SubjectDependsOn(CondSubject(c), v) || (CondSubject(c).ProducingCall? && CondSubject(c).dest == v)
  {
    CondMentionsSubject(c);
    var s := CondSubject(c);
    if s.Variable? || s.AssignedVariable? {
      var a, b := Assign(INITIAL, s.v, NullValue), Assign(INITIAL, s.v, Number(0));
      assert Alike(a, b, {s.v}) && SubjectValue(s, a) != SubjectValue(s, b);
    }
  }

  lemma {:induction false} CondMentionsSubject(c: Cond)
    ensures CondMentions(c) == SubjectMentions(CondSubject(c))
  {
    match c
    case Not(inner) => CondMentionsSubject(inner);
    case _ =>
  }

  // ---------------------------------------------------------------------------------------------
  // Whole runs
  // ---------------------------------------------------------------------------------------------

  /** Execution just before element `k` of a block, or at its end. */
  datatype Config = Config(block: nat, k: nat, machine: Machine)

  ghost predicate Advances(blocks: seq<Block>, p: Config, q: Config) {
    && p.block < |blocks| && p.k <= |blocks[p.block].cmds|
    && if p.k < |blocks[p.block].cmds| then
         q.block == p.block && q.k == p.k + 1 && Steps(blocks[p.block].cmds[p.k], p.machine, q.machine)
       else
         q.k == 0 && q.machine == p.machine && exists i :: TakesEdge(blocks[p.block], i, q.block, p.machine)
  }

  /** Part of a run, from anywhere. */
  ghost predicate IsJourney(blocks: seq<Block>, journey: seq<Config>) {
    |journey| > 0 && forall j :: 0 <= j < |journey| - 1 ==> Advances(blocks, journey[j], journey[j + 1])
  }

  ghost predicate ViolatesNow(blocks: seq<Block>, p: Config) {
    p.block < |blocks| && p.k < |blocks[p.block].cmds| && Violates(blocks[p.block].cmds[p.k], p.machine)
  }

  /** No path from here uses any of the variables before it overwrites it. */
  ghost predicate Unused(blocks: seq<Block>, p: Config, vs: set<Storage>) {
    forall v :: v in vs ==> !L.UsedLater(FullGraph(blocks), (p.block, p.k), v)
  }

  /** The other configuration is at the same place and differs in unused variables only. */
  ghost predicate Mirrors(blocks: seq<Block>, p: Config, q: Config) {
    q.block == p.block && q.k == p.k && exists vs :: Unused(blocks, p, vs) && Alike(p.machine, q.machine, vs)
  }

  lemma UnusedIsUnmentioned(blocks: seq<Block>, p: Config, vs: set<Storage>, q: Config)
    requires Unused(blocks, p, vs) && p.block < |blocks| && p.k < |blocks[p.block].cmds|
    requires q.block == p.block && q.k == p.k + 1
    ensures vs !! Mentions(blocks[p.block].cmds[p.k])
    ensures Unused(blocks, q, vs - Overwritten(blocks[p.block].cmds[p.k]))
  {
    var g, here, next := FullGraph(blocks), (p.block, p.k), (p.block, p.k + 1);
    forall v | v in vs ensures v !in Mentions(blocks[p.block].cmds[p.k]) {
      if v in Mentions(blocks[p.block].cmds[p.k]) { L.UsedHere(g, here, v); }
    }
    forall v | v in vs - Overwritten(blocks[p.block].cmds[p.k]) ensures !L.UsedLater(g, next, v) {
      if L.UsedLater(g, next, v) { L.PathExtends(g, here, next, v); }
    }
  }

  lemma UnusedAtEnd(blocks: seq<Block>, p: Config, vs: set<Storage>, q: Config)
    requires Unused(blocks, p, vs) && p.block < |blocks| && p.k == |blocks[p.block].cmds|
    requires Some(q.block) in blocks[p.block].succs && q.k == 0
    ensures blocks[p.block].cond.Some? ==> vs !! CondMentions(blocks[p.block].cond.value)
    ensures Unused(blocks, q, vs)
  {
    var next := q.block;
    var b, g, here := blocks[p.block], FullGraph(blocks), (p.block, p.k);
    forall v | v in vs ensures b.cond.Some? ==> v !in CondMentions(b.cond.value) {
      if b.cond.Some? && v in CondMentions(b.cond.value) { L.UsedHere(g, here, v); }
    }
    var i :| 0 <= i < |b.succs| && b.succs[i] == Some(next);
    assert next in SuccessorSet(b);
    forall v | v in vs ensures !L.UsedLater(g, (next, 0), v) { UnusedAcross(g, here, next, v); }
  }

  /** Only the branch condition comes between the last element and the next block. */
  lemma UnusedAcross(g: seq<L.EventBlock>, here: L.Point, next: nat, v: Storage)
    requires here.0 < |g| && here.1 <= |g[here.0].events| <= here.1 + 1 && next in g[here.0].succs
    requires here.1 < |g[here.0].events| ==> g[here.0].events[here.1].kills == {}
    requires !L.UsedLater(g, here, v)
    ensures !L.UsedLater(g, (next, 0), v)
  {
    if L.UsedLater(g, (next, 0), v) {
      var end := (here.0, |g[here.0].events|);
      L.PathExtends(g, end, (next, 0), v);
      if here != end { L.PathExtends(g, here, end, v); }
    }
  }

  lemma MirrorViolates(blocks: seq<Block>, p: Config, q: Config)
    requires Mirrors(blocks, p, q)
    ensures ViolatesNow(blocks, p) <==> ViolatesNow(blocks, q)
  {
    var vs :| Unused(blocks, p, vs) && Alike(p.machine, q.machine, vs);
    if p.block < |blocks| && p.k < |blocks[p.block].cmds| {
      UnusedIsUnmentioned(blocks, p, vs, Config(p.block, p.k + 1, p.machine));
    }
  }

  /** Whatever happens next can happen in the mirrored configuration, too. */
  lemma MirrorAdvances(blocks: seq<Block>, p: Config, next: Config, q: Config) returns (q': Config)
    requires Advances(blocks, p, next) && Mirrors(blocks, p, q)
    ensures Advances(blocks, q, q') && Mirrors(blocks, next, q')
  {
    var b := blocks[p.block];
    var vs :| Unused(blocks, p, vs) && Alike(p.machine, q.machine, vs);
    if p.k < |b.cmds| {
      var c := b.cmds[p.k];
      UnusedIsUnmentioned(blocks, p, vs, next);
      var m := StepMatches(c, p.machine, q.machine, next.machine, vs);
      q' := Config(p.block, p.k + 1, m);
      assert Alike(next.machine, m, vs - Overwritten(c));
      assert Unused(blocks, next, vs - Overwritten(c));
    } else {
      var i: nat :| TakesEdge(b, i, next.block, p.machine);
      assert b.succs[i] in b.succs;
      UnusedAtEnd(blocks, p, vs, next);
      if b.cond.Some? { ConditionMatches(b.cond.value, i == 0, p.machine, q.machine, vs); }
      q' := Config(next.block, 0, q.machine);
      assert TakesEdge(b, i, next.block, q.machine);
      assert Unused(blocks, next, vs);
    }
  }

  /** What a variable holds does not matter once no path uses it before overwriting it: every run from
      there has its like, whatever the variable holds, through the same places and with the same
      violations. */
  lemma {:induction false} UnusedDoesNotMatter(blocks: seq<Block>, journey: seq<Config>, q: Config)
      returns (other: seq<Config>)
    requires IsJourney(blocks, journey) && Mirrors(blocks, journey[0], q)
    ensures IsJourney(blocks, other) && |other| == |journey| && other[0] == q
    ensures forall j :: 0 <= j < |journey| ==> Mirrors(blocks, journey[j], other[j])
    ensures forall j :: 0 <= j < |journey| ==> (ViolatesNow(blocks, journey[j]) <==> ViolatesNow(blocks, other[j]))
    decreases |journey|
  {
    if |journey| == 1 {
      other := [q];
      MirrorViolates(blocks, journey[0], q);
    } else {
      var n := |journey| - 1;
      var init := journey[..n];
      other := UnusedDoesNotMatter(blocks, init, q);
      assert Advances(blocks, journey[n - 1], journey[n - 1 + 1]) && init[n - 1] == journey[n - 1];
      var last := MirrorAdvances(blocks, journey[n - 1], journey[n], other[n - 1]);
      var before := other;
      other := before + [last];
      forall j | 0 <= j < |other| - 1 ensures Advances(blocks, other[j], other[j + 1]) {
        if j < n - 1 { assert Advances(blocks, before[j], before[j + 1]); }
      }
      forall j | 0 <= j < |journey| ensures Mirrors(blocks, journey[j], other[j]) {
        if j < n { assert Mirrors(blocks, init[j], before[j]); }
      }
      forall j | 0 <= j < |journey| ensures ViolatesNow(blocks, journey[j]) <==> ViolatesNow(blocks, other[j]) {
        MirrorViolates(blocks, journey[j], other[j]);
      }
    }
  }
}
