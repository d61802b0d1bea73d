/** What a pointer parameter holds while the body runs, and which expressions evaluate to null or into
    the object that it pointed to on entry. */
module Holdings {
  import opened Syntax
  import opened Origins

  // ---------------------------------------------------------------------------------------------
  // What a parameter may hold
  // ---------------------------------------------------------------------------------------------

  /** The value of the parameter, and whether its address has been taken. */
  datatype Holding = Holding(value: Value, exposed: bool)

  predicate Writes(node: Stmt, i: nat) {
    node.Assignment? && Strip(node.left) == Parameter(i)
  }

  predicate Exposes(node: Stmt, i: nat) {
    node.AddressOf? && Strip(node.operand) == Parameter(i)
  }

  /** What evaluating one node, its children aside, does to parameter `i`. An assignment to it may store
      any value; so may a store through a pointer, or a call, once its address has been taken. Increments
      stay inside the object. */
  predicate Executes(node: Stmt, i: nat, h: Holding, h': Holding) {
    if Writes(node, i) then h'.exposed == h.exposed
    else if Exposes(node, i) then h' == h.(exposed := true)
    else if StoresToMemory(node) then h'.exposed == h.exposed && (!h.exposed ==> h'.value == h.value)
    else h' == h
  }

  /** After `n` nodes of the body, in any order and any number of times: that covers branches, loops and
      gotos. */
  ghost predicate HoldsAfter(body: Stmt, i: nat, entry: Value, h: Holding, n: nat)
    decreases n
  {
    if n == 0 then h == Holding(entry, false)
    else exists h0, node :: HoldsAfter(body, i, entry, h0, n - 1) && Occurs(node, body) && Executes(node, i, h0, h)
  }

  ghost predicate MayHold(body: Stmt, i: nat, entry: Value, h: Holding) {
    exists n: nat :: HoldsAfter(body, i, entry, h, n)
  }

  /** The parameter holds its entry value throughout. */
  ghost predicate KeepsEntry(body: Stmt, i: nat) {
    forall entry, h :: MayHold(body, i, entry, h) ==> h.value == entry
  }

  lemma StartsWithEntry(body: Stmt, i: nat, entry: Value)
    ensures MayHold(body, i, entry, Holding(entry, false))
  {
    assert HoldsAfter(body, i, entry, Holding(entry, false), 0);
  }

  lemma HoldsNext(body: Stmt, i: nat, entry: Value, h: Holding, node: Stmt, h': Holding)
    requires MayHold(body, i, entry, h) && Occurs(node, body) && Executes(node, i, h, h')
    ensures MayHold(body, i, entry, h')
  {
    var n: nat :| HoldsAfter(body, i, entry, h, n);
    assert HoldsAfter(body, i, entry, h', n + 1);
  }

  // ---------------------------------------------------------------------------------------------
  // Nodes and trees
  // ---------------------------------------------------------------------------------------------

  lemma {:induction false} WritesInside(f: Function, s: Stmt, i: nat, node: Stmt)
    requires Occurs(node, s) && Writes(node, i)
    ensures AssignsParameter(f, s, i)
    decreases s
  {
    if node != s {
      var c :| c in Children(s) && Occurs(node, c);
      WritesInside(f, c, i, node);
    }
  }

  lemma {:induction false} SomeWrite(f: Function, s: Stmt, i: nat) returns (node: Stmt)
    requires AssignsParameter(f, s, i)
    ensures Occurs(node, s) && Writes(node, i)
    decreases s
  {
    node := s;
    if !Writes(s, i) {
      var c :| c in Children(s) && AssignsParameter(f, c, i);
      node := SomeWrite(f, c, i);
    }
  }

  lemma {:induction false} ExposesInside(s: Stmt, i: nat, node: Stmt)
    requires Occurs(node, s) && Exposes(node, i)
    ensures TakesParameter(s, i)
    decreases s
  {
    if node != s {
      var c :| c in Children(s) && Occurs(node, c);
      ExposesInside(c, i, node);
    }
  }

  lemma {:induction false} SomeExposure(s: Stmt, i: nat) returns (node: Stmt)
    requires TakesParameter(s, i)
    ensures Occurs(node, s) && Exposes(node, i)
    decreases s
  {
    node := s;
    if !Exposes(s, i) {
      var c :| c in Children(s) && TakesParameter(c, i);
      node := SomeExposure(c, i);
    }
  }

  lemma {:induction false} StoresInside(s: Stmt, node: Stmt)
    requires Occurs(node, s) && StoresToMemory(node)
    ensures StoresSomewhere(s)
    decreases s
  {
    if node != s {
      var c :| c in Children(s) && Occurs(node, c);
      StoresInside(c, node);
    }
  }

  lemma {:induction false} SomeStore(s: Stmt) returns (node: Stmt)
    requires StoresSomewhere(s)
    ensures Occurs(node, s) && StoresToMemory(node)
    decreases s
  {
    node := s;
    if !StoresToMemory(s) {
      var c :| c in Children(s) && StoresSomewhere(c);
      node := SomeStore(c);
    }
  }

  // ---------------------------------------------------------------------------------------------
  // Exactly when the entry value is kept
  // ---------------------------------------------------------------------------------------------

  /** Some assignment, or some store through a pointer that may point to it, can change the parameter. */
  predicate Changeable(f: Function, i: nat) {
    AssignsParameter(f, f.body, i) || (TakesParameter(f.body, i) && StoresSomewhere(f.body))
  }

  lemma {:induction false} UnchangedHolds(f: Function, i: nat, entry: Value, h: Holding, n: nat)
    requires !Changeable(f, i) && HoldsAfter(f.body, i, entry, h, n)
    ensures h.value == entry && (h.exposed ==> TakesParameter(f.body, i))
    decreases n
  {
    if n > 0 {
      var h0, node :| HoldsAfter(f.body, i, entry, h0, n - 1) && Occurs(node, f.body) && Executes(node, i, h0, h);
      UnchangedHolds(f, i, entry, h0, n - 1);
      if Writes(node, i) {
        WritesInside(f, f.body, i, node);
      } else if Exposes(node, i) {
        ExposesInside(f.body, i, node);
      } else if StoresToMemory(node) {
        StoresInside(f.body, node);
      }
    }
  }

  /** A parameter that can change can come to hold anything. */
  lemma ChangedHolds(f: Function, i: nat, entry: Value, v: Value) returns (h: Holding)
    requires Changeable(f, i)
    ensures MayHold(f.body, i, entry, h) && h.value == v
  {
    var start := Holding(entry, false);
    StartsWithEntry(f.body, i, entry);
    if AssignsParameter(f, f.body, i) {
      var node := SomeWrite(f, f.body, i);
      h := Holding(v, false);
      HoldsNext(f.body, i, entry, start, node, h);
    } else {
      var exposure := SomeExposure(f.body, i);
      HoldsNext(f.body, i, entry, start, exposure, Holding(entry, true));
      var store := SomeStore(f.body);
      h := Holding(v, true);
      if Exposes(store, i) { assert false; }
      HoldsNext(f.body, i, entry, Holding(entry, true), store, h);
    }
  }

  /** The parameter holds its entry value throughout if and only if it is never assigned, and never both
      exposed and within reach of a store. */
  lemma KeepsEntryExactly(f: Function, i: nat)
    ensures KeepsEntry(f.body, i) <==> !Changeable(f, i)
  {
    if Changeable(f, i) {
      var h := ChangedHolds(f, i, Null, Into(0));
      assert !(h.value == Null);
    } else {
      forall entry, h | MayHold(f.body, i, entry, h) ensures h.value == entry {
        var n: nat :| HoldsAfter(f.body, i, entry, h, n);
        UnchangedHolds(f, i, entry, h, n);
      }
    }
  }

  // ---------------------------------------------------------------------------------------------
  // Expressions that stay with the entry object
  // ---------------------------------------------------------------------------------------------

  /** Whenever `e` is evaluated, it is null or points into the object that parameter `i` pointed to on
      entry. */
  ghost predicate StaysOnEntry(f: Function, e: Stmt, i: nat) {
    forall entry, h, v :: MayHold(f.body, i, entry, h) && Evaluates(f, e, i, h.value, v) ==> v == Null || v == entry
  }

  /** No source of the value is any parameter: all are null. */
  ghost predicate OnlyNull(f: Function, e: Stmt) {
    forall j :: ComesFrom(f, e, j)
  }

  lemma {:induction false} NullValues(f: Function, e: Stmt, i: nat, j: nat, entry: Value, v: Value)
    requires WellTyped(f, e) && TypeOf(f, e).Pointer? && i != j && ComesFrom(f, e, i) && ComesFrom(f, e, j)
    requires Evaluates(f, e, i, entry, v)
    ensures v == Null
    decreases e
  {
    match e
    case Cast(x, _) =>
      if TypeOf(f, x).Pointer? { NullValues(f, x, i, j, entry, v); }
      else if TypeOf(f, x).Array? { NullPlaces(f, x, i, j, entry, v.target); }
    case Conditional(_, yes, no) =>
      if Evaluates(f, yes, i, entry, v) {
        NullValues(f, yes, i, j, entry, v);
      } else {
        NullValues(f, no, i, j, entry, v);
      }
    case Comma(_, right) => NullValues(f, right, i, j, entry, v);
    case Sum(left, right, _) =>
      if TypeOf(f, left).Pointer? {
        NullValues(f, left, i, j, entry, v);
      } else {
        NullValues(f, right, i, j, entry, v);
      }
    case AddressOf(x) => NullPlaces(f, x, i, j, entry, v.target);
    case _ =>
  }

  /** Nothing lies in the objects of two parameters. */
  lemma {:induction false} NullPlaces(f: Function, e: Stmt, i: nat, j: nat, entry: Value, target: nat)
    requires WellTyped(f, e) && i != j && LiesIn(f, e, i) && LiesIn(f, e, j)
    ensures !Locates(f, e, i, entry, target)
    decreases e
  {
    if Locates(f, e, i, entry, target) {
      match e
      case Member(base, arrow, _) =>
        if arrow { NullValues(f, base, i, j, entry, Into(target)); } else { NullPlaces(f, base, i, j, entry, target); }
      case Subscript(base, _, _) => NullValues(f, base, i, j, entry, Into(target));
      case Dereference(x, _) => NullValues(f, x, i, j, entry, Into(target));
      case _ =>
    }
  }

  /** An expression with parameter `i` among its sources can evaluate into its object. */
  lemma {:induction false} ParameterReaches(f: Function, e: Stmt, i: nat, j: nat, target: nat)
    requires WellTyped(f, e) && TypeOf(f, e).Pointer? && ComesFrom(f, e, i) && !ComesFrom(f, e, j)
    ensures Evaluates(f, e, i, Into(target), Into(target))
    decreases e
  {
    match e
    case Cast(x, _) =>
      if TypeOf(f, x).Pointer? { ParameterReaches(f, x, i, j, target); }
      else if TypeOf(f, x).Array? { ParameterLocates(f, x, i, j, target); }
    case Conditional(_, yes, no) =>
      if !ComesFrom(f, yes, j) {
        ParameterReaches(f, yes, i, j, target);
      } else {
        ParameterReaches(f, no, i, j, target);
      }
    case Comma(_, right) => ParameterReaches(f, right, i, j, target);
    case Sum(left, right, _) =>
      if TypeOf(f, left).Pointer? {
        ParameterReaches(f, left, i, j, target);
      } else {
        ParameterReaches(f, right, i, j, target);
      }
    case AddressOf(x) => ParameterLocates(f, x, i, j, target);
    case _ =>
  }

  lemma {:induction false} ParameterLocates(f: Function, e: Stmt, i: nat, j: nat, target: nat)
    requires WellTyped(f, e) && LiesIn(f, e, i) && !LiesIn(f, e, j)
    ensures Locates(f, e, i, Into(target), target)
    decreases e
  {
    match e
    case Member(base, arrow, _) =>
      if arrow { ParameterReaches(f, base, i, j, target); } else { ParameterLocates(f, base, i, j, target); }
    case Subscript(base, _, _) => ParameterReaches(f, base, i, j, target);
    case Dereference(x, _) => ParameterReaches(f, x, i, j, target);
    case _ =>
  }

  /** For every pointer expression: its sources are parameter `i` and null, and, unless they are all
      null, nothing can change the parameter. */
  lemma StaysOnEntryExactly(f: Function, e: Stmt, i: nat)
    requires WellTyped(f, e) && TypeOf(f, e).Pointer?
    ensures StaysOnEntry(f, e, i) <==> ComesFrom(f, e, i) && (OnlyNull(f, e) || !Changeable(f, i))
  {
    KeepsEntryExactly(f, i);
    if !ComesFrom(f, e, i) {
      StartsWithEntry(f.body, i, Null);
      ValuesEscape(f, e, i, Null, 0);
    } else if OnlyNull(f, e) {
      forall entry, h, v | MayHold(f.body, i, entry, h) && Evaluates(f, e, i, h.value, v) ensures v == Null {
        NullValues(f, e, i, i + 1, h.value, v);
      }
    } else if Changeable(f, i) {
      var j: nat :| !ComesFrom(f, e, j);
      var h := ChangedHolds(f, i, Null, Into(0));
      ParameterReaches(f, e, i, j, 0);
    } else {
      forall entry, h, v | MayHold(f.body, i, entry, h) && Evaluates(f, e, i, h.value, v)
        ensures v == Null || v == entry {
        ValuesComeFrom(f, e, i, h.value, v);
      }
    }
  }
}
