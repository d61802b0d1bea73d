/** Three functions whose summaries say less than their bodies do: two results that are said to borrow
    from a parameter and can be any object, and a parameter that is said to be borrowed and is freed. */
module SummaryLimits {
  import opened Options
  import opened Effects
  import opened Syntax
  import opened Origins
  import opened Holdings
  import opened Summaries
  import opened SummaryFacts

  const RECORD := Pointer(Record)
  const P := Parameter(0)
  const OTHER := Parameter(1)

  function Unannotated(f: Function): Defined {
    Defined(f, Annotations(false, None, seq(|f.params|, _ => NoEffect)))
  }

  // ---------------------------------------------------------------------------------------------
  // return (T *)p->handle;
  // ---------------------------------------------------------------------------------------------

  const HANDLE := Cast(Member(P, true, Arithmetic), RECORD)
  const GIVES_HANDLE := Function([RECORD], map[], Return(Some(HANDLE)))

  lemma ScanOne(f: Function, store: Store, s: Summary, node: Stmt, only: Stmt, conditional: bool)
    requires Children(node) == [only] && !ReturnsNull(f, node) && !node.Branching? && !node.Conditional?
    ensures Scan(f, store, s, node, conditional) ==
      Scan(f, store, NodeStep(f, store, s, node, conditional), only, conditional)
  {
    var kids := Children(node);
    assert kids[..0] == [];
    var after := NodeStep(f, store, s, node, conditional);
    assert ScanAll(f, store, after, node, kids[..0], conditional) == after;
  }

  lemma ScanLeaf(f: Function, store: Store, s: Summary, node: Stmt, conditional: bool)
    requires node.Parameter? || node.Variable?
    ensures Scan(f, store, s, node, conditional) == s
  {
  }

  /** An integer member cast to a pointer: the result is said to borrow from `p`, and can be anything. */
  lemma HandleIsSaidToBorrow()
    ensures var s := Build(Unannotated(GIVES_HANDLE), true, map[]);
      s.result == BorrowFromArg && s.borrowArg == Some(0) && !s.conflict
    ensures WellTyped(GIVES_HANDLE, HANDLE) && !StaysOnEntry(GIVES_HANDLE, HANDLE, 0)
  {
    var f, d := GIVES_HANDLE, Unannotated(GIVES_HANDLE);
    var member := HANDLE.operand;
    var s0 := Annotated(d);
    var s1 := NodeStep(f, map[], s0, f.body, false);
    assert Strip(HANDLE) == member && !ReturnsNull(f, f.body);
    assert Resolve(f, member) == From(0);
    assert !AssignsParameter(f, P, 0) && !AssignsParameter(f, member, 0) && !AssignsParameter(f, HANDLE, 0);
    assert s1.result == BorrowFromArg && s1.borrowArg == Some(0) && !s1.conflict;
    ScanExtends(f, map[], s0, f.body, false);
    ScanOne(f, map[], s0, f.body, HANDLE, false);
    ScanOne(f, map[], s1, HANDLE, member, false);
    var s2 := NodeStep(f, map[], s1, member, false);
    ScanOne(f, map[], s1, member, P, false);
    ScanLeaf(f, map[], s2, P, false);
    StaysOnEntryExactly(f, HANDLE, 0);
  }

  // ---------------------------------------------------------------------------------------------
  // T **q = &p;  *q = other;  return p;
  // ---------------------------------------------------------------------------------------------

  const ADDRESS := AddressOf(P)
  const DECLARES_Q := Declaration([Declarator(0, Pointer(RECORD), Some(ADDRESS))])
  const THROUGH_Q := Dereference(Variable(0, Pointer(RECORD)), RECORD)
  const OVERWRITES := Assignment(THROUGH_Q, OTHER)
  const RETURNS_P := Return(Some(P))
  const GIVES_OTHER := Function([RECORD, RECORD], map[], Compound([DECLARES_Q, OVERWRITES, RETURNS_P]))

  lemma OverwritingChildren()
    ensures Children(DECLARES_Q) == [ADDRESS] && Children(ADDRESS) == [P]
    ensures Children(OVERWRITES) == [THROUGH_Q, OTHER] && Children(RETURNS_P) == [P]
  {
    assert Initializers([Declarator(0, Pointer(RECORD), Some(ADDRESS))][1..]) == [];
  }

  /** Only direct assignments are looked for. */
  lemma NothingAssignsP()
    ensures !AssignsParameter(GIVES_OTHER, GIVES_OTHER.body, 0)
    ensures TakesParameter(GIVES_OTHER.body, 0) && StoresSomewhere(GIVES_OTHER.body)
  {
    var f := GIVES_OTHER;
    OverwritingChildren();
    assert !AssignsParameter(f, P, 0) && !AssignsParameter(f, OTHER, 0) && !AssignsParameter(f, ADDRESS, 0);
    assert Children(THROUGH_Q) == [THROUGH_Q.operand] && !AssignsParameter(f, THROUGH_Q.operand, 0);
    assert !AssignsParameter(f, THROUGH_Q, 0);
    assert !AssignsParameter(f, DECLARES_Q, 0) && !AssignsParameter(f, OVERWRITES, 0) &&
      !AssignsParameter(f, RETURNS_P, 0);
    assert ADDRESS in Children(DECLARES_Q) && DECLARES_Q in Children(f.body) && OVERWRITES in Children(f.body);
    assert TakesParameter(ADDRESS, 0) && TakesParameter(DECLARES_Q, 0);
  }

  /** The summary looks at the two statements before the return and finds nothing. */
  lemma ScanThree(f: Function, store: Store, s: Summary, a: Stmt, b: Stmt, c: Stmt)
    ensures Scan(f, store, s, Compound([a, b, c]), false) ==
      Scan(f, store, Scan(f, store, Scan(f, store, s, a, false), b, false), c, false)
  {
    var node := Compound([a, b, c]);
    var kids := Children(node);
    assert NodeStep(f, store, s, node, false) == s;
    assert ScanFirst(f, store, s, node, 0, false) == s;
    ScanFirstNext(f, store, s, node, 0, false);
    var s1 := ScanFirst(f, store, s, node, 1, false);
    ScanFirstNext(f, store, s, node, 1, false);
    var s2 := ScanFirst(f, store, s, node, 2, false);
    ScanFirstNext(f, store, s, node, 2, false);
    assert kids[..3] == kids;
  }

  /** Without returns and calls. */
  predicate Quiet(s: Stmt) {
    !s.Return? && !s.Call? && forall c :: c in Children(s) ==> Quiet(c)
  }

  /** The result is the same, and no parameter is newly consumed. */
  predicate SameVerdict(s: Summary, r: Summary) {
    && SameResult(s, r) && |r.params| == |s.params|
    && forall i :: 0 <= i < |s.params| && s.params[i] != TakesOwnership ==> r.params[i] != TakesOwnership
  }

  lemma {:induction false} FlowsKeepVerdict(f: Function, s: Summary, ds: seq<Declarator>)
    ensures SameVerdict(s, MarkFlows(f, s, ds))
  {
    if ds != [] { FlowsKeepVerdict(f, s, ds[..|ds| - 1]); }
  }

  lemma QuietNode(f: Function, store: Store, s: Summary, node: Stmt, conditional: bool)
    requires !node.Return? && !node.Call?
    ensures SameVerdict(s, NodeStep(f, store, s, node, conditional))
  {
    match node
    case Declaration(ds) => FlowsKeepVerdict(f, s, ds);
    case _ =>
  }

  lemma {:induction false} QuietScan(f: Function, store: Store, s: Summary, node: Stmt, conditional: bool)
    requires Quiet(node)
    ensures SameVerdict(s, Scan(f, store, s, node, conditional))
    decreases node, |Children(node)| + 1
  {
    QuietNode(f, store, s, node, conditional);
    QuietScans(f, store, NodeStep(f, store, s, node, conditional), node, Children(node),
      conditional || node.Branching? || node.Conditional?);
  }

  lemma {:induction false} QuietScans(f: Function, store: Store, s: Summary, parent: Stmt, kids: seq<Stmt>,
      conditional: bool)
    requires forall c :: c in kids ==> c < parent && Quiet(c)
    ensures SameVerdict(s, ScanAll(f, store, s, parent, kids, conditional))
    decreases parent, |kids|
  {
    if kids != [] {
      var n := |kids| - 1;
      assert kids[n] in kids && forall c :: c in kids[..n] ==> c in kids;
      QuietScans(f, store, s, parent, kids[..n], conditional);
      QuietScan(f, store, ScanAll(f, store, s, parent, kids[..n], conditional), kids[n], conditional);
    }
  }

  lemma OverwritingIsQuiet()
    ensures Quiet(DECLARES_Q) && Quiet(OVERWRITES)
  {
    OverwritingChildren();
    assert Quiet(P) && Quiet(OTHER) && Quiet(ADDRESS);
    assert Children(THROUGH_Q) == [THROUGH_Q.operand] && Quiet(THROUGH_Q.operand) && Quiet(THROUGH_Q);
  }

  lemma ReturnScan(s: Summary)
    requires s.result == NoReturn && !s.conflict && |s.params| == 2 && s.params[0] != TakesOwnership
    ensures var r := Scan(GIVES_OTHER, map[], s, RETURNS_P, false);
      r.result == BorrowFromArg && r.borrowArg == Some(0) && !r.conflict
  {
    var f := GIVES_OTHER;
    NothingAssignsP();
    ScanOne(f, map[], s, RETURNS_P, P, false);
    ScanLeaf(f, map[], NodeStep(f, map[], s, RETURNS_P, false), P, false);
  }

  lemma OtherIsReturned()
    ensures StaysWith(GIVES_OTHER, P, 0) && !StaysOnEntry(GIVES_OTHER, P, 0)
  {
    NothingAssignsP();
    StaysOnEntryExactly(GIVES_OTHER, P, 0);
    StaysWithExactly(GIVES_OTHER, P, 0);
    assert !ComesFrom(GIVES_OTHER, P, 1);
  }

  /** A parameter overwritten through its address: the result is said to borrow from `p`, and can be any
      object, although `p` is returned as it is. */
  lemma OverwrittenIsSaidToBorrow()
    ensures var s := Build(Unannotated(GIVES_OTHER), true, map[]);
      s.result == BorrowFromArg && s.borrowArg == Some(0) && !s.conflict
    ensures StaysWith(GIVES_OTHER, P, 0) && !StaysOnEntry(GIVES_OTHER, P, 0)
  {
    var f, s0 := GIVES_OTHER, Annotated(Unannotated(GIVES_OTHER));
    OverwritingIsQuiet();
    var s1 := Scan(f, map[], s0, DECLARES_Q, false);
    QuietScan(f, map[], s0, DECLARES_Q, false);
    QuietScan(f, map[], s1, OVERWRITES, false);
    ReturnScan(Scan(f, map[], s1, OVERWRITES, false));
    ScanThree(f, map[], s0, DECLARES_Q, OVERWRITES, RETURNS_P);
    OtherIsReturned();
  }

  // ---------------------------------------------------------------------------------------------
  // T *q = p;  T *r = q;  free(r);
  // ---------------------------------------------------------------------------------------------

  const Q := Variable(0, RECORD)
  const R := Variable(1, RECORD)
  const COPIES_P := Declaration([Declarator(0, RECORD, Some(P))])
  const COPIES_Q := Declaration([Declarator(1, RECORD, Some(Q))])
  const FREES_R := Call(Some(Free), [R], Arithmetic)
  const FREES_COPY := Function([RECORD], map[0 := Local(false, false, Some(P)), 1 := Local(false, false, Some(Q))],
    Compound([COPIES_P, COPIES_Q, FREES_R]))

  lemma FreeIsNotNoticed(s: Summary)
    ensures NodeStep(FREES_COPY, map[], s, FREES_R, false) == s
  {
    var f := FREES_COPY;
    assert !ContainsParameter(f, R, 0);
    assert Contained(f, R, 1) == [] && AliasedParameter(f, R) == None;
    var ns := Notes(f, map[], FREES_R);
    assert |ns| == 1 && ns[0].involved == [] && ns[..0] == [];
    assert NoteSteps(s, ns[..0], false) == s;
    assert NoteSteps(s, ns, false) == NoteStep(NoteSteps(s, ns[..0], false), ns[0], false);
  }

  lemma CopyMarks(s: Summary)
    requires |s.params| == 1 && s.params[0] == NoEffect
    ensures NodeStep(FREES_COPY, map[], s, COPIES_P, false).params == [Borrows]
  {
    var ds := COPIES_P.variables;
    assert ds[..0] == [] && MarkFlows(FREES_COPY, s, ds[..0]) == s;
    assert ContainsParameter(FREES_COPY, P, 0);
  }

  lemma SecondCopyMarksNothing(s: Summary)
    requires s.params == [Borrows]
    ensures NodeStep(FREES_COPY, map[], s, COPIES_Q, false).params == [Borrows]
  {
    var ds := COPIES_Q.variables;
    assert ds[..0] == [] && MarkFlows(FREES_COPY, s, ds[..0]) == s;
  }

  lemma FirstCopyScan(s: Summary)
    requires s.params == [NoEffect] && !s.conflict
    ensures var r := Scan(FREES_COPY, map[], s, COPIES_P, false); r.params == [Borrows] && !r.conflict
  {
    var f := FREES_COPY;
    assert Initializers(COPIES_P.variables[1..]) == [] && Children(COPIES_P) == [P];
    CopyMarks(s);
    ScanOne(f, map[], s, COPIES_P, P, false);
    ScanLeaf(f, map[], NodeStep(f, map[], s, COPIES_P, false), P, false);
    QuietScan(f, map[], s, COPIES_P, false);
  }

  lemma SecondCopyScan(s: Summary)
    requires s.params == [Borrows] && !s.conflict
    ensures var r := Scan(FREES_COPY, map[], s, COPIES_Q, false); r.params == [Borrows] && !r.conflict
  {
    var f := FREES_COPY;
    assert Initializers(COPIES_Q.variables[1..]) == [] && Children(COPIES_Q) == [Q];
    SecondCopyMarksNothing(s);
    ScanOne(f, map[], s, COPIES_Q, Q, false);
    ScanLeaf(f, map[], NodeStep(f, map[], s, COPIES_Q, false), Q, false);
    QuietScan(f, map[], s, COPIES_Q, false);
  }

  lemma FreeScan(s: Summary)
    ensures Scan(FREES_COPY, map[], s, FREES_R, false) == s
  {
    FreeIsNotNoticed(s);
    ScanOne(FREES_COPY, map[], s, FREES_R, R, false);
    ScanLeaf(FREES_COPY, map[], s, R, false);
  }

  /** The alias rule follows one initialisation only: `p` is said to be borrowed and is freed. */
  lemma ChainedCopyIsSaidToBorrow()
    ensures Build(Unannotated(FREES_COPY), false, map[]).params == [Borrows]
    ensures Occurs(FREES_R, FREES_COPY.body) && IsFree(FREES_R)
    ensures FREES_COPY.locals[0].init == Some(P) && FREES_COPY.locals[1].init == Some(Q)
  {
    var f, s0 := FREES_COPY, Annotated(Unannotated(FREES_COPY));
    FirstCopyScan(s0);
    var s1 := Scan(f, map[], s0, COPIES_P, false);
    SecondCopyScan(s1);
    FreeScan(Scan(f, map[], s1, COPIES_Q, false));
    ScanThree(f, map[], s0, COPIES_P, COPIES_Q, FREES_R);
    assert FREES_R in Children(f.body) && Occurs(FREES_R, FREES_R);
  }
}
