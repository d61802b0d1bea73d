/** Which parameter's object an expression points into: the resolver behind borrow summaries, what
    expressions can evaluate to, and when the resolver is right. */
module Origins {
  import opened Options
  import opened Syntax

  // ---------------------------------------------------------------------------------------------
  // The resolver
  // ---------------------------------------------------------------------------------------------

  datatype Origin = Rejected | Neutral | From(index: nat)

  /** The last operand of a chain of commas. */
  function LastOperand(e: Stmt): (r: Stmt)
    ensures r == e || r < e
  {
    if Strip(e).Comma? then LastOperand(Strip(e).right) else e
  }

  /** One side of a pointer sum; a side that is no pointer under its casts contributes nothing. */
  function Side(f: Function, e: Stmt): Origin
    decreases e, 1
  {
    if TypeOf(f, Strip(e)).Pointer? then Resolve(f, Strip(e)) else Neutral
  }

  function Resolve(f: Function, raw: Stmt): Origin
    decreases raw, 0
  {
    var e := Strip(raw);
    if e.Zero? then Neutral
    else if ParameterIndex(f, e).Some? then
      if f.params[e.index].Pointer? then From(e.index) else Rejected
    else match e
      case Conditional(_, yes, no) =>
        var l := Resolve(f, yes);
        var r := Resolve(f, no);
        if l.Rejected? || r.Rejected? || (l.From? && r.From? && l != r) then Rejected
        else if l.From? then l else r
      case Comma(_, right) => Resolve(f, LastOperand(right))
      case Sum(left, right, ty) =>
        if !ty.Pointer? then Rejected
        else
          var l := Side(f, left);
          var r := Side(f, right);
          if l.Rejected? || r.Rejected? || l.From? == r.From? then Rejected
          else if l.From? then l else r
      case Member(base, _, ty) => if ty.Pointer? then Rejected else Resolve(f, base)
      case AddressOf(operand) =>
        var inner := Strip(operand);
        if ParameterIndex(f, inner).Some? then Rejected
        else if inner.Member? then Resolve(f, inner.base)
        else if inner.Subscript? then Resolve(f, inner.base)
        else Rejected
      case _ => Rejected
  }

  function BorrowedParameter(f: Function, e: Stmt): Option<nat> {
    var direct := ParameterIndex(f, e);
    if direct.Some? then direct
    else
      var o := Resolve(f, e);
      if o.From? then Some(o.index) else None
  }

  // ---------------------------------------------------------------------------------------------
  // Evaluation
  // ---------------------------------------------------------------------------------------------

  /** Pointers are known by the object they point into. */
  datatype Value = Null | Into(target: nat) | Scalar

  /** `e` may evaluate to `v` while parameter `i` holds `entry`. Whatever is read from other variables,
      from memory or from calls may be anything. Pointer arithmetic stays in its object. */
  ghost predicate Evaluates(f: Function, e: Stmt, i: nat, entry: Value, v: Value)
    decreases e, 1
  {
    match e
    case Zero => v == Scalar
    case Parameter(j) => j == i ==> v == entry
    case Cast(x, t) =>
      if !t.Pointer? then v == Scalar
      else if TypeOf(f, x).Pointer? then Evaluates(f, x, i, entry, v)
      else if TypeOf(f, x).Array? then v.Into? && Locates(f, x, i, entry, v.target)
      else if Strip(x).Zero? then v == Null
      else !v.Scalar?
    case Conditional(_, yes, no) => Evaluates(f, yes, i, entry, v) || Evaluates(f, no, i, entry, v)
    case Comma(_, right) => Evaluates(f, right, i, entry, v)
    case Sum(left, right, ty) =>
      if !ty.Pointer? then v == Scalar
      else if TypeOf(f, left).Pointer? then Evaluates(f, left, i, entry, v)
      else Evaluates(f, right, i, entry, v)
    case AddressOf(x) => v.Into? && Locates(f, x, i, entry, v.target)
    case _ => true
  }

  /** `e` may designate storage inside `target`; a variable's own storage, or a temporary, may be any
      object. */
  ghost predicate Locates(f: Function, e: Stmt, i: nat, entry: Value, target: nat)
    decreases e, 0
  {
    match e
    case Member(base, arrow, _) =>
      if arrow then Evaluates(f, base, i, entry, Into(target)) else Locates(f, base, i, entry, target)
    case Subscript(base, _, _) => Evaluates(f, base, i, entry, Into(target))
    case Dereference(x, _) => Evaluates(f, x, i, entry, Into(target))
    case _ => true
  }

  // ---------------------------------------------------------------------------------------------
  // Well-typed expressions
  // ---------------------------------------------------------------------------------------------

  /** The typing rules the resolver can rely on, for the operands a pointer value may come from. */
  ghost predicate WellTyped(f: Function, e: Stmt) {
    match e
    case Parameter(i) => i < |f.params| && !f.params[i].Array?
    case Cast(x, t) => (t.Pointer? || t.Arithmetic?) && WellTyped(f, x)
    case Conditional(_, yes, no) =>
      TypeOf(f, yes) == TypeOf(f, no) && !TypeOf(f, yes).Array? && WellTyped(f, yes) && WellTyped(f, no)
    case Comma(_, right) => WellTyped(f, right) && !TypeOf(f, right).Array?
    case Sum(left, right, ty) =>
      && (ty.Pointer? ==> TypeOf(f, left).Pointer? != TypeOf(f, right).Pointer?)
      && WellTyped(f, left) && WellTyped(f, right)
    case Member(base, arrow, _) => WellTyped(f, base) && if arrow then TypeOf(f, base).Pointer?
      else TypeOf(f, base).Record?
    case Subscript(base, _, _) => WellTyped(f, base) && TypeOf(f, base).Pointer?
    case AddressOf(x) => WellTyped(f, x) && !x.Cast?
    case Dereference(x, _) => WellTyped(f, x) && TypeOf(f, x).Pointer?
    case _ => true
  }

  predicate Lvalue(e: Stmt) {
    e.Parameter? || e.Variable? || e.Member? || e.Subscript? || e.Dereference?
  }

  /** What the resolver takes for granted: integers do not become pointers unless they are null,
      pointers are not added as integers, and members are not taken of temporaries. */
  ghost predicate Plain(f: Function, e: Stmt) {
    match e
    case Cast(x, t) =>
      Plain(f, x) && (t.Pointer? ==> TypeOf(f, x).Pointer? || TypeOf(f, x).Array? || Strip(x).Zero?)
    case Conditional(_, yes, no) => Plain(f, yes) && Plain(f, no)
    case Comma(_, right) => Plain(f, right)
    case Sum(left, right, ty) =>
      && Plain(f, left) && Plain(f, right)
      && (ty.Pointer? ==> (TypeOf(f, left).Pointer? || !TypeOf(f, Strip(left)).Pointer?) &&
                          (TypeOf(f, right).Pointer? || !TypeOf(f, Strip(right)).Pointer?))
    case Member(base, arrow, _) => Plain(f, base) && (!arrow ==> Lvalue(base))
    case Subscript(base, _, _) => Plain(f, base)
    case AddressOf(x) => Plain(f, x)
    case Dereference(x, _) => Plain(f, x)
    case _ => true
  }

  // ---------------------------------------------------------------------------------------------
  // Where a pointer's value comes from
  // ---------------------------------------------------------------------------------------------

  /** Every source that the pointer `e` can take its value from is parameter `i` or null. */
  ghost predicate ComesFrom(f: Function, e: Stmt, i: nat)
    decreases e
  {
    match e
    case Parameter(j) => j == i
    case Cast(x, _) =>
      if TypeOf(f, x).Pointer? then ComesFrom(f, x, i)
      else if TypeOf(f, x).Array? then LiesIn(f, x, i)
      else Strip(x).Zero?
    case Conditional(_, yes, no) => ComesFrom(f, yes, i) && ComesFrom(f, no, i)
    case Comma(_, right) => ComesFrom(f, right, i)
    case Sum(left, right, _) => if TypeOf(f, left).Pointer? then ComesFrom(f, left, i) else ComesFrom(f, right, i)
    case AddressOf(x) => LiesIn(f, x, i)
    case _ => false
  }

  /** The storage that `e` designates is part of the object that parameter `i` points into. */
  ghost predicate LiesIn(f: Function, e: Stmt, i: nat)
    decreases e
  {
    match e
    case Member(base, arrow, _) => if arrow then ComesFrom(f, base, i) else LiesIn(f, base, i)
    case Subscript(base, _, _) => ComesFrom(f, base, i)
    case Dereference(x, _) => ComesFrom(f, x, i)
    case _ => false
  }

  lemma {:induction false} ValuesComeFrom(f: Function, e: Stmt, i: nat, entry: Value, v: Value)
    requires WellTyped(f, e) && TypeOf(f, e).Pointer? && ComesFrom(f, e, i) && Evaluates(f, e, i, entry, v)
    ensures v == Null || v == entry
    decreases e
  {
    match e
    case Cast(x, _) =>
      if TypeOf(f, x).Pointer? { ValuesComeFrom(f, x, i, entry, v); }
      else if TypeOf(f, x).Array? { PlacesLieIn(f, x, i, entry, v.target); }
    case Conditional(_, yes, no) =>
      if Evaluates(f, yes, i, entry, v) {
        ValuesComeFrom(f, yes, i, entry, v);
      } else {
        ValuesComeFrom(f, no, i, entry, v);
      }
    case Comma(_, right) => ValuesComeFrom(f, right, i, entry, v);
    case Sum(left, right, _) =>
      if TypeOf(f, left).Pointer? {
        ValuesComeFrom(f, left, i, entry, v);
      } else {
        ValuesComeFrom(f, right, i, entry, v);
      }
    case AddressOf(x) => PlacesLieIn(f, x, i, entry, v.target);
    case _ =>
  }

  lemma {:induction false} PlacesLieIn(f: Function, e: Stmt, i: nat, entry: Value, target: nat)
    requires WellTyped(f, e) && LiesIn(f, e, i) && Locates(f, e, i, entry, target)
    ensures entry == Into(target)
    decreases e
  {
    match e
    case Member(base, arrow, _) =>
      if arrow { ValuesComeFrom(f, base, i, entry, Into(target)); } else { PlacesLieIn(f, base, i, entry, target); }
    case Subscript(base, _, _) => ValuesComeFrom(f, base, i, entry, Into(target));
    case Dereference(x, _) => ValuesComeFrom(f, x, i, entry, Into(target));
    case _ =>
  }

  /** A pointer with another source can point into any object at all. */
  lemma {:induction false} ValuesEscape(f: Function, e: Stmt, i: nat, entry: Value, target: nat)
    requires WellTyped(f, e) && TypeOf(f, e).Pointer? && !ComesFrom(f, e, i)
    ensures Evaluates(f, e, i, entry, Into(target))
    decreases e
  {
    match e
    case Cast(x, _) =>
      if TypeOf(f, x).Pointer? { ValuesEscape(f, x, i, entry, target); }
      else if TypeOf(f, x).Array? { PlacesEscape(f, x, i, entry, target); }
    case Conditional(_, yes, no) =>
      if !ComesFrom(f, yes, i) {
        ValuesEscape(f, yes, i, entry, target);
      } else {
        ValuesEscape(f, no, i, entry, target);
      }
    case Comma(_, right) => ValuesEscape(f, right, i, entry, target);
    case Sum(left, right, _) =>
      if TypeOf(f, left).Pointer? {
        ValuesEscape(f, left, i, entry, target);
      } else {
        ValuesEscape(f, right, i, entry, target);
      }
    case AddressOf(x) => PlacesEscape(f, x, i, entry, target);
    case _ =>
  }

  lemma {:induction false} PlacesEscape(f: Function, e: Stmt, i: nat, entry: Value, target: nat)
    requires WellTyped(f, e) && !LiesIn(f, e, i)
    ensures Locates(f, e, i, entry, target)
    decreases e
  {
    match e
    case Member(base, arrow, _) =>
      if arrow { ValuesEscape(f, base, i, entry, target); } else { PlacesEscape(f, base, i, entry, target); }
    case Subscript(base, _, _) => ValuesEscape(f, base, i, entry, target);
    case Dereference(x, _) => ValuesEscape(f, x, i, entry, target);
    case _ =>
  }

  /** Every value is null or inside parameter `i`'s object. */
  ghost predicate StaysWith(f: Function, e: Stmt, i: nat) {
    forall entry, v :: Evaluates(f, e, i, entry, v) ==> v == Null || v == entry
  }

  /** For every pointer expression the syntactic notion is exact. */
  lemma StaysWithExactly(f: Function, e: Stmt, i: nat)
    requires WellTyped(f, e) && TypeOf(f, e).Pointer?
    ensures StaysWith(f, e, i) <==> ComesFrom(f, e, i)
  {
    if ComesFrom(f, e, i) {
      forall entry, v | Evaluates(f, e, i, entry, v) ensures v == Null || v == entry {
        ValuesComeFrom(f, e, i, entry, v);
      }
    } else {
      ValuesEscape(f, e, i, Null, 0);
    }
  }

  // ---------------------------------------------------------------------------------------------
  // The resolver is right
  // ---------------------------------------------------------------------------------------------

  /** The resolver attributes the expression to parameter `i`, or to nothing but null. */
  predicate Accepts(f: Function, e: Stmt, i: nat) {
    Resolve(f, e) == Neutral || Resolve(f, e) == From(i)
  }

  lemma {:induction false} LastComesFrom(f: Function, e: Stmt, i: nat)
    requires WellTyped(f, e) && Plain(f, e) && TypeOf(f, e).Pointer?
    ensures var l := LastOperand(e);
      && WellTyped(f, l) && Plain(f, l) && TypeOf(f, l).Pointer?
      && (ComesFrom(f, l, i) ==> ComesFrom(f, e, i))
    decreases e
  {
    if e.Cast? {
      assert WellTyped(f, e.operand) && Strip(e) == Strip(e.operand);
      if TypeOf(f, e.operand).Pointer? { LastComesFrom(f, e.operand, i); }
    } else if e.Comma? {
      LastComesFrom(f, e.right, i);
    }
  }

  lemma {:induction false} ResolverIsRight(f: Function, e: Stmt, i: nat)
    requires WellTyped(f, e) && Plain(f, e) && TypeOf(f, e).Pointer? && Accepts(f, e, i)
    ensures ComesFrom(f, e, i)
    decreases e, 1
  {
    match e
    case Cast(x, _) =>
      assert Resolve(f, e) == Resolve(f, x);
      if TypeOf(f, x).Pointer? { ResolverIsRight(f, x, i); }
      else if TypeOf(f, x).Array? { ResolverLocates(f, x, i); }
    case Conditional(_, yes, no) =>
      ResolverIsRight(f, yes, i);
      ResolverIsRight(f, no, i);
    case Comma(_, right) =>
      LastComesFrom(f, right, i);
      ResolverIsRight(f, LastOperand(right), i);
    case Sum(left, right, _) => SumIsRight(f, e, i);
    case AddressOf(x) =>
      assert WellTyped(f, x) && Plain(f, x) && Strip(x) == x;
      if x.Subscript? || (x.Member? && x.arrow) { ResolverIsRight(f, x.base, i); }
      else if x.Member? { ResolverLocates(f, x.base, i); }
    case _ =>
  }

  lemma {:induction false} SumIsRight(f: Function, e: Stmt, i: nat)
    requires WellTyped(f, e) && Plain(f, e) && TypeOf(f, e).Pointer? && Accepts(f, e, i) && e.Sum?
    ensures ComesFrom(f, e, i)
    decreases e, 0
  {
    var onLeft := TypeOf(f, e.left).Pointer?;
    var pointer, offset := if onLeft then e.left else e.right, if onLeft then e.right else e.left;
    assert Side(f, offset) == Neutral &&
      (Side(f, pointer) == Neutral || Side(f, pointer) == Resolve(f, Strip(pointer)));
    assert Resolve(f, Strip(pointer)) == Resolve(f, pointer);
    ResolverIsRight(f, pointer, i);
  }

  lemma {:induction false} ResolverLocates(f: Function, e: Stmt, i: nat)
    requires WellTyped(f, e) && Plain(f, e) && (TypeOf(f, e).Array? || (TypeOf(f, e).Record? && Lvalue(e))) &&
      Accepts(f, e, i)
    ensures LiesIn(f, e, i)
    decreases e, 1
  {
    assert !e.Cast? && Strip(e) == e;
    if e.Member? {
      if e.arrow { ResolverIsRight(f, e.base, i); } else { ResolverLocates(f, e.base, i); }
    }
  }

  /** Every plain expression that the resolver attributes to parameter `i` evaluates to null or to a
      pointer into that parameter's object. */
  lemma ResolvedStaysWith(f: Function, e: Stmt, i: nat)
    requires WellTyped(f, e) && Plain(f, e) && TypeOf(f, e).Pointer? && BorrowedParameter(f, e) == Some(i)
    ensures StaysWith(f, e, i)
  {
    if ParameterIndex(f, e).Some? { DirectIsResolved(f, e); }
    ResolverIsRight(f, e, i);
    StaysWithExactly(f, e, i);
  }

  lemma DirectIsResolved(f: Function, e: Stmt)
    requires WellTyped(f, e) && Plain(f, e) && TypeOf(f, e).Pointer? && ParameterIndex(f, e).Some?
    ensures Resolve(f, e) == From(ParameterIndex(f, e).value)
    decreases e
  {
    if e.Cast? {
      assert WellTyped(f, e.operand);
      if TypeOf(f, e.operand).Pointer? { DirectIsResolved(f, e.operand); }
    }
  }

  // ---------------------------------------------------------------------------------------------
  // Why the expression must be plain
  // ---------------------------------------------------------------------------------------------

  /** With one parameter that points to a record. */
  predicate OneRecord(f: Function) { f.params == [Pointer(Record)] }

  /** `(T *)p->handle`, where `handle` is an integer. */
  lemma IntegerMemberEscapes(f: Function) returns (e: Stmt)
    requires OneRecord(f)
    ensures WellTyped(f, e) && TypeOf(f, e).Pointer? && BorrowedParameter(f, e) == Some(0) && !StaysWith(f, e, 0)
  {
    e := Cast(Member(Parameter(0), true, Arithmetic), Pointer(Record));
    StaysWithExactly(f, e, 0);
  }

  /** `(T *)x + (long)p`, where `x` is an integer. */
  lemma AddedPointerEscapes(f: Function) returns (e: Stmt)
    requires OneRecord(f)
    ensures WellTyped(f, e) && TypeOf(f, e).Pointer? && BorrowedParameter(f, e) == Some(0) && !StaysWith(f, e, 0)
  {
    var left, right := Cast(Variable(0, Arithmetic), Pointer(Record)), Cast(Parameter(0), Arithmetic);
    e := Sum(left, right, Pointer(Record));
    assert Side(f, left) == Neutral && Side(f, right) == From(0);
    StaysWithExactly(f, e, 0);
  }

  /** `(c ? p->s : p->s).items`: an array inside a temporary copy. */
  lemma TemporaryMemberEscapes(f: Function) returns (e: Stmt)
    requires OneRecord(f)
    ensures WellTyped(f, e) && TypeOf(f, e).Pointer? && BorrowedParameter(f, e) == Some(0) && !StaysWith(f, e, 0)
  {
    var s := Member(Parameter(0), true, Record);
    var copy := Conditional(Zero, s, s);
    var items := Member(copy, false, Array(Arithmetic));
    e := Cast(items, Pointer(Arithmetic));
    assert Resolve(f, s) == From(0) && Resolve(f, items) == From(0);
    assert TypeOf(f, Parameter(0)) == Pointer(Record);
    assert WellTyped(f, s) && WellTyped(f, copy) && TypeOf(f, copy) == Record;
    assert WellTyped(f, items);
    StaysWithExactly(f, e, 0);
  }
}
