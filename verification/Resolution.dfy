/** Which expressions the resolver accepts: exactly those that are built in the ways it looks into and take
    their value from one parameter or null. */
module Resolution {
  import opened Syntax
  import opened Origins
  import opened Holdings

  /** A pointer that is no array under its casts, and not only null. */
  ghost predicate Addable(f: Function, e: Stmt) { TypeOf(f, Strip(e)).Pointer? && !OnlyNull(f, e) }

  /** The resolver looks into casts, conditionals, commas, sums, members that are no pointers, and addresses
      of members and elements; not into sums with an array or with null only, values that are read from
      memory, other variables, calls, or addresses of anything else. */
  ghost predicate Readable(f: Function, e: Stmt) {
    match e
    case Zero => true
    case Parameter(_) => true
    case Cast(x, _) => Readable(f, x)
    case Conditional(_, yes, no) => Readable(f, yes) && Readable(f, no)
    case Comma(_, right) => Readable(f, right)
    case Sum(left, right, _) =>
      if TypeOf(f, left).Pointer? then Readable(f, left) && Addable(f, left)
      else Readable(f, right) && Addable(f, right)
    case Member(base, _, ty) => !ty.Pointer? && Readable(f, base)
    case AddressOf(x) => (x.Member? || x.Subscript?) && Readable(f, x.base)
    case _ => false
  }

  lemma {:induction false} LastIsRead(f: Function, e: Stmt, i: nat)
    requires WellTyped(f, e) && Plain(f, e) && TypeOf(f, e).Pointer?
    ensures var l := LastOperand(e);
      && WellTyped(f, l) && Plain(f, l) && TypeOf(f, l).Pointer?
      && (ComesFrom(f, l, i) <==> ComesFrom(f, e, i)) && (Readable(f, l) <==> Readable(f, e))
    decreases e
  {
    if e.Cast? {
      assert WellTyped(f, e.operand) && Strip(e) == Strip(e.operand);
      if TypeOf(f, e.operand).Pointer? { LastIsRead(f, e.operand, i); }
    } else if e.Comma? {
      LastIsRead(f, e.right, i);
    }
  }

  lemma {:induction false} AcceptedExactly(f: Function, e: Stmt, i: nat)
    requires WellTyped(f, e) && Plain(f, e) && TypeOf(f, e).Pointer?
    ensures Accepts(f, e, i) <==> Readable(f, e) && ComesFrom(f, e, i)
    decreases e, 1
  {
    match e
    case Cast(x, _) =>
      assert Resolve(f, e) == Resolve(f, x);
      if TypeOf(f, x).Pointer? { AcceptedExactly(f, x, i); }
      else if TypeOf(f, x).Array? { PlaceExactly(f, x, i); }
      else { NullIsAccepted(f, x, i); }
    case Conditional(_, yes, no) =>
      AcceptedExactly(f, yes, i);
      AcceptedExactly(f, no, i);
    case Comma(_, right) =>
      LastIsRead(f, right, i);
      AcceptedExactly(f, LastOperand(right), i);
    case Sum(left, right, _) => SumExactly(f, e, i);
    case AddressOf(x) =>
      assert WellTyped(f, x) && Plain(f, x) && Strip(x) == x;
      if x.Subscript? || (x.Member? && x.arrow) { AcceptedExactly(f, x.base, i); }
      else if x.Member? { PlaceExactly(f, x.base, i); }
    case _ =>
  }

  lemma {:induction false} NullIsAccepted(f: Function, x: Stmt, i: nat)
    requires Strip(x).Zero?
    ensures Resolve(f, x) == Neutral && Readable(f, x)
  {
    if x.Cast? { NullIsAccepted(f, x.operand, i); }
  }

  function PointerSide(f: Function, e: Stmt): Stmt
    requires e.Sum?
  {
    if TypeOf(f, e.left).Pointer? then e.left else e.right
  }

  /** A sum is resolved like its pointer, if that is no array under its casts and comes from a parameter. */
  lemma SumResolves(f: Function, e: Stmt)
    requires WellTyped(f, e) && Plain(f, e) && TypeOf(f, e).Pointer? && e.Sum?
    ensures var pointer := PointerSide(f, e);
      Resolve(f, e) ==
        if TypeOf(f, Strip(pointer)).Pointer? && Resolve(f, pointer).From? then Resolve(f, pointer) else Rejected
  {
    var pointer := PointerSide(f, e);
    StripIsResolved(f, e.left);
    StripIsResolved(f, e.right);
    assert Strip(e) == e;
    if TypeOf(f, e.left).Pointer? {
      assert Side(f, e.right) == Neutral;
    } else {
      assert Side(f, e.left) == Neutral;
    }
  }

  lemma {:induction false} SumExactly(f: Function, e: Stmt, i: nat)
    requires WellTyped(f, e) && Plain(f, e) && TypeOf(f, e).Pointer? && e.Sum?
    ensures Accepts(f, e, i) <==> Readable(f, e) && ComesFrom(f, e, i)
    decreases e, 0
  {
    var pointer := PointerSide(f, e);
    SumResolves(f, e);
    forall j: nat ensures Accepts(f, pointer, j) <==> Readable(f, pointer) && ComesFrom(f, pointer, j) {
      AcceptedExactly(f, pointer, j);
    }
    assert Accepts(f, pointer, i) <==> Readable(f, pointer) && ComesFrom(f, pointer, i);
    if Resolve(f, pointer).From? {
      var j := Resolve(f, pointer).index;
      assert Accepts(f, pointer, j) && !Accepts(f, pointer, j + 1);
      assert !ComesFrom(f, pointer, j + 1);
    } else if Resolve(f, pointer).Neutral? {
      forall j: nat ensures ComesFrom(f, pointer, j) { assert Accepts(f, pointer, j); }
    }
  }

  lemma StripIsResolved(f: Function, e: Stmt)
    ensures Resolve(f, Strip(e)) == Resolve(f, e)
  {
  }

  lemma {:induction false} PlaceExactly(f: Function, e: Stmt, i: nat)
    requires WellTyped(f, e) && Plain(f, e) && (TypeOf(f, e).Array? || (TypeOf(f, e).Record? && Lvalue(e)))
    ensures Accepts(f, e, i) <==> Readable(f, e) && LiesIn(f, e, i)
    decreases e, 1
  {
    assert !e.Cast? && Strip(e) == e;
    if e.Member? {
      if e.arrow { AcceptedExactly(f, e.base, i); } else { PlaceExactly(f, e.base, i); }
    }
  }
}
