/** What the parser knows of a symbol is what the symbol's lines say. */
module ContractBody {
  import opened Options
  import opened ContractText
  import opened Effects
  import opened OutOwners
  import opened ContractFile
  import opened ContractReading
  import opened ContractExact

  // ---------------------------------------------------------------------------------------------
  // One more line
  // ---------------------------------------------------------------------------------------------

  lemma HasNext(ls: seq<Logical>, l: Logical, k: Key, v: string)
    ensures Has(ls + [l], k) <==> Has(ls, k) || IsKey(l, k)
    ensures HasText(ls + [l], k, v) <==> HasText(ls, k, v) || (IsKey(l, k) && l.w.value == v)
  {
    var all := ls + [l];
    if Has(ls, k) {
      var j :| 0 <= j < |ls| && IsKey(ls[j], k);
      assert IsKey(all[j], k);
    }
    if HasText(ls, k, v) {
      var j :| 0 <= j < |ls| && IsKey(ls[j], k) && ls[j].w.value == v;
      assert IsKey(all[j], k) && all[j].w.value == v;
    }
    assert all[|ls|] == l;
  }

  lemma ProducesNext(ls: seq<Logical>, l: Logical)
    ensures Produces(ls + [l]) <==> Produces(ls) || IsProducing(l)
    ensures HasLegacy(ls + [l]) <==> HasLegacy(ls) || IsLegacy(l)
    ensures HasNullable(ls + [l]) <==> HasNullable(ls) || IsBlockNullable(l)
    ensures NeverNull(ls + [l]) <==> NeverNull(ls) || (IsBlockNullable(l) && l.w.value == "false")
  {
    var all := ls + [l];
    assert all[|ls|] == l && forall j :: 0 <= j < |ls| ==> all[j] == ls[j];
  }

  lemma IndexedNext(ls: seq<Logical>, l: Logical, i: nat)
    ensures Indexed(ls + [l], i) <==> Indexed(ls, i) || (IsIndex(l) && Number(l) == Some(i))
    ensures ReachesIndex(ls + [l], i) <==>
      ReachesIndex(ls, i) || (IsIndex(l) && Number(l).Some? && i <= Number(l).value)
  {
    var all := ls + [l];
    assert all[|ls|] == l && forall j :: 0 <= j < |ls| ==> all[j] == ls[j];
  }

  lemma LastNext(ls: seq<Logical>, l: Logical)
    ensures LastIndex(ls + [l]) == if IsIndex(l) then Some(|ls|) else LastIndex(ls)
  {
    assert (ls + [l])[..|ls + [l]| - 1] == ls;
  }

  /** The new line is the effect of index `i`. */
  predicate GivesEffect(ls: seq<Logical>, l: Logical, i: nat) {
    IsKey(l, Effect) && LastIndex(ls).Some? && Number(ls[LastIndex(ls).value]) == Some(i)
  }

  lemma EffectForNext(ls: seq<Logical>, l: Logical, k: nat, i: nat)
    ensures EffectFor(ls + [l], k, i) <==> EffectFor(ls, k, i) || (k == |ls| && GivesEffect(ls, l, i))
  {
    var all := ls + [l];
    if k < |ls| {
      assert all[..k] == ls[..k] && all[k] == ls[k];
    } else if k == |ls| {
      assert all[..k] == ls;
    }
  }

  lemma EffectedNext(ls: seq<Logical>, l: Logical, i: nat)
    ensures Effected(ls + [l], i) <==> Effected(ls, i) || GivesEffect(ls, l, i)
  {
    if k: nat :| EffectFor(ls + [l], k, i) { EffectForNext(ls, l, k, i); }
    if k: nat :| EffectFor(ls, k, i) { EffectForNext(ls, l, k, i); }
    EffectForNext(ls, l, |ls|, i);
  }

  lemma HasEffectNext(ls: seq<Logical>, l: Logical, i: nat, e: ParamEffect)
    ensures HasEffect(ls + [l], i, e) <==>
      HasEffect(ls, i, e) || (GivesEffect(ls, l, i) && !IsProducing(l) && SpellsEffect(l.w.value, e))
  {
    var all := ls + [l];
    if HasEffect(all, i, e) {
      var k: nat :| EffectFor(all, k, i) && !IsProducing(all[k]) && SpellsEffect(all[k].w.value, e);
      EffectForNext(ls, l, k, i);
      if k < |ls| { assert all[k] == ls[k]; }
    }
    if HasEffect(ls, i, e) {
      var k: nat :| EffectFor(ls, k, i) && !IsProducing(ls[k]) && SpellsEffect(ls[k].w.value, e);
      EffectForNext(ls, l, k, i);
      assert all[k] == ls[k];
    }
    EffectForNext(ls, l, |ls|, i);
    assert all[|ls|] == l;
  }

  // ---------------------------------------------------------------------------------------------
  // The vocabulary
  // ---------------------------------------------------------------------------------------------

  lemma ResultSpelled(v: string, r: ReturnEffect)
    ensures SpellsResult(v, r) <==> ResultOf(v) == Some(r)
  {
    assert "owned"[0] != "borrowed"[0] && "none"[0] != "unknown"[0];
    assert |"owned"| == 5 && |"borrowed"| == 8 && |"none"| == 4 && |"unknown"| == 7;
  }

  lemma EffectSpelled(v: string, e: ParamEffect)
    ensures SpellsEffect(v, e) <==> EffectOf(v) == Some(e)
    ensures SpellsEffect(v, e) ==> v != PRODUCES
  {
    assert "consumes"[0] != "destroys"[0];
    assert |"borrow"| == 6 && |"borrow_shared"| == 13 && |"consumes"| == 8 && |"destroys"| == 8 && |"unknown"| == 7;
    assert |"no_ownership_effect"| == 19 && |PRODUCES| == 18;
  }

  // ---------------------------------------------------------------------------------------------
  // What the entry knows
  // ---------------------------------------------------------------------------------------------

  ghost predicate KnowsResult(ls: seq<Logical>, e: Entry) {
    && (e.kind <==> Has(ls, KindKey)) && SaysResult(ls, e.contract.result) && SaysSource(ls, e.contract.borrowArg)
    && e.contract.outOwner == None
  }

  ghost predicate KnowsIndices(ls: seq<Logical>, e: Entry) {
    && (forall i :: i in e.indices <==> 0 <= i && Indexed(ls, i))
    && (forall i :: i in e.effects <==> 0 <= i && Effected(ls, i))
    && (e.lastIndex.Some? <==> LastIndex(ls).Some?)
    && (e.lastIndex.Some? ==> Number(ls[LastIndex(ls).value]) == e.lastIndex)
  }

  ghost predicate KnowsBlock(ls: seq<Logical>, e: Entry) {
    var b := e.block;
    && (b.awaited <==> Awaits(ls)) && (b.inside <==> InBlock(ls))
    && (b.write <==> Has(ls, Write)) && (b.success <==> Has(ls, Success))
    && (b.nullable <==> HasNullable(ls)) && (b.legacy <==> HasLegacy(ls))
  }

  /** Numbers occur once. */
  ghost predicate Tidy(ls: seq<Logical>) {
    forall i, j ::
      0 <= i < |ls| && 0 <= j < |ls| && IsIndex(ls[i]) && IsIndex(ls[j]) && Number(ls[i]) == Number(ls[j]) ==>
      i == j
  }

  lemma ResultKnown(fmt: Format, ls: seq<Logical>, e: Entry, l: Logical, e': Entry)
    requires KnowsResult(ls, e) && ResultChanges(e, l, e')
    requires IsKey(l, Ownership) ==> ResultOf(l.w.value).Some? && !Has(ls, Ownership)
    requires IsKey(l, FromParam) ==> Number(l).Some? && !Has(ls, FromParam)
    ensures KnowsResult(ls + [l], e')
  {
    var all := ls + [l];
    HasNext(ls, l, KindKey, "");
    HasNext(ls, l, Ownership, "");
    HasNext(ls, l, FromParam, "");
    assert all[|ls|] == l && forall j :: 0 <= j < |ls| ==> all[j] == ls[j];
    if IsKey(l, Ownership) {
      ResultSpelled(l.w.value, e'.contract.result.value);
      forall j | 0 <= j < |all| && IsKey(all[j], Ownership) ensures j == |ls| { }
    }
    if IsKey(l, FromParam) {
      forall j | 0 <= j < |all| && IsKey(all[j], FromParam) ensures j == |ls| { }
    }
  }

  lemma IndicesKnown(ls: seq<Logical>, e: Entry, l: Logical, e': Entry)
    requires KnowsIndices(ls, e) && TableChanges(e, l, e')
    ensures KnowsIndices(ls + [l], e')
  {
    var all := ls + [l];
    LastNext(ls, l);
    assert all[|ls|] == l && forall j :: 0 <= j < |ls| ==> all[j] == ls[j];
    forall i: nat ensures i in e'.indices <==> Indexed(all, i) { IndexedNext(ls, l, i); }
    forall i: nat ensures i in e'.effects <==> Effected(all, i) { EffectedNext(ls, l, i); }
  }

  lemma BlockKnown(ls: seq<Logical>, e: Entry, l: Logical, e': Entry)
    requires KnowsBlock(ls, e) && BlockChanges(e, l, e')
    ensures KnowsBlock(ls + [l], e')
  {
    HasNext(ls, l, Write, "");
    HasNext(ls, l, Success, "");
    ProducesNext(ls, l);
    assert (ls + [l])[|ls + [l]| - 1] == l;
  }

  lemma TableKnown(ls: seq<Logical>, e: Entry, l: Logical, e': Entry)
    requires KnowsIndices(ls, e) && SaysParams(ls, e.contract.params) && TableChanges(e, l, e')
    requires IsIndex(l) ==> !Indexed(ls, Number(l).value)
    requires IsKey(l, Effect) ==> Lacks(ls) && Tidy(ls)
    ensures SaysParams(ls + [l], e'.contract.params)
  {
    var all, params, params' := ls + [l], e.contract.params, e'.contract.params;
    forall i: nat ensures i < |params'| <==> ReachesIndex(all, i) {
      IndexedNext(ls, l, i);
      assert i < |params| <==> ReachesIndex(ls, i);
    }
    forall i: nat, x | i < |params'| ensures params'[i] == Some(x) <==> HasEffect(all, i, x) {
      HasEffectNext(ls, l, i, x);
      EffectSpelled(l.w.value, x);
      if i < |params| {
        assert params[i] == Some(x) <==> HasEffect(ls, i, x);
      } else {
        UnreachedHasNoEffect(ls, i, x);
      }
      if IsKey(l, Effect) && i == Target(e) { LackingHasNoEffect(ls, i, x); }
      if IsIndex(l) && i == Number(l).value { UnindexedHasNoEffect(ls, i, x); }
    }
  }

  lemma EffectIsIndexed(ls: seq<Logical>, k: nat, i: nat)
    requires EffectFor(ls, k, i)
    ensures Indexed(ls, i) && ReachesIndex(ls, i)
  {
    var j := LastIndex(ls[..k]).value;
    assert ls[..k][j] == ls[j] && IsIndex(ls[j]);
  }

  lemma UnindexedHasNoEffect(ls: seq<Logical>, i: nat, x: ParamEffect)
    requires !Indexed(ls, i)
    ensures !HasEffect(ls, i, x) && !Effected(ls, i)
  {
    forall k: nat ensures !EffectFor(ls, k, i) { if EffectFor(ls, k, i) { EffectIsIndexed(ls, k, i); } }
  }

  lemma UnreachedHasNoEffect(ls: seq<Logical>, i: nat, x: ParamEffect)
    requires !ReachesIndex(ls, i)
    ensures !HasEffect(ls, i, x)
  {
    forall k: nat ensures !EffectFor(ls, k, i) { if EffectFor(ls, k, i) { EffectIsIndexed(ls, k, i); } }
  }

  /** An effect of the last index comes after it. */
  lemma EffectIsAfter(ls: seq<Logical>, k: nat, i: nat)
    requires EffectFor(ls, k, i) && Tidy(ls) && LastIndex(ls).Some? && Number(ls[LastIndex(ls).value]) == Some(i)
    ensures LastIndex(ls).value < k
  {
    var last, j := LastIndex(ls).value, LastIndex(ls[..k]).value;
    assert ls[..k][j] == ls[j] && IsIndex(ls[j]);
    assert j == last;
  }

  /** The last index has no effect yet, under whatever number. */
  lemma LackingHasNoEffect(ls: seq<Logical>, i: nat, x: ParamEffect)
    requires Lacks(ls) && Tidy(ls) && Number(ls[LastIndex(ls).value]) == Some(i)
    ensures !HasEffect(ls, i, x) && !Effected(ls, i)
  {
    forall k: nat ensures !EffectFor(ls, k, i) { if EffectFor(ls, k, i) { EffectIsAfter(ls, k, i); } }
  }

  lemma LacksExactly(ls: seq<Logical>, i: nat)
    requires Tidy(ls) && LastIndex(ls).Some? && Number(ls[LastIndex(ls).value]) == Some(i)
    ensures Lacks(ls) <==> !Effected(ls, i)
  {
    if Lacks(ls) {
      LackingHasNoEffect(ls, i, NoEffect);
    } else {
      var last := LastIndex(ls).value;
      var k :| last < k < |ls| && IsKey(ls[k], Effect);
      LastOfPrefix(ls, k);
      assert EffectFor(ls, k, i);
    }
  }

  lemma LastOfPrefix(ls: seq<Logical>, k: nat)
    requires LastIndex(ls).Some? && LastIndex(ls).value < k <= |ls|
    ensures LastIndex(ls[..k]) == LastIndex(ls)
  {
    var last := LastIndex(ls).value;
    assert ls[..k][last] == ls[last];
    var r := LastIndex(ls[..k]);
    assert ls[..k][r.value] == ls[r.value];
  }

  // ---------------------------------------------------------------------------------------------
  // The out-owner
  // ---------------------------------------------------------------------------------------------

  /** There is no block without an effect that announces it. */
  predicate BlockOwned(ls: seq<Logical>) {
    !Produces(ls) ==> !InBlock(ls) && !Has(ls, Write) && !Has(ls, Success) && !HasNullable(ls)
  }

  /** Lines of a block say something new. */
  predicate BlockNews(ls: seq<Logical>, l: Logical) {
    && (IsKey(l, Write) ==> !Has(ls, Write)) && (IsKey(l, Success) ==> !Has(ls, Success))
    && (IsBlockNullable(l) ==> !HasNullable(ls) && l.w.value in {"true", "false"})
    && (IsKey(l, Write) || IsKey(l, Success) || IsBlockNullable(l) || IsKey(l, Output) || l.indent == 10 ==>
          Produces(ls))
    && (IsProducing(l) ==> !Produces(ls) && LastIndex(ls).Some?)
  }

  lemma HadText(ls: seq<Logical>, k: Key, v: string)
    requires !Has(ls, k)
    ensures !HasText(ls, k, v)
  {
  }

  lemma SaidOwnerNext(ls: seq<Logical>, l: Logical)
    requires BlockOwned(ls) && BlockNews(ls, l)
    ensures Produces(ls) ==> SaidOwner(ls + [l]) == OwnerAfter(SaidOwner(ls), l)
    ensures !Produces(ls) ==> SaidOwner(ls + [l]) == OutOwner(false, false, true)
  {
    HasNext(ls, l, Write, "on_success");
    HasNext(ls, l, Success, "nonzero");
    ProducesNext(ls, l);
    if !Has(ls, Write) { HadText(ls, Write, "on_success"); }
    if !Has(ls, Success) { HadText(ls, Success, "nonzero"); }
    if !HasNullable(ls) { assert !NeverNull(ls); }
    assert "true"[0] != "false"[0];
  }

  lemma OwnerKnown(ls: seq<Logical>, e: Entry, l: Logical, e': Entry)
    requires SaysOwner(ls, e.block.owner) && KnowsIndices(ls, e) && OwnerChanges(e, l, e')
    requires BlockOwned(ls) && BlockNews(ls, l)
    ensures SaysOwner(ls + [l], e'.block.owner) && BlockOwned(ls + [l])
  {
    var all := ls + [l];
    ProducesNext(ls, l);
    SaidOwnerNext(ls, l);
    HasNext(ls, l, Write, "");
    HasNext(ls, l, Success, "");
    assert all[|ls|] == l && forall j :: 0 <= j < |ls| ==> all[j] == ls[j];
    forall k: nat | k < |all| && IsProducing(all[k])
      ensures e'.block.owner.Some? && EffectFor(all, k, e'.block.owner.value.param) &&
        e'.block.owner.value.owner == SaidOwner(all)
    {
      EffectForNext(ls, l, k, e'.block.owner.value.param);
      if k < |ls| { assert IsProducing(ls[k]); }
    }
  }

  // ---------------------------------------------------------------------------------------------
  // All of it
  // ---------------------------------------------------------------------------------------------

  ghost predicate Knows(ls: seq<Logical>, e: Entry) {
    && KnowsResult(ls, e) && KnowsIndices(ls, e) && KnowsBlock(ls, e) && SaysParams(ls, e.contract.params)
    && SaysOwner(ls, e.block.owner) && Tidy(ls) && BlockOwned(ls) && !(Awaits(ls) && InBlock(ls))
  }

  /** What the parser takes for a finished block is one. */
  lemma DoneExactly(ls: seq<Logical>, e: Entry)
    requires Knows(ls, e) && Produces(ls)
    ensures BlockComplete(e.block) <==> BlockDone(ls)
  {
    var k :| 0 <= k < |ls| && IsProducing(ls[k]);
  }

  lemma BlockLineExactly(ls: seq<Logical>, e: Entry, l: Logical)
    requires Knows(ls, e) && l.indent == 10
    ensures TakeBlock(e, l).Some? <==> BlockLineFits(ls, l)
  {
  }

  lemma IndexExactly(fmt: Format, ls: seq<Logical>, e: Entry, l: Logical)
    requires Knows(ls, e) && IsIndex(l)
    ensures TakePlain(fmt, e, l).Some? <==> IndexFits(ls, l)
  {
    IndexIs(fmt, e, l);
  }

  /** There is room for the effect of the last index. */
  lemma LastIsReached(ls: seq<Logical>, e: Entry)
    requires Knows(ls, e) && e.lastIndex.Some?
    ensures e.lastIndex.value < |e.contract.params|
    ensures e.lastIndex.value in e.effects <==> !Lacks(ls)
  {
    var j, i := LastIndex(ls).value, e.lastIndex.value;
    assert IsIndex(ls[j]) && Number(ls[j]) == Some(i);
    assert ReachesIndex(ls, i);
    LacksExactly(ls, i);
  }

  lemma EffectExactly(fmt: Format, ls: seq<Logical>, e: Entry, l: Logical)
    requires Knows(ls, e) && IsKey(l, Effect)
    ensures TakePlain(fmt, e, l).Some? <==> FactLineFits(fmt, ls, l)
  {
    EffectIs(fmt, e, l);
    if e.lastIndex.Some? { LastIsReached(ls, e); }
    forall x ensures SpellsEffect(l.w.value, x) <==> EffectOf(l.w.value) == Some(x) { EffectSpelled(l.w.value, x); }
    if EffectOf(l.w.value).Some? { assert SpellsEffect(l.w.value, EffectOf(l.w.value).value); }
  }

  lemma SpelledExactly(v: string)
    ensures (exists r :: SpellsResult(v, r)) <==> ResultOf(v).Some?
  {
    if r :| SpellsResult(v, r) { ResultSpelled(v, r); }
    if ResultOf(v).Some? { ResultSpelled(v, ResultOf(v).value); }
  }

  lemma ResultExactly(fmt: Format, ls: seq<Logical>, e: Entry, l: Logical)
    requires Knows(ls, e) && (IsKey(l, Ownership) || IsKey(l, FromParam))
    ensures TakePlain(fmt, e, l).Some? <==> FactLineFits(fmt, ls, l)
  {
    ResultIs(fmt, e, l);
    SpelledExactly(l.w.value);
  }

  lemma OtherExactly(fmt: Format, ls: seq<Logical>, e: Entry, l: Logical)
    requires Knows(ls, e) && !Named(l) && !IsKey(l, Symbol)
    ensures TakePlain(fmt, e, l).Some? <==> FactLineFits(fmt, ls, l)
  {
  }

  lemma PlainExactly(fmt: Format, ls: seq<Logical>, e: Entry, l: Logical)
    requires Knows(ls, e) && !IsKey(l, Symbol)
    ensures TakePlain(fmt, e, l).Some? <==> FactLineFits(fmt, ls, l)
  {
    if IsIndex(l) { IndexExactly(fmt, ls, e, l); }
    else if IsKey(l, Effect) { EffectExactly(fmt, ls, e, l); }
    else if Named(l) { ResultExactly(fmt, ls, e, l); }
    else { OtherExactly(fmt, ls, e, l); }
  }

  /** A line can follow exactly if the parser takes it. */
  lemma TakenExactly(fmt: Format, ls: seq<Logical>, e: Entry, l: Logical)
    requires Knows(ls, e) && !IsKey(l, Symbol)
    ensures TakeFact(fmt, e, l).Some? <==> NextFits(fmt, ls, l)
  {
    TakeFactIs(fmt, e, l);
    if e.block.awaited {
    } else if e.block.inside && l.indent == 10 {
      BlockLineExactly(ls, e, l);
    } else {
      if e.block.inside { DoneExactly(ls, e); }
      ClosedExactly(fmt, ls, e, l);
    }
  }

  /** Closing a block changes nothing that other lines look at. */
  lemma ClosedExactly(fmt: Format, ls: seq<Logical>, e: Entry, l: Logical)
    requires Knows(ls, e) && !IsKey(l, Symbol)
    ensures TakePlain(fmt, Closing(e), l).Some? <==> FactLineFits(fmt, ls, l)
  {
    PlainExactly(fmt, ls, e, l);
    ClosingDoesNotMatter(fmt, e, l);
  }

  lemma ClosingDoesNotMatter(fmt: Format, e: Entry, l: Logical)
    requires !IsKey(l, Symbol)
    ensures TakePlain(fmt, Closing(e), l).Some? <==> TakePlain(fmt, e, l).Some?
  {
  }

  lemma TidyNext(ls: seq<Logical>, l: Logical)
    requires Tidy(ls) && (IsIndex(l) ==> Number(l).Some? && !Indexed(ls, Number(l).value))
    ensures Tidy(ls + [l])
  {
    var all := ls + [l];
    assert all[|ls|] == l && forall j :: 0 <= j < |ls| ==> all[j] == ls[j];
  }

  /** What fits says something new. */
  lemma FittingIsNews(fmt: Format, ls: seq<Logical>, e: Entry, l: Logical)
    requires Knows(ls, e) && NextFits(fmt, ls, l)
    ensures BlockNews(ls, l)
    ensures IsIndex(l) ==> Number(l).Some? && !Indexed(ls, Number(l).value)
    ensures IsKey(l, Ownership) ==> !Has(ls, Ownership) && ResultOf(l.w.value).Some?
    ensures IsKey(l, FromParam) ==> !Has(ls, FromParam) && Number(l).Some?
    ensures IsKey(l, Effect) ==> Lacks(ls) && l.indent == 8
  {
    if IsKey(l, Ownership) {
      var r :| SpellsResult(l.w.value, r);
      ResultSpelled(l.w.value, r);
    }
    if Awaits(ls) { assert IsProducing(ls[|ls| - 1]); }
  }

  lemma KnowsNext(fmt: Format, ls: seq<Logical>, e: Entry, l: Logical)
    requires Knows(ls, e) && !IsKey(l, Symbol) && TakeFact(fmt, e, l).Some?
    ensures Knows(ls + [l], TakeFact(fmt, e, l).value)
  {
    var e' := TakeFact(fmt, e, l).value;
    TakenExactly(fmt, ls, e, l);
    FittingIsNews(fmt, ls, e, l);
    Taken(fmt, e, l);
    assert (ls + [l])[|ls + [l]| - 1] == l;
    ResultKnown(fmt, ls, e, l, e');
    IndicesKnown(ls, e, l, e');
    BlockKnown(ls, e, l, e');
    TableKnown(ls, e, l, e');
    OwnerKnown(ls, e, l, e');
    TidyNext(ls, l);
  }

  /** Before its first line nothing is known of a symbol. */
  lemma NothingKnown(symbol: string)
    ensures Knows([], Entry(symbol, NO_FACTS, {}, {}, None, false, NO_BLOCK))
  {
  }

  // ---------------------------------------------------------------------------------------------
  // The end of a symbol
  // ---------------------------------------------------------------------------------------------

  lemma IndicesAreNumbers(ls: seq<Logical>, e: Entry)
    requires Knows(ls, e)
    ensures e.effects <= e.indices
  {
    forall i | i in e.effects ensures i in e.indices {
      var k: nat :| EffectFor(ls, k, i);
      EffectIsIndexed(ls, k, i);
    }
  }

  /** The sizes agree exactly if every index has its effect. */
  lemma SizesAgree(a: set<nat>, b: set<nat>)
    requires a <= b
    ensures |a| == |b| <==> b <= a
  {
    if |a| == |b| { SameSize(a, b); }
    if b <= a { assert a == b; }
  }

  lemma {:induction false} SameSize(a: set<nat>, b: set<nat>)
    requires a <= b && |a| == |b|
    ensures a == b
  {
    if a != {} {
      var x :| x in a;
      SameSize(a - {x}, b - {x});
      assert a == (a - {x}) + {x} && b == (b - {x}) + {x};
    }
  }

  lemma BorrowedExactly(ls: seq<Logical>, e: Entry)
    requires Knows(ls, e) && Has(ls, Ownership)
    ensures e.contract.result.Some?
    ensures e.contract.result.value == BorrowFromArg <==> HasText(ls, Ownership, "borrowed")
  {
    var j :| 0 <= j < |ls| && IsKey(ls[j], Ownership);
    ResultSpelled(ls[j].w.value, e.contract.result.value);
    ResultSpelled("borrowed", BorrowFromArg);
    if HasText(ls, Ownership, "borrowed") {
      var k :| 0 <= k < |ls| && IsKey(ls[k], Ownership) && ls[k].w.value == "borrowed";
      ResultSpelled("borrowed", e.contract.result.value);
    }
  }

  lemma CompleteExactly(ls: seq<Logical>, e: Entry)
    requires Knows(ls, e)
    ensures CanFinish(e) <==> Complete(ls)
  {
    IndicesAreNumbers(ls, e);
    SizesAgree(e.effects, e.indices);
    assert e.indices <= e.effects <==> forall i :: Indexed(ls, i) ==> Effected(ls, i) by {
      forall i: nat ensures i in e.indices <==> Indexed(ls, i) { }
      forall i: nat ensures i in e.effects <==> Effected(ls, i) { }
    }
    if Has(ls, Ownership) { BorrowedExactly(ls, e); }
    if Produces(ls) { DoneExactly(ls, e); }
  }

  function Entered(e: Entry): Contract {
    if e.block.owner.Some? then e.contract.(outOwner := e.block.owner) else e.contract
  }

  /** The contract that is entered is the one that the lines state. */
  lemma EnteredIsSaid(ls: seq<Logical>, e: Entry)
    requires Knows(ls, e)
    ensures Says(ls, Entered(e))
  {
  }
}
