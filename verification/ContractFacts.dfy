/** Which maps of contracts a contract file can state: exactly those whose entries are well formed. */
module ContractFacts {
  import opened Options
  import opened ContractText
  import opened Effects
  import opened ContractFile

  // ---------------------------------------------------------------------------------------------
  // Well-formed contracts
  // ---------------------------------------------------------------------------------------------

  /** Parameter `i` has an effect, or is the out-owner parameter. */
  predicate Stated(c: Contract, i: nat) {
    i < |c.params| && (c.params[i].Some? || (c.outOwner.Some? && c.outOwner.value.param == i))
  }

  /** A stated result borrows exactly if it names its source; the list of parameters ends with one that
      is stated; an out-owner parameter has no other effect, and a polarity only if it needs one. */
  predicate WellFormed(fmt: Format, c: Contract) {
    && (c.result.Some? ==> (c.result.value == BorrowFromArg <==> c.borrowArg.Some?))
    && (c.borrowArg.Some? ==> c.borrowArg.value <= MAX_UNSIGNED)
    && |c.params| <= MAX_UNSIGNED
    && (c.params != [] ==> Stated(c, |c.params| - 1))
    && (c.outOwner.Some? ==>
          var o := c.outOwner.value;
          && fmt.allowOutOwner && o.param < |c.params| && c.params[o.param] == None
          && (!o.owner.writeOnSuccess ==> !o.owner.successNonzero))
  }

  /** Contracts are well formed, and names are what can follow a key on a line. */
  predicate Legal(fmt: Format, out: map<string, Contract>) {
    forall s :: s in out ==> Clean(s) && WellFormed(fmt, out[s])
  }

  // ---------------------------------------------------------------------------------------------
  // Every accepted file states well-formed contracts
  // ---------------------------------------------------------------------------------------------

  /** Index `i` of the entry: it was named if it carries an effect, and has an effect if it was given
      one; the last of the list was named. */
  predicate IndexFits(e: Entry, i: nat) {
    && (i in e.indices ==> i < |e.contract.params|)
    && (i in e.effects ==> i in e.indices)
    && (i in e.effects && !(e.block.owner.Some? && e.block.owner.value.param == i) ==>
      i < |e.contract.params| && e.contract.params[i].Some?)
    && (i < |e.contract.params| && e.contract.params[i].Some? ==> i in e.effects)
    && (i + 1 == |e.contract.params| ==> i in e.indices)
  }

  predicate OwnerFits(fmt: Format, e: Entry) {
    e.block.owner.Some? ==>
      var o := e.block.owner.value;
      && fmt.allowOutOwner && o.param in e.effects && o.param < |e.contract.params| &&
        e.contract.params[o.param] == None
      && (!e.block.success ==> !o.owner.successNonzero)
  }

  ghost predicate EntryFits(fmt: Format, e: Entry) {
    && Clean(e.symbol) && e.contract.outOwner == None && OwnerFits(fmt, e)
    && (e.contract.borrowArg.Some? ==> e.contract.borrowArg.value <= MAX_UNSIGNED)
    && |e.contract.params| <= MAX_UNSIGNED
    && (e.lastIndex.Some? ==> e.lastIndex.value in e.indices)
    && (forall i :: IndexFits(e, i))
  }

  ghost predicate Fits(fmt: Format, st: State) {
    Legal(fmt, st.out) && (st.entry.Some? ==> EntryFits(fmt, st.entry.value))
  }

  /** What follows a key has been trimmed and ends with its line. */
  predicate Proper(w: Words) { w.key.Some? ==> w.value == "" || Clean(w.value) }

  lemma {:induction false} SameSize(a: set<nat>, b: set<nat>)
    requires a <= b && |a| == |b|
    ensures a == b
  {
    if a != b {
      var x :| x in b && x !in a;
      Smaller(a, b - {x});
    }
  }

  lemma {:induction false} Smaller(a: set<nat>, b: set<nat>)
    requires a <= b
    ensures |a| <= |b|
  {
    if a != {} {
      var x :| x in a;
      Smaller(a - {x}, b - {x});
    }
  }

  lemma {:induction false} EffectsAreNamed(fmt: Format, e: Entry)
    requires EntryFits(fmt, e) && |e.indices| == |e.effects|
    ensures e.indices == e.effects
  {
    forall i | i in e.effects ensures i in e.indices { assert IndexFits(e, i); }
    SameSize(e.effects, e.indices);
  }

  lemma {:induction false} FinishedFits(fmt: Format, st: State)
    requires Fits(fmt, st) && Finish(st).Some?
    ensures Legal(fmt, Finish(st).value.out)
  {
    if st.entry.Some? {
      var e := st.entry.value;
      var c := if e.block.owner.Some? then e.contract.(outOwner := e.block.owner) else e.contract;
      EffectsAreNamed(fmt, e);
      if c.params != [] { assert IndexFits(e, |c.params| - 1); }
      assert WellFormed(fmt, c);
    }
  }

  lemma {:induction false} StartedFits(fmt: Format, st: State, symbol: string)
    requires Legal(fmt, st.out) && (symbol == "" || Clean(symbol)) && StartSymbol(st, symbol).Some?
    ensures Fits(fmt, StartSymbol(st, symbol).value)
  {
    var e := StartSymbol(st, symbol).value.entry.value;
    forall i: nat ensures IndexFits(e, i) {}
  }

  lemma {:induction false} NumbersAreSmall(v: string)
    requires ParseUnsigned(v).Some?
    ensures ParseUnsigned(v).value <= MAX_UNSIGNED
  {
  }

  lemma {:induction false} IndexLineFits(fmt: Format, e: Entry, indent: nat, v: string)
    requires EntryFits(fmt, e) && IndexLine(e, indent, v).Some?
    ensures EntryFits(fmt, IndexLine(e, indent, v).value)
  {
    var e' := IndexLine(e, indent, v).value;
    var n := ParseUnsigned(v).value;
    NumbersAreSmall(v);
    assert IndexFits(e, n);
    forall i: nat ensures IndexFits(e', i) { assert IndexFits(e, i); }
  }

  lemma {:induction false} EffectLineFits(fmt: Format, e: Entry, indent: nat, v: string)
    requires EntryFits(fmt, e) && EffectLine(fmt, e, indent, v).Some?
    ensures EntryFits(fmt, EffectLine(fmt, e, indent, v).value)
  {
    var e' := EffectLine(fmt, e, indent, v).value;
    assert IndexFits(e, e.lastIndex.value);
    forall i: nat ensures IndexFits(e', i) { assert IndexFits(e, i); }
  }

  /** Lines that change neither indices nor effects. */
  lemma {:induction false} OtherwiseFits(fmt: Format, e: Entry, e': Entry)
    requires EntryFits(fmt, e)
    requires e'.symbol == e.symbol && e'.indices == e.indices && e'.effects == e.effects && e'.lastIndex == e.lastIndex
    requires e'.contract.params == e.contract.params && e'.contract.outOwner == e.contract.outOwner
    requires e'.contract.borrowArg.Some? ==> e'.contract.borrowArg.value <= MAX_UNSIGNED
    requires e'.block.owner.Some? <==> e.block.owner.Some?
    requires e.block.owner.Some? ==> e'.block.owner.value.param == e.block.owner.value.param
    requires e.block.owner.Some? && !e'.block.success ==> !e'.block.owner.value.owner.successNonzero
    ensures EntryFits(fmt, e')
  {
    forall i: nat ensures IndexFits(e', i) { assert IndexFits(e, i); }
  }

  lemma {:induction false} OutputLineFits(fmt: Format, e: Entry, w: Words)
    requires EntryFits(fmt, e) && OutputLine(e.block, w).Some?
    ensures EntryFits(fmt, e.(block := OutputLine(e.block, w).value))
  {
    OutputLineOwner(e.block, w);
    OtherwiseFits(fmt, e, e.(block := OutputLine(e.block, w).value));
  }

  lemma {:induction false} OutputLineOwner(b: OutputBlock, w: Words)
    requires OutputLine(b, w).Some?
    ensures var b' := OutputLine(b, w).value;
      && (b'.owner.Some? <==> b.owner.Some?)
      && (b.owner.Some? ==> b'.owner.value.param == b.owner.value.param)
      && (b.owner.Some? && !b'.success ==>
        !b.success && b'.owner.value.owner.successNonzero == b.owner.value.owner.successNonzero)
  {
  }

  /** Lines that state no index and no effect, and end no symbol. */
  predicate PlainKey(k: Key) { !k.Symbol? && !k.Index? && !k.DashIndex? && !k.Effect? }

  lemma {:induction false} PlainLine(fmt: Format, st: State, indent: nat, w: Words)
    requires st.entry.Some? && SymbolLine(fmt, st, indent, w).Some? && w.key.Some? && PlainKey(w.key.value)
    ensures var st' := SymbolLine(fmt, st, indent, w).value;
      && st'.out == st.out && st'.entry.Some?
      && var e, e' := st.entry.value, st'.entry.value;
      && e'.symbol == e.symbol && e'.indices == e.indices && e'.effects == e.effects && e'.lastIndex == e.lastIndex
      && e'.contract.params == e.contract.params && e'.contract.outOwner == e.contract.outOwner
      && (e'.contract.borrowArg == e.contract.borrowArg || e'.contract.borrowArg == ParseUnsigned(w.value))
      && e'.block.owner == e.block.owner && e'.block.success == e.block.success
  {
    match w.key.value
    case Ownership =>
    case FromParam =>
    case KindKey =>
    case Notes =>
    case Nullable =>
    case _ =>
  }

  lemma {:induction false} PlainLineFits(fmt: Format, st: State, indent: nat, w: Words)
    requires Fits(fmt, st) && st.entry.Some? && SymbolLine(fmt, st, indent, w).Some? && w.key.Some? &&
      PlainKey(w.key.value)
    ensures Fits(fmt, SymbolLine(fmt, st, indent, w).value)
  {
    PlainLine(fmt, st, indent, w);
    if ParseUnsigned(w.value).Some? { NumbersAreSmall(w.value); }
    OtherwiseFits(fmt, st.entry.value, SymbolLine(fmt, st, indent, w).value.entry.value);
  }

  lemma {:induction false} SymbolLineFits(fmt: Format, st: State, indent: nat, w: Words)
    requires Fits(fmt, st) && st.entry.Some? && SymbolLine(fmt, st, indent, w).Some?
    requires Proper(w)
    ensures Fits(fmt, SymbolLine(fmt, st, indent, w).value)
  {
    var e, v := st.entry.value, w.value;
    match w.key
    case Some(Symbol) =>
      FinishedFits(fmt, st);
      StartedFits(fmt, Finish(st).value, v);
    case Some(Index) => IndexLineFits(fmt, e, indent, v);
    case Some(DashIndex) => IndexLineFits(fmt, e, indent, v);
    case Some(Effect) => EffectLineFits(fmt, e, indent, v);
    case _ => PlainLineFits(fmt, st, indent, w);
  }

  lemma {:induction false} HeaderLineFits(fmt: Format, st: State, indent: nat, w: Words)
    requires Fits(fmt, st) && st.entry.None? && HeaderLine(fmt, st, indent, w).Some?
    requires Proper(w)
    ensures Fits(fmt, HeaderLine(fmt, st, indent, w).value)
  {
    if w.key == Some(Symbol) { StartedFits(fmt, st, w.value); }
  }

  lemma {:induction false} BodyLineFits(fmt: Format, st: State, indent: nat, w: Words)
    requires Fits(fmt, st) && BodyLine(fmt, st, indent, w).Some?
    requires Proper(w)
    ensures Fits(fmt, BodyLine(fmt, st, indent, w).value)
  {
    if st.entry.None? { HeaderLineFits(fmt, st, indent, w); } else { SymbolLineFits(fmt, st, indent, w); }
  }

  lemma {:induction false} TextLineFits(fmt: Format, st: State, indent: nat, w: Words)
    requires Fits(fmt, st) && TextLine(fmt, st, indent, w).Some?
    requires Proper(w)
    ensures Fits(fmt, TextLine(fmt, st, indent, w).value)
  {
    if st.entry.None? {
      BodyLineFits(fmt, st, indent, w);
    } else {
      var e := st.entry.value;
      if e.block.awaited {
        OtherwiseFits(fmt, e, e.(block := e.block.(awaited := false, inside := true)));
      } else if e.block.inside && indent == 10 {
        OutputLineFits(fmt, e, w);
      } else if e.block.inside {
        OtherwiseFits(fmt, e, e.(block := e.block.(inside := false)));
        BodyLineFits(fmt, WithBlock(st, e.block.(inside := false)), indent, w);
      } else {
        BodyLineFits(fmt, st, indent, w);
      }
    }
  }

  lemma {:induction false} StepFits(fmt: Format, st: State, line: string)
    requires Fits(fmt, st) && OneLine(line) && Step(fmt, st, line).Some?
    ensures Fits(fmt, Step(fmt, st, line).value)
  {
    match Lex(line)
    case Text(indent, t) =>
      if KeyIn(t).Some? { ValuesAreClean(line); }
      if !(st.notes && indent >= 6) { TextLineFits(fmt, st.(notes := false), indent, Read(t)); }
    case _ =>
  }

  lemma {:induction false} StepsFit(fmt: Format, lines: seq<string>)
    requires FileLines(lines) && Steps(fmt, START, lines).Some?
    ensures Fits(fmt, Steps(fmt, START, lines).value)
  {
    if lines != [] {
      var n := |lines| - 1;
      StepsFit(fmt, lines[..n]);
      StepFits(fmt, Steps(fmt, START, lines[..n]).value, lines[n]);
    }
  }

  /** Whatever the file, if it is accepted then its contracts are well formed: one effect for every
      index named, a source for every borrowed result, and at most one out-owner, with a success
      polarity only if it writes on success. */
  lemma {:induction false} AcceptedIsLegal(fmt: Format, lines: seq<string>)
    requires FileLines(lines) && Parsed(fmt, lines).Some?
    ensures Legal(fmt, Parsed(fmt, lines).value)
  {
    StepsFit(fmt, lines);
    FinishedFits(fmt, Steps(fmt, START, lines).value);
  }
}
