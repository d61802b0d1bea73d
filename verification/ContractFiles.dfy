/** Whole contract files: accepted exactly if every line fits and nothing is missing, and read exactly as
    they say. */
module ContractFiles {
  import opened Options
  import opened ContractText
  import opened Effects
  import opened ContractFile
  import opened ContractReading
  import opened ContractExact
  import opened ContractBody

  // ---------------------------------------------------------------------------------------------
  // One more line
  // ---------------------------------------------------------------------------------------------

  lemma {:induction false} EarlierLines(ls: seq<Logical>, l: Logical, n: nat)
    requires n <= |ls|
    ensures SymbolBefore(ls + [l], n) == SymbolBefore(ls, n) && BodyBefore(ls + [l], n) == BodyBefore(ls, n)
  {
    if n > 0 {
      assert (ls + [l])[n - 1] == ls[n - 1];
      EarlierLines(ls, l, n - 1);
    }
  }

  function Current(ls: seq<Logical>): Option<string> { SymbolBefore(ls, |ls|) }

  function Body(ls: seq<Logical>): seq<Logical> { BodyBefore(ls, |ls|) }

  lemma CurrentNext(ls: seq<Logical>, l: Logical)
    ensures Current(ls + [l]) == if IsKey(l, Symbol) then Some(l.w.value) else Current(ls)
    ensures Body(ls + [l]) == if IsKey(l, Symbol) then [] else Body(ls) + [l]
  {
    assert (ls + [l])[|ls|] == l;
    EarlierLines(ls, l, |ls|);
  }

  lemma PlatformNext(ls: seq<Logical>, l: Logical)
    ensures PlatformOpen(ls + [l]) <==> IsKey(l, Platform) || (!IsKey(l, Symbols) && PlatformOpen(ls))
  {
    assert (ls + [l])[|ls|] == l && (ls + [l])[..|ls|] == ls;
  }

  ghost predicate Fits(fmt: Format, ls: seq<Logical>) { forall n :: 0 <= n < |ls| ==> LineFits(fmt, ls, n) }

  /** The new line fits. */
  ghost predicate Follows(fmt: Format, ls: seq<Logical>, l: Logical) {
    if Current(ls).None? then
      if IsKey(l, Symbol) then HeaderDone(ls) && SymbolLineFits(ls, l) else HeaderLineFits(fmt, ls, l)
    else if IsKey(l, Symbol) then Complete(Body(ls)) && SymbolLineFits(ls, l)
    else NextFits(fmt, Body(ls), l)
  }

  lemma FitsNext(fmt: Format, ls: seq<Logical>, l: Logical)
    ensures Fits(fmt, ls + [l]) <==> Fits(fmt, ls) && Follows(fmt, ls, l)
  {
    var all := ls + [l];
    forall n | 0 <= n < |ls| ensures LineFits(fmt, all, n) <==> LineFits(fmt, ls, n) {
      EarlierLines(ls, l, n);
      assert all[n] == ls[n] && all[..n] == ls[..n];
    }
    EarlierLines(ls, l, |ls|);
    assert all[|ls|] == l && all[..|ls|] == ls;
    assert LineFits(fmt, all, |ls|) <==> Follows(fmt, ls, l);
  }

  // ---------------------------------------------------------------------------------------------
  // What the parser knows of a file
  // ---------------------------------------------------------------------------------------------

  predicate KnowsHeader(ls: seq<Logical>, st: State) {
    && (st.header.schema <==> Has(ls, Schema)) && (st.header.name <==> Has(ls, NameKey))
    && (st.header.version <==> Has(ls, Version)) && (st.header.symbols <==> Has(ls, Symbols))
    && (st.header.platform <==> PlatformOpen(ls))
  }

  /** The symbols that have been read, but for the current one, have the contracts that their lines state. */
  ghost predicate KnowsOut(ls: seq<Logical>, out: map<string, Contract>) {
    && (forall s :: s in out <==> HasText(ls, Symbol, s) && Current(ls) != Some(s))
    && forall n: nat :: n < |ls| && EndsSymbol(ls, n) ==>
         SymbolBefore(ls, n).value in out && Says(BodyBefore(ls, n), out[SymbolBefore(ls, n).value])
  }

  ghost predicate KnowsFile(ls: seq<Logical>, st: State) {
    && (forall s :: s in st.seen <==> HasText(ls, Symbol, s)) && KnowsOut(ls, st.out)
    && (if Current(ls).None? then st.entry.None? && KnowsHeader(ls, st) && !Has(ls, Symbol)
        else
          && st.entry.Some? && st.entry.value.symbol == Current(ls).value && Knows(Body(ls), st.entry.value)
          && HasText(ls, Symbol, Current(ls).value) && HeaderDone(ls)
          && st.header.schema && st.header.name && st.header.version && st.header.symbols)
  }

  lemma HeaderHas(ls: seq<Logical>, l: Logical)
    ensures Has(ls + [l], Schema) <==> Has(ls, Schema) || IsKey(l, Schema)
    ensures Has(ls + [l], NameKey) <==> Has(ls, NameKey) || IsKey(l, NameKey)
    ensures Has(ls + [l], Version) <==> Has(ls, Version) || IsKey(l, Version)
    ensures Has(ls + [l], Symbols) <==> Has(ls, Symbols) || IsKey(l, Symbols)
    ensures Has(ls + [l], Symbol) <==> Has(ls, Symbol) || IsKey(l, Symbol)
  {
    HasNext(ls, l, Schema, "");
    HasNext(ls, l, NameKey, "");
    HasNext(ls, l, Version, "");
    HasNext(ls, l, Symbols, "");
    HasNext(ls, l, Symbol, "");
  }

  // ---------------------------------------------------------------------------------------------
  // Lines of the header
  // ---------------------------------------------------------------------------------------------

  lemma HeaderIs(fmt: Format, st: State, l: Logical)
    requires st.entry.None?
    ensures Take(fmt, st, l) == HeaderLine(fmt, Quiet(st), l.indent, l.w)
  {
  }

  lemma HeaderExactly(fmt: Format, ls: seq<Logical>, st: State, l: Logical)
    requires KnowsFile(ls, st) && Current(ls).None? && !IsKey(l, Symbol)
    ensures Take(fmt, st, l).Some? <==> HeaderLineFits(fmt, ls, l)
  {
    HeaderIs(fmt, st, l);
  }

  lemma HeaderTaken(fmt: Format, ls: seq<Logical>, st: State, l: Logical)
    requires KnowsFile(ls, st) && Current(ls).None? && !IsKey(l, Symbol) && Take(fmt, st, l).Some?
    ensures var st' := Take(fmt, st, l).value;
      st'.out == st.out && st'.seen == st.seen && st'.entry == None && KnowsHeader(ls + [l], st')
  {
    HeaderIs(fmt, st, l);
    HeaderHas(ls, l);
    PlatformNext(ls, l);
  }

  lemma NoSymbolEnds(ls: seq<Logical>, l: Logical, n: nat)
    requires !IsKey(l, Symbol) && n <= |ls|
    ensures n < |ls| && EndsSymbol(ls, n) <==> EndsSymbol(ls + [l], n)
  {
    EarlierLines(ls, l, n);
    if n < |ls| { assert (ls + [l])[n] == ls[n]; } else { assert (ls + [l])[n] == l; }
  }

  lemma OutStays(ls: seq<Logical>, l: Logical, out: map<string, Contract>)
    requires KnowsOut(ls, out) && !IsKey(l, Symbol)
    ensures KnowsOut(ls + [l], out)
  {
    var all := ls + [l];
    CurrentNext(ls, l);
    forall s ensures s in out <==> HasText(all, Symbol, s) && Current(all) != Some(s) { HasNext(ls, l, Symbol, s); }
    forall n: nat | n < |all| && EndsSymbol(all, n)
      ensures SymbolBefore(all, n).value in out && Says(BodyBefore(all, n), out[SymbolBefore(all, n).value])
    {
      NoSymbolEnds(ls, l, n);
      EarlierLines(ls, l, n);
    }
  }

  lemma HeaderKnown(fmt: Format, ls: seq<Logical>, st: State, l: Logical)
    requires KnowsFile(ls, st) && Current(ls).None? && !IsKey(l, Symbol) && Take(fmt, st, l).Some?
    ensures KnowsFile(ls + [l], Take(fmt, st, l).value)
  {
    HeaderTaken(fmt, ls, st, l);
    CurrentNext(ls, l);
    OutStays(ls, l, st.out);
    HeaderHas(ls, l);
    forall s ensures HasText(ls + [l], Symbol, s) <==> HasText(ls, Symbol, s) { HasNext(ls, l, Symbol, s); }
  }

  // ---------------------------------------------------------------------------------------------
  // Lines of a symbol
  // ---------------------------------------------------------------------------------------------

  lemma FactExactly(fmt: Format, ls: seq<Logical>, st: State, l: Logical)
    requires KnowsFile(ls, st) && Current(ls).Some? && !IsKey(l, Symbol)
    ensures Take(fmt, st, l).Some? <==> NextFits(fmt, Body(ls), l)
    ensures Take(fmt, st, l).Some? ==> TakeFact(fmt, st.entry.value, l).Some?
    ensures Take(fmt, st, l).Some? ==>
      Quiet(Take(fmt, st, l).value) == Quiet(st).(entry := TakeFact(fmt, st.entry.value, l))
  {
    TakeIsTakeFact(fmt, st, l);
    ContractBody.TakenExactly(fmt, Body(ls), st.entry.value, l);
  }

  lemma FactKnown(fmt: Format, ls: seq<Logical>, st: State, l: Logical, st': State)
    requires KnowsFile(ls, st) && Current(ls).Some? && !IsKey(l, Symbol) && TakeFact(fmt, st.entry.value, l).Some?
    requires Quiet(st') == Quiet(st).(entry := TakeFact(fmt, st.entry.value, l))
    ensures KnowsFile(ls + [l], st')
  {
    var e := st.entry.value;
    KnowsNext(fmt, Body(ls), e, l);
    Taken(fmt, e, l);
    CurrentNext(ls, l);
    OutStays(ls, l, st.out);
    HeaderHas(ls, l);
    forall s ensures HasText(ls + [l], Symbol, s) <==> HasText(ls, Symbol, s) { HasNext(ls, l, Symbol, s); }
  }

  // ---------------------------------------------------------------------------------------------
  // The first line of a symbol
  // ---------------------------------------------------------------------------------------------

  function Started(seen: set<string>, out: map<string, Contract>, h: Header, symbol: string): State {
    State(out, seen + {symbol}, h, false, Some(Entry(symbol, NO_FACTS, {}, {}, None, false, NO_BLOCK)))
  }

  lemma FirstSymbolIs(fmt: Format, st: State, l: Logical)
    requires st.entry.None? && IsKey(l, Symbol)
    ensures Take(fmt, st, l) ==
      if l.indent == 2 && st.header.symbols && st.header.schema && st.header.name && st.header.version
         && l.w.value != "" && l.w.value !in st.seen
      then Some(Started(st.seen, st.out, st.header, l.w.value)) else None
  {
    HeaderIs(fmt, st, l);
  }

  lemma NextSymbolIs(fmt: Format, st: State, l: Logical)
    requires st.entry.Some? && IsKey(l, Symbol)
    ensures Take(fmt, st, l) ==
      if l.indent == 2 && CanFinish(st.entry.value) && l.w.value != "" && l.w.value !in st.seen
      then Some(Started(st.seen, st.out[st.entry.value.symbol := Entered(st.entry.value)], st.header, l.w.value))
        else None
  {
  }

  lemma SymbolEnds(ls: seq<Logical>, l: Logical, n: nat)
    requires IsKey(l, Symbol) && n <= |ls|
    ensures EndsSymbol(ls + [l], n) <==>
      (n < |ls| && EndsSymbol(ls, n)) || (n == |ls| && Current(ls).Some?)
  {
    EarlierLines(ls, l, n);
    if n < |ls| { assert (ls + [l])[n] == ls[n]; } else { assert (ls + [l])[n] == l; }
  }

  /** The contracts before a new symbol. */
  function Entering(ls: seq<Logical>, st: State): map<string, Contract>
    requires Current(ls).Some? ==> st.entry.Some?
  {
    if Current(ls).None? then st.out else st.out[st.entry.value.symbol := Entered(st.entry.value)]
  }

  lemma OutGrows(ls: seq<Logical>, st: State, l: Logical)
    requires KnowsFile(ls, st) && IsKey(l, Symbol) && !HasText(ls, Symbol, l.w.value)
    ensures KnowsOut(ls + [l], Entering(ls, st))
  {
    var all, out := ls + [l], Entering(ls, st);
    CurrentNext(ls, l);
    forall s ensures s in out <==> HasText(all, Symbol, s) && Current(all) != Some(s) { HasNext(ls, l, Symbol, s); }
    forall n: nat | n < |all| && EndsSymbol(all, n)
      ensures SymbolBefore(all, n).value in out && Says(BodyBefore(all, n), out[SymbolBefore(all, n).value])
    {
      SymbolEnds(ls, l, n);
      EarlierLines(ls, l, n);
      if n < |ls| {
        assert SymbolBefore(ls, n).value in st.out;
      } else {
        EnteredIsSaid(Body(ls), st.entry.value);
      }
    }
  }

  lemma SymbolExactly(fmt: Format, ls: seq<Logical>, st: State, l: Logical)
    requires KnowsFile(ls, st) && IsKey(l, Symbol)
    ensures Take(fmt, st, l).Some? <==> Follows(fmt, ls, l)
    ensures Take(fmt, st, l).Some? ==>
      Take(fmt, st, l).value == Started(st.seen, Entering(ls, st), st.header, l.w.value)
  {
    if Current(ls).None? {
      FirstSymbolIs(fmt, st, l);
    } else {
      NextSymbolIs(fmt, st, l);
      CompleteExactly(Body(ls), st.entry.value);
    }
  }

  lemma SymbolKnown(fmt: Format, ls: seq<Logical>, st: State, l: Logical)
    requires KnowsFile(ls, st) && IsKey(l, Symbol) && Follows(fmt, ls, l)
    ensures KnowsFile(ls + [l], Started(st.seen, Entering(ls, st), st.header, l.w.value))
  {
    CurrentNext(ls, l);
    OutGrows(ls, st, l);
    HeaderHas(ls, l);
    NothingKnown(l.w.value);
    forall s ensures HasText(ls + [l], Symbol, s) <==> HasText(ls, Symbol, s) || s == l.w.value {
      HasNext(ls, l, Symbol, s);
    }
  }

  // ---------------------------------------------------------------------------------------------
  // Whole files
  // ---------------------------------------------------------------------------------------------

  lemma LineExactly(fmt: Format, ls: seq<Logical>, st: State, l: Logical)
    requires KnowsFile(ls, st)
    ensures Take(fmt, st, l).Some? <==> Follows(fmt, ls, l)
    ensures Take(fmt, st, l).Some? ==> KnowsFile(ls + [l], Take(fmt, st, l).value)
  {
    if IsKey(l, Symbol) {
      SymbolExactly(fmt, ls, st, l);
      if Follows(fmt, ls, l) { SymbolKnown(fmt, ls, st, l); }
    } else if Current(ls).None? {
      HeaderExactly(fmt, ls, st, l);
      if Take(fmt, st, l).Some? { HeaderKnown(fmt, ls, st, l); }
    } else {
      FactExactly(fmt, ls, st, l);
      if Take(fmt, st, l).Some? { FactKnown(fmt, ls, st, l, Take(fmt, st, l).value); }
    }
  }

  lemma NothingRead()
    ensures KnowsFile([], START)
  {
  }

  lemma {:induction false} RunExactly(fmt: Format, ls: seq<Logical>)
    ensures Run(fmt, ls).Some? <==> Fits(fmt, ls)
    ensures Run(fmt, ls).Some? ==> KnowsFile(ls, Run(fmt, ls).value)
    decreases |ls|
  {
    if ls == [] {
      NothingRead();
    } else {
      var init, l := ls[..|ls| - 1], ls[|ls| - 1];
      assert ls == init + [l];
      RunExactly(fmt, init);
      FitsNext(fmt, init, l);
      RunNext(fmt, init, l);
      if Run(fmt, init).Some? { LineExactly(fmt, init, Run(fmt, init).value, l); }
    }
  }

  /** The end of the file ends the last symbol. */
  lemma CloseExactly(fmt: Format, ls: seq<Logical>, st: State)
    requires KnowsFile(ls, st)
    ensures Close(st).Some? <==> if Current(ls).None? then HeaderDone(ls) else Complete(Body(ls))
    ensures Close(st).Some? ==> States(ls, Close(st).value)
  {
    if Current(ls).Some? { CompleteExactly(Body(ls), st.entry.value); }
    if Close(st).Some? { ClosedStates(ls, st); }
  }

  lemma ClosedStates(ls: seq<Logical>, st: State)
    requires KnowsFile(ls, st) && Close(st).Some?
    ensures States(ls, Close(st).value)
  {
    var out := Close(st).value;
    if Current(ls).Some? {
      EnteredIsSaid(Body(ls), st.entry.value);
      assert out == st.out[st.entry.value.symbol := Entered(st.entry.value)];
    }
    forall n: nat | EndsSymbol(ls, n)
      ensures SymbolBefore(ls, n).value in out && Says(BodyBefore(ls, n), out[SymbolBefore(ls, n).value])
    {
      if n < |ls| { assert SymbolBefore(ls, n).value in st.out; }
    }
    forall s ensures s in out <==> HasText(ls, Symbol, s) { TextIsThere(ls, s); }
  }

  lemma TextIsThere(ls: seq<Logical>, s: string)
    ensures HasText(ls, Symbol, s) ==> Has(ls, Symbol)
  {
  }

  // ---------------------------------------------------------------------------------------------
  // Nothing is left open
  // ---------------------------------------------------------------------------------------------

  /** Every symbol's lines end somewhere. */
  lemma {:induction false} SymbolHasEnd(ls: seq<Logical>, j: nat, n: nat) returns (m: nat)
    requires j < n <= |ls| && SymbolBefore(ls, n) == Some(ls[j].w.value) && IsKey(ls[j], Symbol)
    ensures EndsSymbol(ls, m) && SymbolBefore(ls, m) == Some(ls[j].w.value)
    decreases |ls| - n
  {
    if n == |ls| || IsKey(ls[n], Symbol) {
      m := n;
    } else {
      m := SymbolHasEnd(ls, j, n + 1);
    }
  }

  lemma SaidResult(ls: seq<Logical>, a: Contract, b: Contract)
    requires Says(ls, a) && Says(ls, b)
    ensures a.result == b.result && a.borrowArg == b.borrowArg
  {
    if Has(ls, Ownership) {
      var j :| 0 <= j < |ls| && IsKey(ls[j], Ownership);
      ResultSpelled(ls[j].w.value, a.result.value);
      ResultSpelled(ls[j].w.value, b.result.value);
    }
    if Has(ls, FromParam) {
      var j :| 0 <= j < |ls| && IsKey(ls[j], FromParam);
      assert Number(ls[j]) == a.borrowArg && Number(ls[j]) == b.borrowArg;
    }
  }

  lemma SaidTable(ls: seq<Logical>, a: seq<Option<ParamEffect>>, b: seq<Option<ParamEffect>>)
    requires SaysParams(ls, a) && SaysParams(ls, b)
    ensures a == b
  {
    var m, n: nat := |a|, |b|;
    assert (0 <= m < |a|) <==> 0 <= m && ReachesIndex(ls, m);
    assert (0 <= m < |b|) <==> 0 <= m && ReachesIndex(ls, m);
    assert (0 <= n < |a|) <==> 0 <= n && ReachesIndex(ls, n);
    assert (0 <= n < |b|) <==> 0 <= n && ReachesIndex(ls, n);
    forall i | 0 <= i < |a| ensures a[i] == b[i] {
      if a[i].Some? { assert a[i] == Some(a[i].value) <==> HasEffect(ls, i, a[i].value); }
      if b[i].Some? { assert b[i] == Some(b[i].value) <==> HasEffect(ls, i, b[i].value); }
    }
  }

  lemma SaidOnce(ls: seq<Logical>, a: Contract, b: Contract)
    requires Says(ls, a) && Says(ls, b)
    ensures a == b
  {
    SaidResult(ls, a, b);
    SaidTable(ls, a.params, b.params);
    if Produces(ls) {
      var k :| 0 <= k < |ls| && IsProducing(ls[k]);
      assert EffectFor(ls, k, a.outOwner.value.param) && EffectFor(ls, k, b.outOwner.value.param);
    }
  }

  lemma StatedOnce(ls: seq<Logical>, a: map<string, Contract>, b: map<string, Contract>)
    requires States(ls, a) && States(ls, b)
    ensures a == b
  {
    forall s | s in a ensures s in b && a[s] == b[s] {
      assert HasText(ls, Symbol, s);
      var j :| 0 <= j < |ls| && IsKey(ls[j], Symbol) && ls[j].w.value == s;
      var n := SymbolHasEnd(ls, j, j + 1);
      SaidOnce(BodyBefore(ls, n), a[s], b[s]);
    }
    forall s | s in b ensures s in a { assert HasText(ls, Symbol, s); }
  }

  lemma CloseIsQuiet(a: State, b: State)
    requires Quiet(a) == Quiet(b)
    ensures Close(a) == Close(b)
  {
  }

  lemma ParsedIsRun(fmt: Format, lines: seq<string>)
    requires Untabbed(lines)
    ensures var r := Run(fmt, Logicals(lines)); Parsed(fmt, lines) == if r.None? then None else Close(r.value)
  {
    StepsAreRun(fmt, lines);
    var st, r := Steps(fmt, START, lines), Run(fmt, Logicals(lines));
    if st.Some? { CloseIsQuiet(st.value, r.value); }
  }

  /** A file is accepted with the contracts `out` if and only if it indents by blanks, every line fits and
      nothing is missing, and `out` is what its lines state. So however the contracts are written, in
      whatever order, spelling and company, they are read as they are stated. */
  lemma ReadExactly(fmt: Format, lines: seq<string>, out: map<string, Contract>)
    ensures Parsed(fmt, lines) == Some(out) <==>
      Untabbed(lines) && FileFits(fmt, Logicals(lines)) && States(Logicals(lines), out)
  {
    var ls := Logicals(lines);
    RunExactly(fmt, ls);
    if Untabbed(lines) {
      ParsedIsRun(fmt, lines);
      if Run(fmt, ls).Some? {
        CloseExactly(fmt, ls, Run(fmt, ls).value);
        if Parsed(fmt, lines).Some? && States(ls, out) { StatedOnce(ls, Parsed(fmt, lines).value, out); }
      }
    } else {
      StepsAreRun(fmt, lines);
    }
  }

  // ---------------------------------------------------------------------------------------------
  // Spellings and company
  // ---------------------------------------------------------------------------------------------

  /** Two ways to write one line: an index with or without its dash, a number in other digits, an effect in
      its other spelling. */
  ghost predicate SameLine(a: Logical, b: Logical) {
    a.indent == b.indent &&
    (|| a.w == b.w
     || (IsIndex(a) && IsIndex(b) && Number(a) == Number(b))
     || (IsKey(a, FromParam) && IsKey(b, FromParam) && Number(a) == Number(b))
     || (IsKey(a, Effect) && IsKey(b, Effect) && exists e :: SpellsEffect(a.w.value, e) && SpellsEffect(b.w.value, e)))
  }

  lemma SameTaken(fmt: Format, e: Entry, a: Logical, b: Logical)
    requires SameLine(a, b) && a.w != b.w
    ensures TakePlain(fmt, e, a) == TakePlain(fmt, e, b)
  {
    if IsIndex(a) {
      IndexIs(fmt, e, a);
      IndexIs(fmt, e, b);
    } else if IsKey(a, FromParam) {
      ResultIs(fmt, e, a);
      ResultIs(fmt, e, b);
    } else {
      var x :| SpellsEffect(a.w.value, x) && SpellsEffect(b.w.value, x);
      EffectSpelled(a.w.value, x);
      EffectSpelled(b.w.value, x);
      EffectIs(fmt, e, a);
      EffectIs(fmt, e, b);
    }
  }

  lemma SameStep(fmt: Format, st: State, a: Logical, b: Logical)
    requires SameLine(a, b)
    ensures (Take(fmt, st, a).Some? <==> Take(fmt, st, b).Some?)
    ensures Take(fmt, st, a).Some? ==> Quiet(Take(fmt, st, a).value) == Quiet(Take(fmt, st, b).value)
  {
    if a.w != b.w {
      if st.entry.None? {
        HeaderIs(fmt, st, a);
        HeaderIs(fmt, st, b);
      } else {
        var e := st.entry.value;
        TakeIsTakeFact(fmt, st, a);
        TakeIsTakeFact(fmt, st, b);
        TakeFactIs(fmt, e, a);
        TakeFactIs(fmt, e, b);
        SameTaken(fmt, Closing(e), a, b);
      }
    }
  }

  ghost predicate SameLines(a: seq<Logical>, b: seq<Logical>) {
    |a| == |b| && forall k :: 0 <= k < |a| ==> SameLine(a[k], b[k])
  }

  predicate SameState(a: Option<State>, b: Option<State>) {
    (a.Some? <==> b.Some?) && (a.Some? ==> Quiet(a.value) == Quiet(b.value))
  }

  lemma SameOnward(fmt: Format, x: Option<State>, y: Option<State>, a: Logical, b: Logical)
    requires SameState(x, y) && SameLine(a, b)
    ensures SameState(Onward(fmt, x, a), Onward(fmt, y, b))
  {
    if x.Some? {
      FlagDoesNotMatter(fmt, x.value, y.value, b);
      SameStep(fmt, x.value, a, b);
    }
  }

  lemma {:induction false} SameRun(fmt: Format, a: seq<Logical>, b: seq<Logical>)
    requires SameLines(a, b)
    ensures SameState(Run(fmt, a), Run(fmt, b))
    decreases |a|
  {
    if a != [] {
      var x, y, l, m := a[..|a| - 1], b[..|a| - 1], a[|a| - 1], b[|a| - 1];
      assert a == x + [l] && b == y + [m] && SameLine(l, m);
      SameRun(fmt, x, y);
      RunNext(fmt, x, l);
      RunNext(fmt, y, m);
      SameOnward(fmt, Run(fmt, x), Run(fmt, y), l, m);
    }
  }

  /** Files that differ in spelling, in blank lines, comments and notes only are read alike. */
  lemma SpellingDoesNotMatter(fmt: Format, a: seq<string>, b: seq<string>)
    requires Untabbed(a) && Untabbed(b) && SameLines(Logicals(a), Logicals(b))
    ensures Parsed(fmt, a) == Parsed(fmt, b)
  {
    var x, y := Run(fmt, Logicals(a)), Run(fmt, Logicals(b));
    ParsedIsRun(fmt, a);
    ParsedIsRun(fmt, b);
    SameRun(fmt, Logicals(a), Logicals(b));
    if x.Some? { CloseIsQuiet(x.value, y.value); }
  }
}
