/** A canonical printer for contract files, and the round trip through the parser. */
module ContractPrinter {
  import opened Options
  import opened ContractText
  import opened Effects
  import opened OutOwners
  import opened ContractFile
  import opened ContractFacts

  // ---------------------------------------------------------------------------------------------
  // The printer
  // ---------------------------------------------------------------------------------------------

  /** A line to be printed: a key and its value, indented. */
  datatype KeyLine = KeyLine(indent: nat, key: Key, value: string)

  function ResultText(r: ReturnEffect): string {
    match r
    case Owned => "owned"
    case BorrowFromArg => "borrowed"
    case NoReturn => "none"
    case UnknownReturn => "unknown"
  }

  function EffectText(e: ParamEffect): string {
    match e
    case Borrows => "borrow"
    case TakesOwnership => "consumes"
    case Destroys => "destroys"
    case NoEffect => "no_ownership_effect"
    case UnknownEffect => "unknown"
  }

  /** `schema` is what follows the key in the schema line. */
  function PrintHeader(schema: string): seq<KeyLine> {
    [KeyLine(0, Schema, schema), KeyLine(0, NameKey, "contracts"), KeyLine(0, Version, "1"), KeyLine(0, Symbols, "")]
  }

  function PrintReturns(c: Contract): seq<KeyLine> {
    (if c.result.Some? then [KeyLine(4, Returns, ""), KeyLine(6, Ownership, ResultText(c.result.value))] else [])
    + (if c.borrowArg.Some? then [KeyLine(6, Lifetime, ""), KeyLine(8, FromParam, Decimal(c.borrowArg.value))] else [])
  }

  function WriteKey(o: OutOwner): KeyLine { KeyLine(10, Write, if o.writeOnSuccess then "on_success" else "always") }
  function SuccessKey(o: OutOwner): KeyLine { KeyLine(10, Success, if o.successNonzero then "nonzero" else "zero") }
  function NullableKey(o: OutOwner): KeyLine { KeyLine(10, Nullable, if o.nullable then "true" else "false") }

  function PrintOutput(o: OutOwner): seq<KeyLine> {
    [KeyLine(8, Output, ""), WriteKey(o)] + (if o.writeOnSuccess then [SuccessKey(o)] else []) + [NullableKey(o)]
  }

  predicate IsOutOwner(c: Contract, i: nat) { c.outOwner.Some? && c.outOwner.value.param == i }

  function PrintParam(c: Contract, i: nat): seq<KeyLine>
    requires Stated(c, i)
  {
    if IsOutOwner(c, i) then
      [KeyLine(6, DashIndex, Decimal(i)), KeyLine(8, Effect, PRODUCES)] + PrintOutput(c.outOwner.value.owner)
    else [KeyLine(6, DashIndex, Decimal(i)), KeyLine(8, Effect, EffectText(c.params[i].value))]
  }

  function PrintIfStated(c: Contract, i: nat): seq<KeyLine> {
    if Stated(c, i) then PrintParam(c, i) else []
  }

  function PrintParams(c: Contract, n: nat): seq<KeyLine> {
    if n == 0 then [] else PrintParams(c, n - 1) + PrintIfStated(c, n - 1)
  }

  function PrintSymbol(symbol: string, c: Contract): seq<KeyLine> {
    [KeyLine(2, Symbol, symbol), KeyLine(4, KindKey, "function")] + PrintReturns(c) + PrintParams(c, |c.params|)
  }

  datatype Named = Named(symbol: string, contract: Contract)

  function PrintAll(schema: string, es: seq<Named>): seq<KeyLine> {
    if es == [] then PrintHeader(schema)
    else PrintAll(schema, es[..|es| - 1]) + PrintSymbol(es[|es| - 1].symbol, es[|es| - 1].contract)
  }

  function RestText(value: string): string { if value == "" then "" else " " + value }

  function LineText(k: Key, value: string): string { KeyText(k) + RestText(value) }

  function Render(line: KeyLine): string { Spaces(line.indent) + LineText(line.key, line.value) }

  function RenderAll(lines: seq<KeyLine>): (r: seq<string>)
    ensures |r| == |lines| && forall i :: 0 <= i < |lines| ==> r[i] == Render(lines[i])
  {
    seq(|lines|, i requires 0 <= i < |lines| => Render(lines[i]))
  }

  // ---------------------------------------------------------------------------------------------
  // Reading printed lines
  // ---------------------------------------------------------------------------------------------

  predicate Printable(v: string) { v == "" || Clean(v) }

  lemma {:induction false} LineIsRead(line: KeyLine)
    requires line.value == "" || Trimmed(line.value)
    ensures Lex(Render(line)) == Text(line.indent, LineText(line.key, line.value))
    ensures Read(LineText(line.key, line.value)) == WordsOf(line)
  {
    var rest := RestText(line.value);
    var t := LineText(line.key, line.value);
    KeyTextColon(line.key);
    PrintedKey(line.key, rest);
    assert t[0] == KeyText(line.key)[0];
    assert t[|t| - 1] == if line.value == "" then KeyText(line.key)[|KeyText(line.key)| - 1]
      else line.value[|line.value| - 1];
    LexPrinted(line.indent, t);
    if line.value != "" { TrimAfterBlank(line.value); }
  }

  function WordsOf(line: KeyLine): Words {
    Words(LineText(line.key, line.value), Some(line.key), RestText(line.value), line.value)
  }

  /** The effect of a printed line, its text aside. */
  function StepKey(fmt: Format, st: State, line: KeyLine): Option<State> {
    TextLine(fmt, st, line.indent, WordsOf(line))
  }

  lemma {:induction false} StepIsStepKey(fmt: Format, st: State, line: KeyLine)
    requires (line.value == "" || Trimmed(line.value)) && !st.notes
    ensures Step(fmt, st, Render(line)) == StepKey(fmt, st, line)
  {
    LineIsRead(line);
    assert st.(notes := false) == st;
  }

  /** Reading `lines` leads from one state to the other, and never into notes. */
  ghost predicate Reads(fmt: Format, st: State, lines: seq<KeyLine>, st': State)
    decreases |lines|
  {
    if lines == [] then st == st'
    else
      var n := |lines| - 1;
      exists mid :: Reads(fmt, st, lines[..n], mid) && ReadsOne(fmt, mid, lines[n], st')
  }

  predicate ReadsOne(fmt: Format, st: State, line: KeyLine, st': State) {
    !st.notes && Printable(line.value) && StepKey(fmt, st, line) == Some(st')
  }

  lemma {:induction false} RenderedPrefix(lines: seq<KeyLine>, n: nat)
    requires n < |lines|
    ensures RenderAll(lines)[..n] == RenderAll(lines[..n]) && RenderAll(lines)[n] == Render(lines[n])
  {
  }

  lemma {:induction false} ReadsMeansSteps(fmt: Format, st: State, lines: seq<KeyLine>, st': State)
    requires Reads(fmt, st, lines, st')
    ensures Steps(fmt, st, RenderAll(lines)) == Some(st')
    decreases |lines|
  {
    if lines != [] {
      var n := |lines| - 1;
      var mid :| Reads(fmt, st, lines[..n], mid) && ReadsOne(fmt, mid, lines[n], st');
      ReadsMeansSteps(fmt, st, lines[..n], mid);
      RenderedPrefix(lines, n);
      StepIsStepKey(fmt, mid, lines[n]);
    }
  }

  lemma {:induction false} ReadOneIsPrintable(fmt: Format, st: State, line: KeyLine, st': State)
    requires ReadsOne(fmt, st, line, st')
    ensures Printable(line.value)
  {
  }

  ghost predicate AllPrintable(lines: seq<KeyLine>) { forall i :: 0 <= i < |lines| ==> PrintableLine(lines[i]) }

  predicate PrintableLine(line: KeyLine) { Printable(line.value) }

  lemma {:induction false} OneMorePrintable(lines: seq<KeyLine>)
    requires lines != [] && AllPrintable(lines[..|lines| - 1]) && PrintableLine(lines[|lines| - 1])
    ensures AllPrintable(lines)
  {
    var init := lines[..|lines| - 1];
    forall i | 0 <= i < |lines| - 1 ensures PrintableLine(lines[i]) { assert init[i] == lines[i]; }
  }

  lemma {:induction false} ReadsArePrintable(fmt: Format, st: State, lines: seq<KeyLine>, st': State)
    requires Reads(fmt, st, lines, st')
    ensures AllPrintable(lines)
    decreases |lines|
  {
    if lines != [] {
      var n := |lines| - 1;
      var mid :| Reads(fmt, st, lines[..n], mid) && ReadsOne(fmt, mid, lines[n], st');
      ReadsArePrintable(fmt, st, lines[..n], mid);
      ReadOneIsPrintable(fmt, mid, lines[n], st');
      OneMorePrintable(lines);
    }
  }

  lemma {:induction false} JoinedOnOneLine(a: string, b: string)
    requires OneLine(a) && OneLine(b)
    ensures OneLine(a + b)
  {
  }

  lemma {:induction false} RenderedOnOneLine(line: KeyLine)
    requires line.value == "" || OneLine(line.value)
    ensures OneLine(Render(line))
  {
    KeysAreOneLine(line.key);
    if line.value != "" { JoinedOnOneLine(" ", line.value); }
    JoinedOnOneLine(KeyText(line.key), RestText(line.value));
    JoinedOnOneLine(Spaces(line.indent), LineText(line.key, line.value));
  }

  /** What is printed is the lines of a file. */
  lemma {:induction false} PrintedAreFileLines(fmt: Format, st: State, lines: seq<KeyLine>, st': State)
    requires Reads(fmt, st, lines, st')
    ensures FileLines(RenderAll(lines))
  {
    ReadsArePrintable(fmt, st, lines, st');
    forall i | 0 <= i < |lines| ensures OneLine(RenderAll(lines)[i]) {
      assert PrintableLine(lines[i]);
      RenderedOnOneLine(lines[i]);
    }
  }

  lemma {:induction false} ReadsNext(fmt: Format, s0: State, lines: seq<KeyLine>, mid: State, line: KeyLine, s1: State)
    requires Reads(fmt, s0, lines, mid) && ReadsOne(fmt, mid, line, s1)
    ensures Reads(fmt, s0, lines + [line], s1)
  {
    var all := lines + [line];
    assert all[..|all| - 1] == lines && all[|all| - 1] == line;
  }

  lemma {:induction false} SplitLast<T>(a: seq<T>, b: seq<T>)
    requires b != []
    ensures a + b[..|b| - 1] + [b[|b| - 1]] == a + b
  {
  }

  lemma {:induction false} ReadsThen(fmt: Format, s0: State, a: seq<KeyLine>, s1: State, b: seq<KeyLine>, s2: State)
    requires Reads(fmt, s0, a, s1) && Reads(fmt, s1, b, s2)
    ensures Reads(fmt, s0, a + b, s2)
    decreases |b|
  {
    if b == [] {
      assert a + b == a;
    } else {
      var n := |b| - 1;
      var mid :| Reads(fmt, s1, b[..n], mid) && ReadsOne(fmt, mid, b[n], s2);
      ReadsThen(fmt, s0, a, s1, b[..n], mid);
      ReadsNext(fmt, s0, a + b[..n], mid, b[n], s2);
      SplitLast(a, b);
    }
  }

  lemma {:induction false} ReadsLine(fmt: Format, s0: State, line: KeyLine, s1: State)
    requires !s0.notes && Printable(line.value) && StepKey(fmt, s0, line) == Some(s1)
    ensures Reads(fmt, s0, [line], s1)
  {
    ReadsNext(fmt, s0, [], s0, line, s1);
    assert [] + [line] == [line];
  }

  lemma {:induction false} ReadsTwo(fmt: Format, s0: State, a: KeyLine, s1: State, b: KeyLine, s2: State)
    requires !s0.notes && !s1.notes && Printable(a.value) && Printable(b.value)
    requires StepKey(fmt, s0, a) == Some(s1) && StepKey(fmt, s1, b) == Some(s2)
    ensures Reads(fmt, s0, [a, b], s2)
  {
    ReadsLine(fmt, s0, a, s1);
    ReadsLine(fmt, s1, b, s2);
    ReadsThen(fmt, s0, [a], s1, [b], s2);
    assert [a] + [b] == [a, b];
  }

  /** No output block is pending. */
  predicate Settled(st: State) { st.entry.Some? ==> !st.entry.value.block.awaited && !st.entry.value.block.inside }

  /** An output block is being read, and is complete. */
  predicate Closable(st: State) {
    st.entry.Some? && !st.entry.value.block.awaited && st.entry.value.block.inside &&
      BlockComplete(st.entry.value.block)
  }

  function Closed(st: State): State {
    if st.entry.Some? then WithBlock(st, st.entry.value.block.(inside := false)) else st
  }

  /** A line that is not part of an output block closes one that is open. */
  lemma {:induction false} StepKeyCloses(fmt: Format, st: State, line: KeyLine)
    requires (Settled(st) || Closable(st)) && line.indent <= 8
    ensures StepKey(fmt, st, line) == BodyLine(fmt, Closed(st), line.indent, WordsOf(line))
  {
    if Settled(st) { assert Closed(st) == st; }
  }

  // ---------------------------------------------------------------------------------------------
  // Words
  // ---------------------------------------------------------------------------------------------

  lemma {:induction false} ResultWords(r: ReturnEffect)
    ensures ResultOf(ResultText(r)) == Some(r) && Clean(ResultText(r))
  {
    match r
    case _ =>
  }

  lemma {:induction false} EffectWords(e: ParamEffect)
    ensures EffectOf(EffectText(e)) == Some(e) && Clean(EffectText(e)) && EffectText(e) != PRODUCES
  {
    assert "consumes"[0] != "destroys"[0];
    match e
    case _ =>
  }

  lemma {:induction false} OtherWords()
    ensures Clean(PRODUCES) && Clean("function") && Clean("contracts") && Clean("1")
    ensures Clean("on_success") && Clean("always") && Clean("zero") && Clean("nonzero") && Clean("true") &&
      Clean("false")
  {
  }

  // ---------------------------------------------------------------------------------------------
  // Reading a symbol
  // ---------------------------------------------------------------------------------------------

  const READ_HEADER := Header(true, true, true, true, false)

  function Running(out: map<string, Contract>, seen: set<string>, e: Entry): State {
    State(out, seen, READ_HEADER, false, Some(e))
  }

  function Begun(symbol: string): Entry { Entry(symbol, NO_FACTS, {}, {}, None, false, NO_BLOCK) }

  /** The entry before its first parameter. */
  function Introduced(symbol: string, c: Contract): Entry {
    Entry(symbol, Contract(c.result, c.borrowArg, [], None), {}, {}, None, true, NO_BLOCK)
  }

  lemma {:induction false} KindIsRead(fmt: Format, out: map<string, Contract>, seen: set<string>, symbol: string)
    ensures Reads(fmt, Running(out, seen, Begun(symbol)), [KeyLine(4, KindKey, "function")],
      Running(out, seen, Introduced(symbol, NO_FACTS)))
  {
    var st, line := Running(out, seen, Begun(symbol)), KeyLine(4, KindKey, "function");
    OtherWords();
    StepKeyCloses(fmt, st, line);
    assert Closed(st) == st && RestText("function") == " function";
    ReadsLine(fmt, st, line, Running(out, seen, Introduced(symbol, NO_FACTS)));
  }

  /** For any text `v` of the result. */
  lemma {:induction false} OwnershipIsRead(fmt: Format, out: map<string, Contract>, seen: set<string>, symbol: string,
      v: string, r: ReturnEffect)
    requires ResultOf(v) == Some(r) && Printable(v)
    ensures Reads(fmt, Running(out, seen, Introduced(symbol, NO_FACTS)),
      [KeyLine(4, Returns, ""), KeyLine(6, Ownership, v)],
      Running(out, seen, Introduced(symbol, NO_FACTS.(result := Some(r)))))
  {
    var st, a, b := Running(out, seen, Introduced(symbol, NO_FACTS)), KeyLine(4, Returns, ""), KeyLine(6, Ownership, v);
    StepKeyCloses(fmt, st, a);
    StepKeyCloses(fmt, st, b);
    assert Closed(st) == st;
    ReadsTwo(fmt, st, a, st, b, Running(out, seen, Introduced(symbol, NO_FACTS.(result := Some(r)))));
  }

  /** For any text `v` of the number. */
  lemma {:induction false} SourceIsRead(fmt: Format, out: map<string, Contract>, seen: set<string>, symbol: string,
      r: Option<ReturnEffect>, v: string, i: nat)
    requires ParseUnsigned(v) == Some(i) && Printable(v)
    ensures Reads(fmt, Running(out, seen, Introduced(symbol, NO_FACTS.(result := r))),
      [KeyLine(6, Lifetime, ""), KeyLine(8, FromParam, v)],
      Running(out, seen, Introduced(symbol, NO_FACTS.(result := r, borrowArg := Some(i)))))
  {
    var st := Running(out, seen, Introduced(symbol, NO_FACTS.(result := r)));
    var a, b := KeyLine(6, Lifetime, ""), KeyLine(8, FromParam, v);
    StepKeyCloses(fmt, st, a);
    StepKeyCloses(fmt, st, b);
    assert Closed(st) == st;
    ReadsTwo(fmt, st, a, st, b, Running(out, seen, Introduced(symbol, NO_FACTS.(result := r, borrowArg := Some(i)))));
  }

  lemma {:induction false} ReturnsAreRead(fmt: Format, out: map<string, Contract>, seen: set<string>, symbol: string,
      c: Contract)
    requires c.borrowArg.Some? ==> c.borrowArg.value <= MAX_UNSIGNED
    ensures Reads(fmt, Running(out, seen, Introduced(symbol, NO_FACTS)), PrintReturns(c),
      Running(out, seen, Introduced(symbol, c)))
  {
    var s0 := Running(out, seen, Introduced(symbol, NO_FACTS));
    var s1 := Running(out, seen, Introduced(symbol, NO_FACTS.(result := c.result)));
    var a := if c.result.Some? then [KeyLine(4, Returns, ""), KeyLine(6, Ownership, ResultText(c.result.value))]
      else [];
    var b := if c.borrowArg.Some? then [KeyLine(6, Lifetime, ""), KeyLine(8, FromParam, Decimal(c.borrowArg.value))]
      else [];
    if c.result.Some? {
      ResultWords(c.result.value);
      OwnershipIsRead(fmt, out, seen, symbol, ResultText(c.result.value), c.result.value);
    }
    if c.borrowArg.Some? {
      NumberReadsBack(c.borrowArg.value);
      SourceIsRead(fmt, out, seen, symbol, c.result, Decimal(c.borrowArg.value), c.borrowArg.value);
    }
    ReadsThen(fmt, s0, a, s1, b, Running(out, seen, Introduced(symbol, c)));
  }

  // ---------------------------------------------------------------------------------------------
  // Reading parameters
  // ---------------------------------------------------------------------------------------------

  /** One more than the last stated parameter below `n`. */
  function StatedEnd(c: Contract, n: nat): (m: nat)
    ensures m <= n && (forall i :: m <= i < n ==> !Stated(c, i)) && (m > 0 ==> Stated(c, m - 1))
  {
    if n == 0 then 0 else if Stated(c, n - 1) then n else StatedEnd(c, n - 1)
  }

  function StatedBelow(c: Contract, n: nat): set<nat> { set i: nat | i < n && Stated(c, i) }

  function OwnerBlock(o: Produced, inside: bool): OutputBlock {
    OutputBlock(false, inside, true, o.owner.writeOnSuccess, true, false, Some(o))
  }

  /** The output block after the parameters below `n`: open if the last stated one is the out-owner. */
  function BlockBelow(c: Contract, n: nat): OutputBlock {
    if c.outOwner.Some? && c.outOwner.value.param < StatedEnd(c, n) then
      OwnerBlock(c.outOwner.value, StatedEnd(c, n) == c.outOwner.value.param + 1)
    else NO_BLOCK
  }

  function AfterParams(symbol: string, c: Contract, n: nat): Entry
    requires n <= |c.params|
  {
    var m := StatedEnd(c, n);
    Entry(symbol, Contract(c.result, c.borrowArg, c.params[..m], None), StatedBelow(c, n), StatedBelow(c, n),
      if m == 0 then None else Some(m - 1), true, BlockBelow(c, n))
  }

  /** The entry after the index of parameter `n`. */
  function Indexed(symbol: string, c: Contract, n: nat): Entry
    requires n < |c.params|
  {
    var e := AfterParams(symbol, c, n);
    e.(indices := e.indices + {n}, lastIndex := Some(n),
       contract := e.contract.(params := Resized(e.contract.params, n + 1)[n := None]),
       block := e.block.(inside := false))
  }

  lemma {:induction false} BetweenIsOpen(symbol: string, c: Contract, n: nat)
    requires n <= |c.params|
    ensures BlockBelow(c, n).inside ==> BlockComplete(BlockBelow(c, n))
    ensures !BlockBelow(c, n).awaited && n !in StatedBelow(c, n)
  {
  }

  /** For any text `v` of the index. */
  lemma {:induction false} IndexIsRead(fmt: Format, out: map<string, Contract>, seen: set<string>, symbol: string,
      c: Contract, n: nat, v: string)
    requires WellFormed(fmt, c) && n < |c.params| && ParseUnsigned(v) == Some(n)
    ensures StepKey(fmt, Running(out, seen, AfterParams(symbol, c, n)), KeyLine(6, DashIndex, v)) ==
      Some(Running(out, seen, Indexed(symbol, c, n)))
  {
    var st := Running(out, seen, AfterParams(symbol, c, n));
    BetweenIsOpen(symbol, c, n);
    StepKeyCloses(fmt, st, KeyLine(6, DashIndex, v));
    var e := AfterParams(symbol, c, n);
    assert Closed(st).entry == Some(e.(block := e.block.(inside := false)));
    assert IndexLine(e.(block := e.block.(inside := false)), 6, v) == Some(Indexed(symbol, c, n));
  }

  /** The parameters up to a stated one, with nothing stated in between. */
  lemma {:induction false} StatedNext(symbol: string, c: Contract, n: nat)
    requires n < |c.params| && Stated(c, n)
    ensures StatedEnd(c, n + 1) == n + 1 && StatedBelow(c, n + 1) == StatedBelow(c, n) + {n}
    ensures Indexed(symbol, c, n).contract.params == c.params[..n + 1][n := None]
  {
    var m := StatedEnd(c, n);
    forall i | m <= i < n ensures c.params[i] == None { assert !Stated(c, i); }
  }

  lemma {:induction false} StatedSkip(symbol: string, c: Contract, n: nat)
    requires n < |c.params| && !Stated(c, n)
    ensures AfterParams(symbol, c, n + 1) == AfterParams(symbol, c, n)
  {
    assert StatedBelow(c, n + 1) == StatedBelow(c, n);
  }

  lemma {:induction false} BlockNext(fmt: Format, c: Contract, n: nat)
    requires WellFormed(fmt, c) && n < |c.params| && Stated(c, n) && !IsOutOwner(c, n)
    ensures BlockBelow(c, n + 1) == BlockBelow(c, n).(inside := false)
  {
    if c.outOwner.Some? { assert Stated(c, c.outOwner.value.param); }
  }

  /** For any text of the effect. */
  lemma {:induction false} EffectIsRead(fmt: Format, out: map<string, Contract>, seen: set<string>, symbol: string,
      c: Contract, n: nat, text: string)
    requires WellFormed(fmt, c) && n < |c.params| && Stated(c, n) && !IsOutOwner(c, n)
    requires EffectOf(text) == c.params[n] && text != PRODUCES
    ensures StepKey(fmt, Running(out, seen, Indexed(symbol, c, n)), KeyLine(8, Effect, text)) ==
      Some(Running(out, seen, AfterParams(symbol, c, n + 1)))
  {
    var e := Indexed(symbol, c, n);
    BetweenIsOpen(symbol, c, n);
    StatedNext(symbol, c, n);
    var st := Running(out, seen, e);
    StepKeyCloses(fmt, st, KeyLine(8, Effect, text));
    assert Closed(st) == st;
    assert c.params[..n + 1][n := None][n := c.params[n]] == c.params[..n + 1];
    BlockNext(fmt, c, n);
    assert EffectLine(fmt, e, 8, text) == Some(AfterParams(symbol, c, n + 1));
  }

  /** The entry after parameter `n`, with the output block in some state. */
  function Producing(symbol: string, c: Contract, n: nat, b: OutputBlock): Entry
    requires n < |c.params|
  {
    AfterParams(symbol, c, n + 1).(block := b)
  }

  function Fresh(n: nat, awaited: bool): OutputBlock {
    OutputBlock(awaited, !awaited, false, false, false, false, Some(Produced(n, OutOwner(false, false, true))))
  }

  lemma {:induction false} ProducesIsRead(fmt: Format, out: map<string, Contract>, seen: set<string>, symbol: string,
      c: Contract, n: nat)
    requires WellFormed(fmt, c) && n < |c.params| && IsOutOwner(c, n)
    ensures StepKey(fmt, Running(out, seen, Indexed(symbol, c, n)), KeyLine(8, Effect, PRODUCES)) ==
      Some(Running(out, seen, Producing(symbol, c, n, Fresh(n, true))))
  {
    var e := Indexed(symbol, c, n);
    BetweenIsOpen(symbol, c, n);
    StatedNext(symbol, c, n);
    var st := Running(out, seen, e);
    StepKeyCloses(fmt, st, KeyLine(8, Effect, PRODUCES));
    assert Closed(st) == st && BlockBelow(c, n) == NO_BLOCK;
    assert c.params[..n + 1][n := None][n := None] == c.params[..n + 1];
    assert EffectLine(fmt, e, 8, PRODUCES) == Some(Producing(symbol, c, n, Fresh(n, true)));
  }

  lemma {:induction false} OutputIsRead(fmt: Format, out: map<string, Contract>, seen: set<string>, symbol: string,
      c: Contract, n: nat, b: OutputBlock, line: KeyLine)
    requires n < |c.params| && !b.awaited && b.inside && line.indent == 10 && Printable(line.value)
    requires OutputLine(b, WordsOf(line)).Some?
    ensures Reads(fmt, Running(out, seen, Producing(symbol, c, n, b)), [line],
      Running(out, seen, Producing(symbol, c, n, OutputLine(b, WordsOf(line)).value)))
  {
    ReadsLine(fmt, Running(out, seen, Producing(symbol, c, n, b)), line,
      Running(out, seen, Producing(symbol, c, n, OutputLine(b, WordsOf(line)).value)));
  }

  /** The block after its `write:` line, and after its `success:` line if it has one. */
  function Written(n: nat, o: OutOwner): OutputBlock {
    OutputBlock(false, true, true, false, false, false, Some(Produced(n, OutOwner(o.writeOnSuccess, false, true))))
  }

  function Qualified(n: nat, o: OutOwner): OutputBlock {
    OutputBlock(false, true, true, o.writeOnSuccess, false, false,
      Some(Produced(n, OutOwner(o.writeOnSuccess, o.successNonzero, true))))
  }

  lemma {:induction false} WriteIsRead(n: nat, o: OutOwner)
    ensures OutputLine(Fresh(n, false), WordsOf(WriteKey(o))) == Some(Written(n, o))
  {
  }

  lemma {:induction false} SuccessIsRead(n: nat, o: OutOwner)
    requires o.writeOnSuccess
    ensures OutputLine(Written(n, o), WordsOf(SuccessKey(o))) == Some(Qualified(n, o))
  {
  }

  lemma {:induction false} NullableIsRead(n: nat, o: OutOwner)
    ensures OutputLine(Qualified(n, o), WordsOf(NullableKey(o))) ==
      Some(OwnerBlock(Produced(n, o), true))
  {
  }

  lemma {:induction false} KeysArePrintable(o: OutOwner)
    ensures Printable(WriteKey(o).value) && Printable(SuccessKey(o).value) && Printable(NullableKey(o).value)
  {
    OtherWords();
  }

  lemma {:induction false} BlockStarts(fmt: Format, out: map<string, Contract>, seen: set<string>, symbol: string,
      c: Contract, n: nat, o: OutOwner)
    requires n < |c.params|
    ensures Reads(fmt, Running(out, seen, Producing(symbol, c, n, Fresh(n, true))),
      [KeyLine(8, Output, ""), WriteKey(o)],
      Running(out, seen, Producing(symbol, c, n, Written(n, o))))
  {
    KeysArePrintable(o);
    WriteIsRead(n, o);
    ReadsTwo(fmt, Running(out, seen, Producing(symbol, c, n, Fresh(n, true))), KeyLine(8, Output, ""),
      Running(out, seen, Producing(symbol, c, n, Fresh(n, false))), WriteKey(o),
        Running(out, seen, Producing(symbol, c, n, Written(n, o))));
  }

  lemma {:induction false} BlockContinues(fmt: Format, out: map<string, Contract>, seen: set<string>, symbol: string,
      c: Contract, n: nat, o: OutOwner)
    requires n < |c.params| && (!o.writeOnSuccess ==> !o.successNonzero)
    ensures Reads(fmt, Running(out, seen, Producing(symbol, c, n, Written(n, o))),
      if o.writeOnSuccess then [SuccessKey(o)] else [],
      Running(out, seen, Producing(symbol, c, n, Qualified(n, o))))
  {
    KeysArePrintable(o);
    if o.writeOnSuccess {
      SuccessIsRead(n, o);
      OutputIsRead(fmt, out, seen, symbol, c, n, Written(n, o), SuccessKey(o));
    }
  }

  lemma {:induction false} BlockEnds(fmt: Format, out: map<string, Contract>, seen: set<string>, symbol: string,
      c: Contract, n: nat, o: OutOwner)
    requires n < |c.params|
    ensures Reads(fmt, Running(out, seen, Producing(symbol, c, n, Qualified(n, o))), [NullableKey(o)],
      Running(out, seen, Producing(symbol, c, n, OwnerBlock(Produced(n, o), true))))
  {
    KeysArePrintable(o);
    NullableIsRead(n, o);
    OutputIsRead(fmt, out, seen, symbol, c, n, Qualified(n, o), NullableKey(o));
  }

  lemma {:induction false} BlockIsRead(fmt: Format, out: map<string, Contract>, seen: set<string>, symbol: string,
      c: Contract, n: nat, o: OutOwner)
    requires n < |c.params| && (!o.writeOnSuccess ==> !o.successNonzero)
    ensures Reads(fmt, Running(out, seen, Producing(symbol, c, n, Fresh(n, true))), PrintOutput(o),
      Running(out, seen, Producing(symbol, c, n, OwnerBlock(Produced(n, o), true))))
  {
    var s0 := Running(out, seen, Producing(symbol, c, n, Fresh(n, true)));
    var s1 := Running(out, seen, Producing(symbol, c, n, Written(n, o)));
    var s2 := Running(out, seen, Producing(symbol, c, n, Qualified(n, o)));
    var s3 := Running(out, seen, Producing(symbol, c, n, OwnerBlock(Produced(n, o), true)));
    var start, middle := [KeyLine(8, Output, ""), WriteKey(o)], if o.writeOnSuccess then [SuccessKey(o)] else [];
    BlockStarts(fmt, out, seen, symbol, c, n, o);
    BlockContinues(fmt, out, seen, symbol, c, n, o);
    BlockEnds(fmt, out, seen, symbol, c, n, o);
    ReadsThen(fmt, s0, start, s1, middle, s2);
    ReadsThen(fmt, s0, start + middle, s2, [NullableKey(o)], s3);
  }

  lemma {:induction false} PlainParamIsRead(fmt: Format, out: map<string, Contract>, seen: set<string>, symbol: string,
      c: Contract, n: nat, v: string, text: string)
    requires WellFormed(fmt, c) && n < |c.params| && Stated(c, n) && !IsOutOwner(c, n)
    requires ParseUnsigned(v) == Some(n) && Printable(v) && EffectOf(text) == c.params[n] && text != PRODUCES &&
      Printable(text)
    ensures Reads(fmt, Running(out, seen, AfterParams(symbol, c, n)),
      [KeyLine(6, DashIndex, v), KeyLine(8, Effect, text)],
      Running(out, seen, AfterParams(symbol, c, n + 1)))
  {
    IndexIsRead(fmt, out, seen, symbol, c, n, v);
    EffectIsRead(fmt, out, seen, symbol, c, n, text);
    ReadsTwo(fmt, Running(out, seen, AfterParams(symbol, c, n)), KeyLine(6, DashIndex, v),
      Running(out, seen, Indexed(symbol, c, n)),
      KeyLine(8, Effect, text), Running(out, seen, AfterParams(symbol, c, n + 1)));
  }

  lemma {:induction false} OwnerParamIsRead(fmt: Format, out: map<string, Contract>, seen: set<string>, symbol: string,
      c: Contract, n: nat, v: string)
    requires WellFormed(fmt, c) && n < |c.params| && IsOutOwner(c, n) && ParseUnsigned(v) == Some(n) && Printable(v)
    ensures Reads(fmt, Running(out, seen, AfterParams(symbol, c, n)),
      [KeyLine(6, DashIndex, v), KeyLine(8, Effect, PRODUCES)] + PrintOutput(c.outOwner.value.owner),
      Running(out, seen, AfterParams(symbol, c, n + 1)))
  {
    var o := c.outOwner.value.owner;
    var s0 := Running(out, seen, AfterParams(symbol, c, n));
    var s1 := Running(out, seen, Producing(symbol, c, n, Fresh(n, true)));
    var s2 := Running(out, seen, AfterParams(symbol, c, n + 1));
    IndexIsRead(fmt, out, seen, symbol, c, n, v);
    OtherWords();
    ProducesIsRead(fmt, out, seen, symbol, c, n);
    ReadsTwo(fmt, s0, KeyLine(6, DashIndex, v), Running(out, seen, Indexed(symbol, c, n)),
      KeyLine(8, Effect, PRODUCES), s1);
    BlockIsRead(fmt, out, seen, symbol, c, n, o);
    StatedNext(symbol, c, n);
    assert Producing(symbol, c, n, OwnerBlock(Produced(n, o), true)) == AfterParams(symbol, c, n + 1);
    ReadsThen(fmt, s0, [KeyLine(6, DashIndex, v), KeyLine(8, Effect, PRODUCES)], s1, PrintOutput(o), s2);
  }

  lemma {:induction false} ParamIsRead(fmt: Format, out: map<string, Contract>, seen: set<string>, symbol: string,
      c: Contract, n: nat)
    requires WellFormed(fmt, c) && n < |c.params| && Stated(c, n)
    ensures Reads(fmt, Running(out, seen, AfterParams(symbol, c, n)), PrintParam(c, n),
      Running(out, seen, AfterParams(symbol, c, n + 1)))
  {
    NumberReadsBack(n);
    if IsOutOwner(c, n) {
      OwnerParamIsRead(fmt, out, seen, symbol, c, n, Decimal(n));
    } else {
      EffectWords(c.params[n].value);
      PlainParamIsRead(fmt, out, seen, symbol, c, n, Decimal(n), EffectText(c.params[n].value));
    }
  }

  lemma {:induction false} NoParamsRead(symbol: string, c: Contract)
    ensures AfterParams(symbol, c, 0) == Introduced(symbol, c)
  {
    assert StatedBelow(c, 0) == {} && c.params[..0] == [];
  }

  lemma {:induction false} NextParamIsRead(fmt: Format, out: map<string, Contract>, seen: set<string>, symbol: string,
      c: Contract, n: nat)
    requires WellFormed(fmt, c) && n < |c.params|
    ensures Reads(fmt, Running(out, seen, AfterParams(symbol, c, n)), PrintIfStated(c, n),
      Running(out, seen, AfterParams(symbol, c, n + 1)))
  {
    if Stated(c, n) {
      ParamIsRead(fmt, out, seen, symbol, c, n);
    } else {
      StatedSkip(symbol, c, n);
    }
  }

  lemma {:induction false} ParamsAreRead(fmt: Format, out: map<string, Contract>, seen: set<string>, symbol: string,
      c: Contract, n: nat)
    requires WellFormed(fmt, c) && n <= |c.params|
    ensures Reads(fmt, Running(out, seen, Introduced(symbol, c)), PrintParams(c, n),
      Running(out, seen, AfterParams(symbol, c, n)))
  {
    if n == 0 {
      NoParamsRead(symbol, c);
    } else {
      ParamsAreRead(fmt, out, seen, symbol, c, n - 1);
      NextParamIsRead(fmt, out, seen, symbol, c, n - 1);
      ReadsThen(fmt, Running(out, seen, Introduced(symbol, c)), PrintParams(c, n - 1),
        Running(out, seen, AfterParams(symbol, c, n - 1)),
        PrintIfStated(c, n - 1), Running(out, seen, AfterParams(symbol, c, n)));
    }
  }

  // ---------------------------------------------------------------------------------------------
  // Reading a file
  // ---------------------------------------------------------------------------------------------

  function MapOf(es: seq<Named>): map<string, Contract> {
    if es == [] then map[] else MapOf(es[..|es| - 1])[es[|es| - 1].symbol := es[|es| - 1].contract]
  }

  function SymbolsOf(es: seq<Named>): set<string> { set e | e in es :: e.symbol }

  ghost predicate PrintableEntries(fmt: Format, es: seq<Named>) {
    && (forall e :: e in es ==> Clean(e.symbol) && WellFormed(fmt, e.contract))
    && (forall i, j :: 0 <= i < |es| && 0 <= j < |es| && es[i].symbol == es[j].symbol ==> i == j)
  }

  /** The state after the entries: the last one is still being read. */
  function AfterEntries(es: seq<Named>): State {
    if es == [] then START.(header := READ_HEADER)
    else
      var m := |es| - 1;
      Running(MapOf(es[..m]), SymbolsOf(es), AfterParams(es[m].symbol, es[m].contract, |es[m].contract.params|))
  }

  lemma {:induction false} LastIsFinished(fmt: Format, es: seq<Named>)
    requires PrintableEntries(fmt, es)
    ensures Finish(Closed(AfterEntries(es))).Some? && Finish(Closed(AfterEntries(es))).value.out == MapOf(es)
    ensures Finish(AfterEntries(es)).Some? && Finish(AfterEntries(es)).value.out == MapOf(es)
    ensures Finish(Closed(AfterEntries(es))).value.seen == SymbolsOf(es) &&
      Finish(Closed(AfterEntries(es))).value.header == READ_HEADER
  {
    if es != [] {
      var m := |es| - 1;
      var c := es[m].contract;
      assert es[m] in es;
      assert StatedEnd(c, |c.params|) == |c.params|;
      assert c.params[..|c.params|] == c.params;
      if c.outOwner.Some? { assert c.outOwner.value.param < |c.params|; }
    }
  }

  lemma {:induction false} ButLast(fmt: Format, es: seq<Named>)
    requires es != [] && PrintableEntries(fmt, es)
    ensures var m := |es| - 1;
      PrintableEntries(fmt, es[..m]) && SymbolsOf(es) == SymbolsOf(es[..m]) + {es[m].symbol} &&
        es[m].symbol !in SymbolsOf(es[..m])
  {
    var m := |es| - 1;
    assert es == es[..m] + [es[m]];
    assert forall e :: e in es[..m] ==> e in es;
  }

  /** Between symbols the parser is in no block, or in one that may be closed. */
  lemma {:induction false} BetweenSymbols(es: seq<Named>)
    ensures Settled(AfterEntries(es)) || Closable(AfterEntries(es))
  {
    if es != [] {
      var e := es[|es| - 1];
      BetweenIsOpen(e.symbol, e.contract, |e.contract.params|);
    }
  }

  lemma {:induction false} SymbolIsRead(fmt: Format, es: seq<Named>)
    requires es != [] && PrintableEntries(fmt, es)
    ensures var m := |es| - 1;
      Reads(fmt, AfterEntries(es[..m]), [KeyLine(2, Symbol, es[m].symbol)],
        Running(MapOf(es[..m]), SymbolsOf(es), Begun(es[m].symbol)))
  {
    var m := |es| - 1;
    var st, line := AfterEntries(es[..m]), KeyLine(2, Symbol, es[m].symbol);
    assert es[m] in es;
    ButLast(fmt, es);
    LastIsFinished(fmt, es[..m]);
    BetweenSymbols(es[..m]);
    StepKeyCloses(fmt, st, line);
    ReadsLine(fmt, st, line, Running(MapOf(es[..m]), SymbolsOf(es), Begun(es[m].symbol)));
  }

  lemma {:induction false} EntryIsRead(fmt: Format, es: seq<Named>)
    requires es != [] && PrintableEntries(fmt, es)
    ensures var e := es[|es| - 1];
      Reads(fmt, AfterEntries(es[..|es| - 1]), PrintSymbol(e.symbol, e.contract), AfterEntries(es))
  {
    var m := |es| - 1;
    var e := es[m];
    assert e in es;
    var out, seen := MapOf(es[..m]), SymbolsOf(es);
    var s0, s1 := AfterEntries(es[..m]), Running(out, seen, Begun(e.symbol));
    var s2 := Running(out, seen, Introduced(e.symbol, NO_FACTS));
    var s3 := Running(out, seen, Introduced(e.symbol, e.contract));
    var a, b := KeyLine(2, Symbol, e.symbol), KeyLine(4, KindKey, "function");
    SymbolIsRead(fmt, es);
    KindIsRead(fmt, out, seen, e.symbol);
    ReadsThen(fmt, s0, [a], s1, [b], s2);
    assert [a] + [b] == [a, b];
    ReturnsAreRead(fmt, out, seen, e.symbol, e.contract);
    ReadsThen(fmt, s0, [a, b], s2, PrintReturns(e.contract), s3);
    ParamsAreRead(fmt, out, seen, e.symbol, e.contract, |e.contract.params|);
    ReadsThen(fmt, s0, [a, b] + PrintReturns(e.contract), s3, PrintParams(e.contract, |e.contract.params|),
      AfterEntries(es));
  }

  /** The format's schema line consists of the key and `schema`. */
  predicate SchemaIs(fmt: Format, schema: string) { Clean(schema) && fmt.schemaLine == LineText(Schema, schema) }

  /** The header with its first entries read. */
  function HeaderRead(n: nat): State { START.(header := Header(n > 0, n > 1, n > 2, n > 3, false)) }

  lemma {:induction false} HeaderStarts(fmt: Format, schema: string)
    requires SchemaIs(fmt, schema)
    ensures Reads(fmt, HeaderRead(0), [KeyLine(0, Schema, schema), KeyLine(0, NameKey, "contracts")], HeaderRead(2))
  {
    OtherWords();
    ReadsTwo(fmt, HeaderRead(0), KeyLine(0, Schema, schema), HeaderRead(1), KeyLine(0, NameKey, "contracts"),
      HeaderRead(2));
  }

  lemma {:induction false} HeaderEnds(fmt: Format)
    ensures Reads(fmt, HeaderRead(2), [KeyLine(0, Version, "1"), KeyLine(0, Symbols, "")], HeaderRead(4))
  {
    OtherWords();
    ReadsTwo(fmt, HeaderRead(2), KeyLine(0, Version, "1"), HeaderRead(3), KeyLine(0, Symbols, ""), HeaderRead(4));
  }

  lemma {:induction false} HeaderIsRead(fmt: Format, schema: string)
    requires SchemaIs(fmt, schema)
    ensures Reads(fmt, START, PrintHeader(schema), AfterEntries([]))
  {
    var a := [KeyLine(0, Schema, schema), KeyLine(0, NameKey, "contracts")];
    var b := [KeyLine(0, Version, "1"), KeyLine(0, Symbols, "")];
    HeaderStarts(fmt, schema);
    HeaderEnds(fmt);
    ReadsThen(fmt, HeaderRead(0), a, HeaderRead(2), b, HeaderRead(4));
    assert a + b == PrintHeader(schema);
  }

  lemma {:induction false} FileIsRead(fmt: Format, schema: string, es: seq<Named>)
    requires SchemaIs(fmt, schema) && PrintableEntries(fmt, es)
    ensures Reads(fmt, START, PrintAll(schema, es), AfterEntries(es))
  {
    if es == [] {
      HeaderIsRead(fmt, schema);
    } else {
      var m := |es| - 1;
      assert forall e :: e in es[..m] ==> e in es;
      FileIsRead(fmt, schema, es[..m]);
      EntryIsRead(fmt, es);
      ReadsThen(fmt, START, PrintAll(schema, es[..m]), AfterEntries(es[..m]), PrintSymbol(es[m].symbol, es[m].contract),
        AfterEntries(es));
    }
  }

  /** Parsing what was printed gives back what was printed. */
  lemma {:induction false} PrintedReadsBack(fmt: Format, schema: string, es: seq<Named>)
    requires SchemaIs(fmt, schema) && PrintableEntries(fmt, es)
    ensures FileLines(RenderAll(PrintAll(schema, es))) &&
      Parsed(fmt, RenderAll(PrintAll(schema, es))) == Some(MapOf(es))
  {
    FileIsRead(fmt, schema, es);
    ReadsMeansSteps(fmt, START, PrintAll(schema, es), AfterEntries(es));
    PrintedAreFileLines(fmt, START, PrintAll(schema, es), AfterEntries(es));
    LastIsFinished(fmt, es);
  }

  lemma {:induction false} OneMore(fmt: Format, es: seq<Named>, e: Named)
    requires PrintableEntries(fmt, es) && Clean(e.symbol) && WellFormed(fmt, e.contract) && e.symbol !in SymbolsOf(es)
    ensures PrintableEntries(fmt, es + [e]) && MapOf(es + [e]) == MapOf(es)[e.symbol := e.contract]
    ensures SymbolsOf(es + [e]) == SymbolsOf(es) + {e.symbol}
  {
    var all := es + [e];
    assert all[..|all| - 1] == es;
    forall i | 0 <= i < |es| ensures es[i].symbol != e.symbol { assert es[i] in es; }
  }

  function Restricted(out: map<string, Contract>, keys: set<string>): map<string, Contract> {
    map s | s in keys && s in out :: out[s]
  }

  lemma {:induction false} RestrictedNext(out: map<string, Contract>, keys: set<string>, s: string)
    requires s in keys && s in out
    ensures Restricted(out, keys - {s})[s := out[s]] == Restricted(out, keys)
  {
  }

  /** Any legal map can be listed. */
  lemma {:induction false} Listed(fmt: Format, out: map<string, Contract>, keys: set<string>) returns (es: seq<Named>)
    requires Legal(fmt, out) && keys <= out.Keys
    ensures PrintableEntries(fmt, es) && MapOf(es) == Restricted(out, keys) && SymbolsOf(es) == keys
    decreases |keys|
  {
    es := [];
    if keys != {} {
      var s :| s in keys;
      var rest := Listed(fmt, out, keys - {s});
      es := rest + [Named(s, out[s])];
      OneMore(fmt, rest, Named(s, out[s]));
      RestrictedNext(out, keys, s);
    }
  }

  /** A map of contracts is what some file says exactly when it is legal. */
  lemma {:induction false} ExactlyLegalMapsAreStated(fmt: Format, schema: string, out: map<string, Contract>)
    requires SchemaIs(fmt, schema)
    ensures (exists lines :: FileLines(lines) && Parsed(fmt, lines) == Some(out)) <==> Legal(fmt, out)
  {
    if Legal(fmt, out) {
      var es := Listed(fmt, out, out.Keys);
      assert Restricted(out, out.Keys) == out;
      PrintedReadsBack(fmt, schema, es);
    } else if lines :| FileLines(lines) && Parsed(fmt, lines) == Some(out) {
      AcceptedIsLegal(fmt, lines);
    }
  }
}
