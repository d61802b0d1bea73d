/** The parser accepts exactly the files that fit, and reads from each exactly the contracts that its lines
    state. */
module ContractExact {
  import opened Options
  import opened ContractText
  import opened OutOwners
  import opened ContractFile
  import opened ContractReading

  // ---------------------------------------------------------------------------------------------
  // Lines that do not count
  // ---------------------------------------------------------------------------------------------

  function Quiet(st: State): State { st.(notes := false) }

  function Take(fmt: Format, st: State, l: Logical): Option<State> { TextLine(fmt, Quiet(st), l.indent, l.w) }

  function Run(fmt: Format, ls: seq<Logical>): Option<State> {
    if ls == [] then Some(START)
    else
      var before := Run(fmt, ls[..|ls| - 1]);
      if before.None? then None else Take(fmt, before.value, ls[|ls| - 1])
  }

  lemma NotesFlag(fmt: Format, st: State, l: Logical)
    requires Take(fmt, st, l).Some?
    ensures Take(fmt, st, l).value.notes <==> OpensNotes(l)
  {
  }

  function StepLine(fmt: Format, st: State, line: Line): Option<State> {
    match line
    case Ignored => Some(st)
    case TabIndented => None
    case Text(_, _) => if Counts(st.notes, line) then Take(fmt, st, LogicalOf(line)) else Some(st)
  }

  lemma StepIsStepLine(fmt: Format, st: State, line: string)
    ensures Step(fmt, st, line) == StepLine(fmt, st, Lex(line))
  {
  }

  lemma LineNotes(fmt: Format, st: State, line: Line)
    requires StepLine(fmt, st, line).Some?
    ensures StepLine(fmt, st, line).value.notes <==> NotesAfter(st.notes, line)
  {
    if Counts(st.notes, line) { NotesFlag(fmt, st, LogicalOf(line)); }
  }

  /** What a line that counts does, does not depend on the flag. */
  lemma FlagDoesNotMatter(fmt: Format, a: State, b: State, l: Logical)
    requires Quiet(a) == Quiet(b)
    ensures Take(fmt, a, l) == Take(fmt, b, l)
  {
  }

  function Onward(fmt: Format, run: Option<State>, l: Logical): Option<State> {
    if run.None? then None else Take(fmt, run.value, l)
  }

  lemma RunNext(fmt: Format, ls: seq<Logical>, l: Logical)
    ensures Run(fmt, ls + [l]) == Onward(fmt, Run(fmt, ls), l)
  {
    assert (ls + [l])[..|ls + [l]| - 1] == ls;
  }

  predicate Matches(steps: Option<State>, untabbed: bool, run: Option<State>, notes: bool) {
    && (steps.Some? <==> untabbed && run.Some?)
    && (steps.Some? ==> Quiet(steps.value) == Quiet(run.value) && (steps.value.notes <==> notes))
  }

  lemma MatchesNext(fmt: Format, steps: Option<State>, untabbed: bool, run: Option<State>, notes: bool, line: Line)
    requires Matches(steps, untabbed, run, notes)
    ensures Matches(if steps.None? then None else StepLine(fmt, steps.value, line), untabbed && !line.TabIndented?,
      if Counts(notes, line) then Onward(fmt, run, LogicalOf(line)) else run, NotesAfter(notes, line))
  {
    if steps.Some? {
      if Counts(notes, line) { FlagDoesNotMatter(fmt, steps.value, run.value, LogicalOf(line)); }
      if StepLine(fmt, steps.value, line).Some? { LineNotes(fmt, steps.value, line); }
    }
  }

  lemma StepsOnward(fmt: Format, init: seq<string>, last: string)
    ensures var before := Steps(fmt, START, init);
      Steps(fmt, START, init + [last]) == if before.None? then None else StepLine(fmt, before.value, Lex(last))
  {
    assert (init + [last])[..|init + [last]| - 1] == init;
    if Steps(fmt, START, init).Some? { StepIsStepLine(fmt, Steps(fmt, START, init).value, last); }
  }

  lemma RunOnward(fmt: Format, init: seq<string>, last: string)
    ensures var notes, line, run := InNotes(init), Lex(last), Run(fmt, Logicals(init));
      Run(fmt, Logicals(init + [last])) ==
        if Counts(notes, line) then Onward(fmt, run, LogicalOf(line)) else run
  {
    assert (init + [last])[..|init + [last]| - 1] == init;
    if Counts(InNotes(init), Lex(last)) {
      RunNext(fmt, Logicals(init), LogicalOf(Lex(last)));
    } else {
      assert Logicals(init + [last]) == Logicals(init);
    }
  }

  lemma NotesOnward(init: seq<string>, last: string)
    ensures InNotes(init + [last]) == NotesAfter(InNotes(init), Lex(last))
    ensures Untabbed(init + [last]) <==> Untabbed(init) && !Lex(last).TabIndented?
  {
    assert (init + [last])[..|init + [last]| - 1] == init;
  }

  /** The parser reads the lines that count, and its flag says whether notes are going on. */
  lemma {:induction false} StepsAreRun(fmt: Format, lines: seq<string>)
    ensures Matches(Steps(fmt, START, lines), Untabbed(lines), Run(fmt, Logicals(lines)), InNotes(lines))
  {
    if lines != [] {
      var init, last := lines[..|lines| - 1], lines[|lines| - 1];
      assert lines == init + [last];
      StepsAreRun(fmt, init);
      StepsOnward(fmt, init, last);
      RunOnward(fmt, init, last);
      NotesOnward(init, last);
      MatchesNext(fmt, Steps(fmt, START, init), Untabbed(init), Run(fmt, Logicals(init)), InNotes(init), Lex(last));
    }
  }

  // ---------------------------------------------------------------------------------------------
  // One line of a symbol
  // ---------------------------------------------------------------------------------------------

  const COMPLETE_HEADER := Header(true, true, true, true, false)

  function Reading(e: Entry): State { State(map[], {}, COMPLETE_HEADER, false, Some(e)) }

  /** What a line does to the symbol being read. */
  function TakeFact(fmt: Format, e: Entry, l: Logical): Option<Entry> {
    var r := Take(fmt, Reading(e), l);
    if r.None? then None else r.value.entry
  }

  /** A line that is not part of an `output:` block. */
  function TakePlain(fmt: Format, e: Entry, l: Logical): Option<Entry> {
    var r := SymbolLine(fmt, Reading(e), l.indent, l.w);
    if r.None? then None else r.value.entry
  }

  function Closing(e: Entry): Entry { e.(block := e.block.(inside := false)) }

  function TakeBlock(e: Entry, l: Logical): Option<Entry> {
    var b := OutputLine(e.block, l.w);
    if b.None? then None else Some(e.(block := b.value))
  }

  lemma TakeFactIs(fmt: Format, e: Entry, l: Logical)
    requires !IsKey(l, Symbol)
    ensures TakeFact(fmt, e, l) ==
      if e.block.awaited then
        if l.indent == 8 && IsKey(l, Output) && l.w.rest == "" then
          Some(e.(block := e.block.(awaited := false, inside := true)))
        else None
      else if e.block.inside && l.indent == 10 then TakeBlock(e, l)
      else if e.block.inside && (l.indent > 8 || !BlockComplete(e.block)) then None
      else TakePlain(fmt, Closing(e), l)
  {
    assert Closing(e) == e || e.block.inside;
  }

  /** Lines inside a symbol touch nothing else. */
  lemma PlainIsTakePlain(fmt: Format, st: State, l: Logical)
    requires st.entry.Some? && !IsKey(l, Symbol)
    ensures var r, r' := SymbolLine(fmt, st, l.indent, l.w), TakePlain(fmt, st.entry.value, l);
      (r.Some? <==> r'.Some?) && (r.Some? ==> Quiet(r.value) == Quiet(st).(entry := r'))
  {
  }

  lemma TakeIsTakeFact(fmt: Format, st: State, l: Logical)
    requires st.entry.Some? && !IsKey(l, Symbol)
    ensures Take(fmt, st, l).Some? <==> TakeFact(fmt, st.entry.value, l).Some?
    ensures Take(fmt, st, l).Some? ==>
      Quiet(Take(fmt, st, l).value) == Quiet(st).(entry := TakeFact(fmt, st.entry.value, l))
  {
    var e := st.entry.value;
    TakeFactIs(fmt, e, l);
    var open := Quiet(st).(entry := Some(Closing(e)));
    if !e.block.awaited && !(e.block.inside && l.indent == 10) {
      assert Closing(e) == e || e.block.inside;
      PlainIsTakePlain(fmt, open, l);
    }
  }

  function Target(e: Entry): nat { if e.lastIndex.Some? then e.lastIndex.value else 0 }

  /** The facts about parameters after the line. */
  predicate TableChanges(e: Entry, l: Logical, e': Entry) {
    if IsIndex(l) then
      && Number(l).Some?
      && e'.indices == e.indices + {Number(l).value} && e'.lastIndex == Number(l) && e'.effects == e.effects
      && e'.contract.params == Resized(e.contract.params, Number(l).value + 1)[Number(l).value := None]
    else if IsKey(l, Effect) then
      && e.lastIndex.Some? && Target(e) < |e.contract.params|
      && e'.indices == e.indices && e'.lastIndex == e.lastIndex && e'.effects == e.effects + {Target(e)}
      && (IsProducing(l) || EffectOf(l.w.value).Some?)
      && e'.contract.params ==
           e.contract.params[Target(e) := if IsProducing(l) then None else EffectOf(l.w.value)]
    else
      && e'.indices == e.indices && e'.lastIndex == e.lastIndex && e'.effects == e.effects
      && e'.contract.params == e.contract.params
  }

  predicate ResultChanges(e: Entry, l: Logical, e': Entry) {
    && e'.symbol == e.symbol && e'.kind == (e.kind || IsKey(l, KindKey)) && e'.contract.outOwner == e.contract.outOwner
    && e'.contract.result == (if IsKey(l, Ownership) then ResultOf(l.w.value) else e.contract.result)
    && e'.contract.borrowArg == (if IsKey(l, FromParam) then Number(l) else e.contract.borrowArg)
  }

  predicate BlockChanges(e: Entry, l: Logical, e': Entry) {
    var b, b' := e.block, e'.block;
    && b'.awaited == IsProducing(l) && b'.inside == (IsKey(l, Output) || l.indent == 10)
    && b'.write == (b.write || IsKey(l, Write)) && b'.success == (b.success || IsKey(l, Success))
    && b'.nullable == (b.nullable || IsBlockNullable(l)) && b'.legacy == (b.legacy || IsLegacy(l))
  }

  function OwnerAfter(o: OutOwner, l: Logical): OutOwner {
    if IsKey(l, Write) then o.(writeOnSuccess := l.w.value == "on_success")
    else if IsKey(l, Success) then o.(successNonzero := l.w.value == "nonzero")
    else if IsBlockNullable(l) then o.(nullable := l.w.value == "true")
    else o
  }

  predicate OwnerChanges(e: Entry, l: Logical, e': Entry) {
    if IsProducing(l) then e'.block.owner == Some(Produced(Target(e), OutOwner(false, false, true)))
    else if e.block.owner.None? then e'.block.owner == None
    else e'.block.owner == Some(Produced(e.block.owner.value.param, OwnerAfter(e.block.owner.value.owner, l)))
  }

  predicate AllChanges(e: Entry, l: Logical, e': Entry) {
    TableChanges(e, l, e') && ResultChanges(e, l, e') && BlockChanges(e, l, e') && OwnerChanges(e, l, e')
  }

  lemma BlockLineTaken(e: Entry, l: Logical)
    requires l.indent == 10 && TakeBlock(e, l).Some? && e.block.inside && !e.block.awaited
    ensures AllChanges(e, l, TakeBlock(e, l).value)
  {
  }

  predicate Named(l: Logical) { IsIndex(l) || IsKey(l, Effect) || IsKey(l, Ownership) || IsKey(l, FromParam) }

  lemma IndexIs(fmt: Format, e: Entry, l: Logical)
    requires IsIndex(l)
    ensures TakePlain(fmt, e, l) == IndexLine(e, l.indent, l.w.value)
  {
  }

  lemma EffectIs(fmt: Format, e: Entry, l: Logical)
    requires IsKey(l, Effect)
    ensures TakePlain(fmt, e, l) == EffectLine(fmt, e, l.indent, l.w.value)
  {
  }

  lemma ResultIs(fmt: Format, e: Entry, l: Logical)
    ensures IsKey(l, Ownership) ==> TakePlain(fmt, e, l) == ResultLine(e, l.indent, l.w.value)
    ensures IsKey(l, FromParam) ==> TakePlain(fmt, e, l) == FromParamLine(e, l.indent, l.w.value)
  {
  }

  lemma IndexTaken(fmt: Format, e: Entry, l: Logical)
    requires IsIndex(l) && TakePlain(fmt, e, l).Some? && !e.block.inside && !e.block.awaited
    ensures AllChanges(e, l, TakePlain(fmt, e, l).value)
  {
    IndexIs(fmt, e, l);
  }

  lemma EffectTaken(fmt: Format, e: Entry, l: Logical)
    requires IsKey(l, Effect) && TakePlain(fmt, e, l).Some? && !e.block.inside && !e.block.awaited
    ensures AllChanges(e, l, TakePlain(fmt, e, l).value)
  {
    EffectIs(fmt, e, l);
  }

  lemma ResultTaken(fmt: Format, e: Entry, l: Logical)
    requires IsKey(l, Ownership) || IsKey(l, FromParam)
    requires TakePlain(fmt, e, l).Some? && !e.block.inside && !e.block.awaited
    ensures AllChanges(e, l, TakePlain(fmt, e, l).value)
  {
    ResultIs(fmt, e, l);
  }

  lemma UnnamedTaken(fmt: Format, e: Entry, l: Logical)
    requires !Named(l) && !IsKey(l, Symbol) && TakePlain(fmt, e, l).Some? && !e.block.inside && !e.block.awaited
    ensures AllChanges(e, l, TakePlain(fmt, e, l).value)
  {
  }

  /** Every line that is taken changes what it should. */
  lemma Taken(fmt: Format, e: Entry, l: Logical)
    requires !IsKey(l, Symbol) && TakeFact(fmt, e, l).Some? && !(e.block.awaited && e.block.inside)
    ensures AllChanges(e, l, TakeFact(fmt, e, l).value)
  {
    TakeFactIs(fmt, e, l);
    if e.block.awaited {
    } else if e.block.inside && l.indent == 10 {
      BlockLineTaken(e, l);
    } else if IsIndex(l) {
      IndexTaken(fmt, Closing(e), l);
    } else if IsKey(l, Effect) {
      EffectTaken(fmt, Closing(e), l);
    } else if Named(l) {
      ResultTaken(fmt, Closing(e), l);
    } else {
      UnnamedTaken(fmt, Closing(e), l);
    }
  }
}
