/** The contract-file parser: a line-by-line state machine over indentation and keys. */
module ContractFile {
  import opened Options
  import opened ContractText
  import opened Effects
  import opened OutOwners

  datatype Produced = Produced(param: nat, owner: OutOwner)

  /** A fact that the file does not state is `None`. */
  datatype Contract = Contract(
    result: Option<ReturnEffect>, borrowArg: Option<nat>, params: seq<Option<ParamEffect>>, outOwner: Option<Produced>)

  const NO_FACTS := Contract(None, None, [], None)

  /** Two kinds of files share the parser; they differ in their schema line and in whether out-owner
      effects are part of the vocabulary. */
  datatype Format = Format(schemaLine: string, allowOutOwner: bool)

  // ---------------------------------------------------------------------------------------------
  // The state
  // ---------------------------------------------------------------------------------------------

  datatype Header = Header(schema: bool, name: bool, version: bool, symbols: bool, platform: bool)

  /** The `output:` block of an out-owner effect. `awaited`: it must start on the next line; `inside`:
      its lines are being read. `legacy`: a `nullable:` key was seen outside it. */
  datatype OutputBlock = OutputBlock(
    awaited: bool, inside: bool, write: bool, success: bool, nullable: bool, legacy: bool, owner: Option<Produced>)

  const NO_BLOCK := OutputBlock(false, false, false, false, false, false, None)

  /** The symbol being read. */
  datatype Entry = Entry(
    symbol: string, contract: Contract, indices: set<nat>, effects: set<nat>, lastIndex: Option<nat>, kind: bool,
    block: OutputBlock)

  datatype State = State(
    out: map<string, Contract>, seen: set<string>, header: Header, notes: bool, entry: Option<Entry>)

  const START := State(map[], {}, Header(false, false, false, false, false), false, None)

  // ---------------------------------------------------------------------------------------------
  // The end of a symbol
  // ---------------------------------------------------------------------------------------------

  /** `write:` is mandatory, and `success:` goes exactly with `write: on_success`. */
  predicate BlockComplete(b: OutputBlock) {
    b.write && (b.owner.Some? ==> b.owner.value.owner.writeOnSuccess == b.success)
  }

  predicate CanFinish(e: Entry) {
    && e.kind && |e.indices| == |e.effects|
    && (e.contract.result.Some? ==> (e.contract.result.value == BorrowFromArg <==> e.contract.borrowArg.Some?))
    && !e.block.awaited && (e.block.inside ==> BlockComplete(e.block))
    && (e.block.owner.Some? ==> BlockComplete(e.block) && !e.block.legacy)
  }

  /** Enters the symbol that has been read, if any. */
  function Finish(st: State): Option<State> {
    if st.entry.None? then Some(st)
    else
      var e := st.entry.value;
      if !CanFinish(e) then None
      else
        var c := if e.block.owner.Some? then e.contract.(outOwner := e.block.owner) else e.contract;
        Some(st.(out := st.out[e.symbol := c]))
  }

  function StartSymbol(st: State, symbol: string): Option<State> {
    if symbol == "" || symbol in st.seen then None
    else Some(st.(seen := st.seen + {symbol}, entry := Some(Entry(symbol, NO_FACTS, {}, {}, None, false, NO_BLOCK))))
  }

  // ---------------------------------------------------------------------------------------------
  // Lines before the first symbol
  // ---------------------------------------------------------------------------------------------

  predicate Bracketed(v: string) { |v| >= 2 && v[0] == '[' && v[|v| - 1] == ']' }

  function HeaderLine(fmt: Format, st: State, indent: nat, w: Words): Option<State> {
    var h := st.header;
    match w.key
    case Some(Schema) => if indent != 0 || h.schema || w.whole != fmt.schemaLine then None
      else Some(st.(header := h.(schema := true)))
    case Some(NameKey) => if indent != 0 || h.name || w.value == "" then None else Some(st.(header := h.(name := true)))
    case Some(Version) => if indent != 0 || h.version || w.value == "" then None
      else Some(st.(header := h.(version := true)))
    case Some(Symbols) =>
      if w.rest != "" || indent != 0 || h.symbols then None
      else Some(st.(header := h.(symbols := true, platform := false)))
    case Some(Symbol) =>
      if indent != 2 || !h.symbols || !h.schema || !h.name || !h.version then None else StartSymbol(st, w.value)
    case Some(Platform) => if w.rest != "" || indent != 0 then None else Some(st.(header := h.(platform := true)))
    case Some(Os) => if !h.platform || indent != 2 || !Bracketed(w.value) then None else Some(st)
    case Some(Libc) => if !h.platform || indent != 2 || !Bracketed(w.value) then None else Some(st)
    case Some(Provenance) => if indent != 0 || w.value != "{}" then None else Some(st)
    case _ => None
  }

  // ---------------------------------------------------------------------------------------------
  // Lines of a symbol
  // ---------------------------------------------------------------------------------------------

  function ResultOf(v: string): Option<ReturnEffect> {
    if v == "owned" then Some(Owned)
    else if v == "borrowed" then Some(BorrowFromArg)
    else if v == "none" then Some(NoReturn)
    else if v == "unknown" then Some(UnknownReturn)
    else None
  }

  function EffectOf(v: string): Option<ParamEffect> {
    if v == "borrow" || v == "borrow_shared" then Some(Borrows)
    else if v == "consumes" then Some(TakesOwnership)
    else if v == "destroys" then Some(Destroys)
    else if v == "no_ownership_effect" then Some(NoEffect)
    else if v == "unknown" then Some(UnknownEffect)
    else None
  }

  const PRODUCES := "produces_out_owner"

  function ResultLine(e: Entry, indent: nat, v: string): Option<Entry> {
    if indent != 6 || ResultOf(v).None? || e.contract.result.Some? then None
    else Some(e.(contract := e.contract.(result := ResultOf(v))))
  }

  function FromParamLine(e: Entry, indent: nat, v: string): Option<Entry> {
    if indent != 8 || e.contract.borrowArg.Some? || ParseUnsigned(v).None? then None
    else Some(e.(contract := e.contract.(borrowArg := ParseUnsigned(v))))
  }

  /** The first `n` entries, `None` where there are none. */
  function Resized(params: seq<Option<ParamEffect>>, n: nat): (r: seq<Option<ParamEffect>>)
    ensures |r| == if |params| < n then n else |params|
    ensures forall i :: 0 <= i < |r| ==> r[i] == if i < |params| then params[i] else None
  {
    if |params| < n then params + seq(n - |params|, _ => None) else params
  }

  /** The largest 32-bit index has no place in the table, whose size would wrap around to 0. */
  function IndexLine(e: Entry, indent: nat, v: string): Option<Entry> {
    if indent != 6 || ParseUnsigned(v).None? then None
    else
      var i := ParseUnsigned(v).value;
      if i in e.indices || i == MAX_UNSIGNED then None
      else Some(e.(indices := e.indices + {i}, lastIndex := Some(i),
        contract := e.contract.(params := Resized(e.contract.params, i + 1)[i := None])))
  }

  function EffectLine(fmt: Format, e: Entry, indent: nat, v: string): Option<Entry> {
    if indent != 8 || e.lastIndex.None? || e.lastIndex.value >= |e.contract.params| || e.lastIndex.value in e.effects
      then None
    else
      var i := e.lastIndex.value;
      var e1 := e.(effects := e.effects + {i});
      if v == PRODUCES then
        if !fmt.allowOutOwner || e.block.owner.Some? then None
        else Some(e1.(
          contract := e.contract.(params := e.contract.params[i := None]),
          block := e.block.(awaited := true, owner := Some(Produced(i, OutOwner(false, false, true))))))
      else if EffectOf(v).None? then None
      else Some(e1.(contract := e.contract.(params := e.contract.params[i := EffectOf(v)])))
  }

  predicate OpensBlock(v: string) { v == ">-" || v == ">" || v == "|" || v == "|-" || v == "|+" }

  function WithEntry(st: State, e: Option<Entry>): Option<State> {
    if e.Some? then Some(st.(entry := e)) else None
  }

  /** Keys without a meaning of their own must still be where they belong. */
  predicate InPlace(k: Key, indent: nat, w: Words) {
    match k
    case Returns => w.rest == "" && indent == 4
    case Params => w.rest == "" && indent == 4
    case ConditionalEffects => w.rest == "" && indent == 4
    case Callbacks => w.rest == "" && indent == 4
    case Lifetime => w.rest == "" && indent == 6
    case BorrowKind => indent == 6 && w.value == "shared"
    case AllocationFamily => indent == 6 || indent == 8
    case _ => false
  }

  function SymbolLine(fmt: Format, st: State, indent: nat, w: Words): Option<State>
    requires st.entry.Some?
  {
    var e := st.entry.value;
    match w.key
    case Some(Symbol) =>
      if indent != 2 then None
      else
        var done := Finish(st);
        if done.None? then None else StartSymbol(done.value, w.value)
    case Some(Ownership) => WithEntry(st, ResultLine(e, indent, w.value))
    case Some(FromParam) => WithEntry(st, FromParamLine(e, indent, w.value))
    case Some(Index) => WithEntry(st, IndexLine(e, indent, w.value))
    case Some(DashIndex) => WithEntry(st, IndexLine(e, indent, w.value))
    case Some(Effect) => WithEntry(st, EffectLine(fmt, e, indent, w.value))
    case Some(KindKey) => if w.rest != " function" || indent != 4 || e.kind then None
      else Some(st.(entry := Some(e.(kind := true))))
    case Some(Notes) => if indent != 4 then None else Some(st.(notes := OpensBlock(w.value)))
    case Some(Nullable) => if indent != 6 then None else Some(st.(entry := Some(e.(block := e.block.(legacy := true)))))
    case Some(k) => if InPlace(k, indent, w) then Some(st) else None
    case None => None
  }

  function OwnerOf(b: OutputBlock): OutOwner {
    if b.owner.Some? then b.owner.value.owner else OutOwner(false, false, true)
  }

  function SetOwner(b: OutputBlock, o: OutOwner): OutputBlock {
    if b.owner.Some? then b.(owner := Some(Produced(b.owner.value.param, o))) else b
  }

  function WriteLine(b: OutputBlock, v: string): Option<OutputBlock> {
    if b.write || (v != "always" && v != "on_success") then None
    else Some(SetOwner(b, OwnerOf(b).(writeOnSuccess := v == "on_success")).(write := true))
  }

  function SuccessLine(b: OutputBlock, v: string): Option<OutputBlock> {
    if b.success || (v != "zero" && v != "nonzero") then None
    else Some(SetOwner(b, OwnerOf(b).(successNonzero := v == "nonzero")).(success := true))
  }

  function NullableLine(b: OutputBlock, v: string): Option<OutputBlock> {
    if b.nullable || (v != "true" && v != "false") then None
    else Some(SetOwner(b, OwnerOf(b).(nullable := v == "true")).(nullable := true))
  }

  /** A line of the `output:` block. */
  function OutputLine(b: OutputBlock, w: Words): Option<OutputBlock> {
    match w.key
    case Some(Write) => WriteLine(b, w.value)
    case Some(Success) => SuccessLine(b, w.value)
    case Some(Nullable) => NullableLine(b, w.value)
    case _ => None
  }

  function WithBlock(st: State, b: OutputBlock): State
    requires st.entry.Some?
  {
    st.(entry := Some(st.entry.value.(block := b)))
  }

  function BodyLine(fmt: Format, st: State, indent: nat, w: Words): Option<State> {
    if st.entry.None? then HeaderLine(fmt, st, indent, w) else SymbolLine(fmt, st, indent, w)
  }

  /** A line with something on it, outside notes. */
  function TextLine(fmt: Format, st: State, indent: nat, w: Words): Option<State> {
    var b := if st.entry.Some? then st.entry.value.block else NO_BLOCK;
    if b.awaited then
      if indent != 8 || !(w.key == Some(Output) && w.rest == "") then None
        else Some(WithBlock(st, b.(awaited := false, inside := true)))
    else if b.inside && indent == 10 then
      var next := OutputLine(b, w);
      if next.None? then None else Some(WithBlock(st, next.value))
    else if b.inside then
      if indent > 8 || !BlockComplete(b) then None else BodyLine(fmt, WithBlock(st, b.(inside := false)), indent, w)
    else BodyLine(fmt, st, indent, w)
  }

  function Step(fmt: Format, st: State, line: string): Option<State> {
    match Lex(line)
    case Ignored => Some(st)
    case TabIndented => None
    case Text(indent, t) =>
      if st.notes && indent >= 6 then Some(st) else TextLine(fmt, st.(notes := false), indent, Read(t))
  }

  function Steps(fmt: Format, st: State, lines: seq<string>): Option<State> {
    if lines == [] then Some(st)
    else
      var before := Steps(fmt, st, lines[..|lines| - 1]);
      if before.None? then None else Step(fmt, before.value, lines[|lines| - 1])
  }

  /** At the end of the file the header must be complete and the last symbol must finish. */
  function Close(st: State): Option<map<string, Contract>> {
    var h := st.header;
    if !(h.schema && h.name && h.version && h.symbols) || Finish(st).None? then None else Some(Finish(st).value.out)
  }

  function Parsed(fmt: Format, lines: seq<string>): Option<map<string, Contract>> {
    var st := Steps(fmt, START, lines);
    if st.None? then None else Close(st.value)
  }

  /** Reads a file line by line and stops at the first line that does not fit. */
  method ParseSymbolFacts(fmt: Format, lines: seq<string>) returns (out: Option<map<string, Contract>>)
    ensures out == Parsed(fmt, lines)
  {
    var st := START;
    for i := 0 to |lines|
      invariant Steps(fmt, START, lines[..i]) == Some(st)
    {
      var next := Step(fmt, st, lines[i]);
      StepsNext(fmt, START, lines, i);
      if next.None? {
        FailsForGood(fmt, START, lines, i + 1);
        return None;
      }
      st := next.value;
    }
    assert lines[..|lines|] == lines;
    out := Close(st);
  }

  lemma {:induction false} StepsNext(fmt: Format, st: State, lines: seq<string>, i: nat)
    requires i < |lines|
    ensures Steps(fmt, st, lines[..i + 1]) ==
      if Steps(fmt, st, lines[..i]).None? then None else Step(fmt, Steps(fmt, st, lines[..i]).value, lines[i])
  {
    assert lines[..i + 1][..i] == lines[..i];
  }

  lemma {:induction false} FailsForGood(fmt: Format, st: State, lines: seq<string>, i: nat)
    requires i <= |lines| && Steps(fmt, st, lines[..i]).None?
    ensures Steps(fmt, st, lines).None?
    decreases |lines| - i
  {
    if i < |lines| {
      StepsNext(fmt, st, lines, i);
      FailsForGood(fmt, st, lines, i + 1);
    } else {
      assert lines[..i] == lines;
    }
  }
}
