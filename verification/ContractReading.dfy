/** What a contract file says, read off its lines: which files are accepted, and which contracts they state.
    Nothing here mentions the parser's state. */
module ContractReading {
  import opened Options
  import opened ContractText
  import opened Effects
  import opened OutOwners
  import opened ContractFile

  // ---------------------------------------------------------------------------------------------
  // The lines that count
  // ---------------------------------------------------------------------------------------------

  datatype Logical = Logical(indent: nat, w: Words)

  predicate IsKey(l: Logical, k: Key) { l.w.key == Some(k) }

  predicate OpensNotes(l: Logical) { IsKey(l, Notes) && l.w.value in {">-", ">", "|", "|-", "|+"} }

  /** The line as it counts. */
  function LogicalOf(line: Line): Logical
    requires line.Text?
  {
    Logical(line.indent, Read(line.t))
  }

  /** A block of notes goes on as long as its lines are indented by 6 at least. */
  predicate NotesAfter(notes: bool, line: Line) {
    match line
    case Ignored => notes
    case TabIndented => false
    case Text(indent, _) => (notes && indent >= 6) || OpensNotes(LogicalOf(line))
  }

  predicate InNotes(lines: seq<string>) {
    lines != [] && NotesAfter(InNotes(lines[..|lines| - 1]), Lex(lines[|lines| - 1]))
  }

  predicate Counts(notes: bool, line: Line) { line.Text? && !(notes && line.indent >= 6) }

  /** Blank lines, comments and notes do not count. */
  function Logicals(lines: seq<string>): seq<Logical> {
    if lines == [] then []
    else
      var init, line := lines[..|lines| - 1], Lex(lines[|lines| - 1]);
      Logicals(init) + if Counts(InNotes(init), line) then [LogicalOf(line)] else []
  }

  predicate Untabbed(lines: seq<string>) { forall k :: 0 <= k < |lines| ==> !Lex(lines[k]).TabIndented? }

  // ---------------------------------------------------------------------------------------------
  // The vocabulary
  // ---------------------------------------------------------------------------------------------

  predicate SpellsResult(v: string, r: ReturnEffect) {
    match r
    case Owned => v == "owned"
    case BorrowFromArg => v == "borrowed"
    case NoReturn => v == "none"
    case UnknownReturn => v == "unknown"
  }

  predicate SpellsEffect(v: string, e: ParamEffect) {
    match e
    case Borrows => v == "borrow" || v == "borrow_shared"
    case TakesOwnership => v == "consumes"
    case Destroys => v == "destroys"
    case NoEffect => v == "no_ownership_effect"
    case UnknownEffect => v == "unknown"
  }

  predicate Has(ls: seq<Logical>, k: Key) { exists j :: 0 <= j < |ls| && IsKey(ls[j], k) }

  predicate HasText(ls: seq<Logical>, k: Key, v: string) {
    exists j :: 0 <= j < |ls| && IsKey(ls[j], k) && ls[j].w.value == v
  }

  predicate IsIndex(l: Logical) { IsKey(l, Index) || IsKey(l, DashIndex) }

  predicate IsProducing(l: Logical) { IsKey(l, Effect) && l.w.value == PRODUCES }

  function Number(l: Logical): Option<nat> { ParseUnsigned(l.w.value) }

  // ---------------------------------------------------------------------------------------------
  // The lines of a symbol
  // ---------------------------------------------------------------------------------------------

  predicate Produces(ls: seq<Logical>) { exists j :: 0 <= j < |ls| && IsProducing(ls[j]) }

  /** The last line announces an `output:` block. */
  predicate Awaits(ls: seq<Logical>) { ls != [] && IsProducing(ls[|ls| - 1]) }

  /** The last line is part of one; only such lines are indented by 10. */
  predicate InBlock(ls: seq<Logical>) { ls != [] && (IsKey(ls[|ls| - 1], Output) || ls[|ls| - 1].indent == 10) }

  /** `write:` is there, and `success:` is if and only if that says `on_success`. */
  predicate BlockDone(ls: seq<Logical>) { Has(ls, Write) && (HasText(ls, Write, "on_success") <==> Has(ls, Success)) }

  predicate IsBlockNullable(l: Logical) { IsKey(l, Nullable) && l.indent == 10 }

  predicate IsLegacy(l: Logical) { IsKey(l, Nullable) && l.indent != 10 }

  predicate HasLegacy(ls: seq<Logical>) { exists j :: 0 <= j < |ls| && IsLegacy(ls[j]) }

  predicate HasNullable(ls: seq<Logical>) { exists j :: 0 <= j < |ls| && IsBlockNullable(ls[j]) }

  predicate NeverNull(ls: seq<Logical>) {
    exists j :: 0 <= j < |ls| && IsBlockNullable(ls[j]) && ls[j].w.value == "false"
  }

  /** The place of the last index. */
  function LastIndex(ls: seq<Logical>): (r: Option<nat>)
    ensures r.Some? ==> r.value < |ls| && IsIndex(ls[r.value])
    ensures forall j :: 0 <= j < |ls| && IsIndex(ls[j]) ==> r.Some? && j <= r.value
  {
    if ls == [] then None
    else if IsIndex(ls[|ls| - 1]) then Some(|ls| - 1)
    else LastIndex(ls[..|ls| - 1])
  }

  /** Line `k` is the effect of index `i`. */
  predicate EffectFor(ls: seq<Logical>, k: nat, i: nat) {
    k < |ls| && IsKey(ls[k], Effect) && LastIndex(ls[..k]).Some? && Number(ls[LastIndex(ls[..k]).value]) == Some(i)
  }

  predicate Indexed(ls: seq<Logical>, i: nat) {
    exists j :: 0 <= j < |ls| && IsIndex(ls[j]) && Number(ls[j]) == Some(i)
  }

  ghost predicate Effected(ls: seq<Logical>, i: nat) { exists k :: EffectFor(ls, k, i) }

  /** There is an index that has no effect yet. */
  predicate Lacks(ls: seq<Logical>) {
    LastIndex(ls).Some? && forall k :: LastIndex(ls).value < k < |ls| ==> !IsKey(ls[k], Effect)
  }

  /** A line of an `output:` block. */
  predicate BlockLineFits(before: seq<Logical>, l: Logical) {
    match l.w.key
    case Some(Write) => l.w.value in {"always", "on_success"} && !Has(before, Write)
    case Some(Success) => l.w.value in {"zero", "nonzero"} && !Has(before, Success)
    case Some(Nullable) => l.w.value in {"true", "false"} && !HasNullable(before)
    case _ => false
  }

  /** Any other line of a symbol. */
  predicate FactLineFits(fmt: Format, before: seq<Logical>, l: Logical) {
    match l.w.key
    case Some(KindKey) => l.indent == 4 && l.w.rest == " function" && !Has(before, KindKey)
    case Some(Ownership) => l.indent == 6 && !Has(before, Ownership) && exists r :: SpellsResult(l.w.value, r)
    case Some(FromParam) => l.indent == 8 && !Has(before, FromParam) && Number(l).Some?
    case Some(Index) => IndexFits(before, l)
    case Some(DashIndex) => IndexFits(before, l)
    case Some(Effect) => l.indent == 8 && Lacks(before) &&
      if IsProducing(l) then fmt.allowOutOwner && !Produces(before) else exists e :: SpellsEffect(l.w.value, e)
    case Some(Returns) => l.indent == 4 && l.w.rest == ""
    case Some(Params) => l.indent == 4 && l.w.rest == ""
    case Some(ConditionalEffects) => l.indent == 4 && l.w.rest == ""
    case Some(Callbacks) => l.indent == 4 && l.w.rest == ""
    case Some(Notes) => l.indent == 4
    case Some(Lifetime) => l.indent == 6 && l.w.rest == ""
    case Some(BorrowKind) => l.indent == 6 && l.w.value == "shared"
    case Some(Nullable) => l.indent == 6
    case Some(AllocationFamily) => l.indent in {6, 8}
    case _ => false
  }

  /** A new index; the largest has no place in the table. */
  predicate IndexFits(before: seq<Logical>, l: Logical) {
    l.indent == 6 && Number(l).Some? && Number(l).value != MAX_UNSIGNED && !Indexed(before, Number(l).value)
  }

  /** The line can follow the lines before it. */
  predicate NextFits(fmt: Format, before: seq<Logical>, l: Logical) {
    if Awaits(before) then l.indent == 8 && IsKey(l, Output) && l.w.rest == ""
    else if InBlock(before) && l.indent == 10 then BlockLineFits(before, l)
    else (InBlock(before) ==> l.indent <= 8 && BlockDone(before)) && FactLineFits(fmt, before, l)
  }

  /** Nothing is missing: the kind is there, every index has its effect, a result is borrowed exactly if its
      source is named, and an out-owner has its block, and no `nullable:` outside it. */
  ghost predicate Complete(body: seq<Logical>) {
    && Has(body, KindKey) && (forall i :: Indexed(body, i) ==> Effected(body, i))
    && (Has(body, Ownership) ==> (HasText(body, Ownership, "borrowed") <==> Has(body, FromParam)))
    && !Awaits(body) && (Produces(body) ==> BlockDone(body) && !HasLegacy(body))
  }

  // ---------------------------------------------------------------------------------------------
  // What they say
  // ---------------------------------------------------------------------------------------------

  predicate SaysResult(ls: seq<Logical>, result: Option<ReturnEffect>) {
    && (result.Some? <==> Has(ls, Ownership))
    && forall j ::
      0 <= j < |ls| && IsKey(ls[j], Ownership) ==> result.Some? && SpellsResult(ls[j].w.value, result.value)
  }

  predicate SaysSource(ls: seq<Logical>, source: Option<nat>) {
    && (source.Some? <==> Has(ls, FromParam))
    && forall j :: 0 <= j < |ls| && IsKey(ls[j], FromParam) ==> source.Some? && Number(ls[j]) == source
  }

  predicate ReachesIndex(ls: seq<Logical>, i: nat) {
    exists j :: 0 <= j < |ls| && IsIndex(ls[j]) && Number(ls[j]).Some? && i <= Number(ls[j]).value
  }

  ghost predicate HasEffect(ls: seq<Logical>, i: nat, e: ParamEffect) {
    exists k: nat :: EffectFor(ls, k, i) && !IsProducing(ls[k]) && SpellsEffect(ls[k].w.value, e)
  }

  /** The table is as long as the largest index needs, and holds the effect of every index that has one. */
  ghost predicate SaysParams(ls: seq<Logical>, params: seq<Option<ParamEffect>>) {
    && (forall i :: 0 <= i < |params| <==> 0 <= i && ReachesIndex(ls, i))
    && forall i, e :: 0 <= i < |params| ==> (params[i] == Some(e) <==> HasEffect(ls, i, e))
  }

  function SaidOwner(ls: seq<Logical>): OutOwner {
    OutOwner(HasText(ls, Write, "on_success"), HasText(ls, Success, "nonzero"), !NeverNull(ls))
  }

  predicate SaysOwner(ls: seq<Logical>, owner: Option<Produced>) {
    && (owner.Some? <==> Produces(ls))
    && forall k :: 0 <= k < |ls| && IsProducing(ls[k]) ==>
         owner.Some? && EffectFor(ls, k, owner.value.param) && owner.value.owner == SaidOwner(ls)
  }

  ghost predicate Says(ls: seq<Logical>, c: Contract) {
    SaysResult(ls, c.result) && SaysSource(ls, c.borrowArg) && SaysParams(ls, c.params) && SaysOwner(ls, c.outOwner)
  }

  // ---------------------------------------------------------------------------------------------
  // The lines before the first symbol
  // ---------------------------------------------------------------------------------------------

  /** A platform is being described. */
  predicate PlatformOpen(ls: seq<Logical>) {
    ls != [] && (IsKey(ls[|ls| - 1], Platform) || (!IsKey(ls[|ls| - 1], Symbols) && PlatformOpen(ls[..|ls| - 1])))
  }

  predicate InBrackets(v: string) { |v| >= 2 && v[0] == '[' && v[|v| - 1] == ']' }

  predicate HeaderLineFits(fmt: Format, before: seq<Logical>, l: Logical) {
    match l.w.key
    case Some(Schema) => l.indent == 0 && l.w.whole == fmt.schemaLine && !Has(before, Schema)
    case Some(NameKey) => l.indent == 0 && l.w.value != "" && !Has(before, NameKey)
    case Some(Version) => l.indent == 0 && l.w.value != "" && !Has(before, Version)
    case Some(Symbols) => l.indent == 0 && l.w.rest == "" && !Has(before, Symbols)
    case Some(Platform) => l.indent == 0 && l.w.rest == ""
    case Some(Os) => l.indent == 2 && PlatformOpen(before) && InBrackets(l.w.value)
    case Some(Libc) => l.indent == 2 && PlatformOpen(before) && InBrackets(l.w.value)
    case Some(Provenance) => l.indent == 0 && l.w.value == "{}"
    case _ => false
  }

  predicate HeaderDone(ls: seq<Logical>) { Has(ls, Schema) && Has(ls, NameKey) && Has(ls, Version) && Has(ls, Symbols) }

  // ---------------------------------------------------------------------------------------------
  // Whole files
  // ---------------------------------------------------------------------------------------------

  /** The lines of the current symbol, before line `n`. */
  function BodyBefore(ls: seq<Logical>, n: nat): seq<Logical>
    requires n <= |ls|
  {
    if n == 0 || IsKey(ls[n - 1], Symbol) then [] else BodyBefore(ls, n - 1) + [ls[n - 1]]
  }

  /** Its name. */
  function SymbolBefore(ls: seq<Logical>, n: nat): Option<string>
    requires n <= |ls|
  {
    if n == 0 then None else if IsKey(ls[n - 1], Symbol) then Some(ls[n - 1].w.value) else SymbolBefore(ls, n - 1)
  }

  predicate SymbolLineFits(before: seq<Logical>, l: Logical) {
    l.indent == 2 && l.w.value != "" && !HasText(before, Symbol, l.w.value)
  }

  /** A symbol can begin when the header, or the symbol before it, is complete. */
  ghost predicate LineFits(fmt: Format, ls: seq<Logical>, n: nat)
    requires n < |ls|
  {
    if SymbolBefore(ls, n).None? then
      if IsKey(ls[n], Symbol) then HeaderDone(ls[..n]) && SymbolLineFits(ls[..n], ls[n])
      else HeaderLineFits(fmt, ls[..n], ls[n])
    else if IsKey(ls[n], Symbol) then Complete(BodyBefore(ls, n)) && SymbolLineFits(ls[..n], ls[n])
    else NextFits(fmt, BodyBefore(ls, n), ls[n])
  }

  ghost predicate FileFits(fmt: Format, ls: seq<Logical>) {
    && (forall n :: 0 <= n < |ls| ==> LineFits(fmt, ls, n))
    && (if SymbolBefore(ls, |ls|).None? then HeaderDone(ls) else Complete(BodyBefore(ls, |ls|)))
  }

  /** The lines of a symbol end where the next one begins, or with the file. */
  predicate EndsSymbol(ls: seq<Logical>, n: nat) {
    n <= |ls| && SymbolBefore(ls, n).Some? && (n == |ls| || IsKey(ls[n], Symbol))
  }

  /** Exactly the symbols of the file have a contract, and each has the one that its lines state. */
  ghost predicate States(ls: seq<Logical>, out: map<string, Contract>) {
    && (forall s :: s in out <==> HasText(ls, Symbol, s))
    && forall n :: EndsSymbol(ls, n) ==>
         SymbolBefore(ls, n).value in out && Says(BodyBefore(ls, n), out[SymbolBefore(ls, n).value])
  }
}
