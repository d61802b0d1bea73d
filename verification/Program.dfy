/** Programs as control-flow graphs, and what the two passes of the analysis compute over them. */
module Program {
  import opened Flow
  import opened Height
  import opened Options
  import opened Transfer
  import opened Bounded
  import L = Liveness

  ghost predicate ValidGraph(blocks: seq<Block>, entry: nat) {
    && entry < |blocks|
    && forall b, i :: 0 <= b < |blocks| && 0 <= i < |blocks[b].succs| && blocks[b].succs[i].Some? ==>
      blocks[b].succs[i].value < |blocks|
  }

  ghost predicate ProgramWithin(blocks: seq<Block>, w: Bounds) {
    forall b :: 0 <= b < |blocks| ==> BlockWithin(blocks[b], w)
  }

  /** Allocation sites are numbered from 1. */
  ghost predicate SitesNumbered(blocks: seq<Block>) {
    forall b, k :: 0 <= b < |blocks| && 0 <= k < |blocks[b].cmds| ==>
      && (blocks[b].cmds[k].Malloc? ==> 1 <= blocks[b].cmds[k].site)
      && (blocks[b].cmds[k].Produce? ==> 1 <= blocks[b].cmds[k].production.site)
  }

  predicate HasPredecessor(blocks: seq<Block>, b: nat) {
    exists p :: 0 <= p < |blocks| && Some(b) in blocks[p].succs
  }

  // ---------------------------------------------------------------------------------------------
  // Paths in the graph
  // ---------------------------------------------------------------------------------------------

  /** An edge from `p` to `c`; a plain one does not leave a loop head. */
  predicate Connects(blocks: seq<Block>, plain: bool, p: nat, c: nat) {
    p < |blocks| && Some(c) in blocks[p].succs && (plain ==> !blocks[p].loopHead)
  }

  /** A path of `n` edges, at least one, leads from `b` to `c`. */
  ghost predicate Leads(blocks: seq<Block>, plain: bool, b: nat, c: nat, n: nat)
    decreases n
  {
    n > 0 && if n == 1 then Connects(blocks, plain, b, c)
             else exists p: nat :: Leads(blocks, plain, b, p, n - 1) && Connects(blocks, plain, p, c)
  }

  ghost predicate Downstream(blocks: seq<Block>, plain: bool, b: nat, c: nat) {
    exists n: nat :: Leads(blocks, plain, b, c, n)
  }

  lemma DownstreamExtends(blocks: seq<Block>, plain: bool, b: nat, p: nat, c: nat)
    requires Connects(blocks, plain, p, c) && (p == b || Downstream(blocks, plain, b, p))
    ensures Downstream(blocks, plain, b, c)
  {
    if p == b {
      assert Leads(blocks, plain, b, c, 1);
    } else {
      var n: nat :| Leads(blocks, plain, b, p, n);
      assert Leads(blocks, plain, b, c, n + 1);
    }
  }

  // ---------------------------------------------------------------------------------------------
  // Borrow-liveness events
  // ---------------------------------------------------------------------------------------------

  /** The storages an element mentions as values; an assignment mentions its own target. */
  function Mentions(c: Cmd): set<Storage> {
    match c
    case Malloc(x, _, decl, _) => if decl then {} else {x}
    case SetNull(x, decl, _) => if decl then {} else {x}
    case Copy(x, y, decl, _) => if decl then {y} else {x, y}
    case Move(x, y, decl, _) => if decl then {y} else {x, y}
    case Borrow(_, y, _, _) => {y}
    case Declare(_) => {}
    case Free(x, _) => {x}
    case Deref(x, _) => {x}
    case Bump(x, _) => {x}
    case StoreScalar(x, decl) => if decl then {} else {x}
    case Produce(p, decl, _) => p.arguments + {p.dest} + (if p.result.Some? && !decl then {p.result.value} else {})
    case CallPoint => {}
    case Enclosing(vs) => vs
    case Opaque => {}
  }

  function Overwritten(c: Cmd): set<Storage> {
    match c
    case Malloc(x, _, _, _) => {x}
    case SetNull(x, _, _) => {x}
    case Copy(x, _, _, _) => {x}
    case Move(x, _, _, _) => {x}
    case Borrow(x, _, _, _) => {x}
    case Declare(x) => {x}
    case Bump(x, _) => {x}
    case StoreScalar(x, decl) => if decl then {} else {x}
    case Produce(p, decl, _) => if p.result.Some? && !decl then {p.result.value} else {}
    case Free(_, _) => {}
    case Deref(_, _) => {}
    case CallPoint => {}
    case Enclosing(_) => {}
    case Opaque => {}
  }

  function SubjectMentions(s: Subject): set<Storage> {
    match s
    case Variable(v) => {v}
    case AssignedVariable(v) => {v}
    case ProducingCall(dest, _) => {dest}
    case OtherSubject => {}
  }

  function CondMentions(c: Cond): set<Storage> {
    match c
    case Not(inner) => CondMentions(inner)
    case Equal(s, _) => SubjectMentions(s)
    case NotEqual(s, _) => SubjectMentions(s)
    case Truth(s) => SubjectMentions(s)
    case OtherCond => {}
  }

  /** One event per element, then one for the branch condition. Only known borrows are tracked. */
  function EventsOf(b: Block, known: set<Storage>): (r: seq<L.Event>)
    ensures |b.cmds| <= |r|
    ensures forall k :: 0 <= k < |b.cmds| ==>
      r[k] == L.Event(Mentions(b.cmds[k]) * known, Overwritten(b.cmds[k]) * known)
  {
    seq(|b.cmds|, k requires 0 <= k < |b.cmds| => L.Event(Mentions(b.cmds[k]) * known, Overwritten(b.cmds[k]) * known))
    + (if b.cond.Some? then [L.Event(CondMentions(b.cond.value) * known, {})] else [])
  }

  function SuccessorSet(b: Block): set<nat> {
    set i | 0 <= i < |b.succs| && b.succs[i].Some? :: b.succs[i].value
  }

  function EventGraph(blocks: seq<Block>, known: set<Storage>): (g: seq<L.EventBlock>)
    ensures |g| == |blocks|
    ensures forall b :: 0 <= b < |blocks| ==>
      g[b] == L.EventBlock(EventsOf(blocks[b], known), SuccessorSet(blocks[b]))
  {
    seq(|blocks|, b requires 0 <= b < |blocks| => L.EventBlock(EventsOf(blocks[b], known), SuccessorSet(blocks[b])))
  }

  /** The events of all variables, whether or not they are known to be borrows. */
  function AllEventsOf(b: Block): (r: seq<L.Event>)
    ensures |b.cmds| <= |r| == |b.cmds| + (if b.cond.Some? then 1 else 0)
    ensures forall k :: 0 <= k < |b.cmds| ==> r[k] == L.Event(Mentions(b.cmds[k]), Overwritten(b.cmds[k]))
    ensures b.cond.Some? ==> r[|b.cmds|] == L.Event(CondMentions(b.cond.value), {})
  {
    seq(|b.cmds|, k requires 0 <= k < |b.cmds| => L.Event(Mentions(b.cmds[k]), Overwritten(b.cmds[k])))
    + (if b.cond.Some? then [L.Event(CondMentions(b.cond.value), {})] else [])
  }

  function FullGraph(blocks: seq<Block>): (g: seq<L.EventBlock>)
    ensures |g| == |blocks|
    ensures forall b :: 0 <= b < |blocks| ==> g[b] == L.EventBlock(AllEventsOf(blocks[b]), SuccessorSet(blocks[b]))
  {
    seq(|blocks|, b requires 0 <= b < |blocks| => L.EventBlock(AllEventsOf(blocks[b]), SuccessorSet(blocks[b])))
  }

  lemma EventsOfKnown(b: Block, known: set<Storage>, k: nat, v: Storage)
    ensures |EventsOf(b, known)| == |AllEventsOf(b)|
    ensures k < |EventsOf(b, known)| ==> EventsOf(b, known)[k].uses <= known && EventsOf(b, known)[k].kills <= known
    ensures k < |EventsOf(b, known)| && v in known ==>
      && (v in EventsOf(b, known)[k].uses <==> v in AllEventsOf(b)[k].uses)
      && (v in EventsOf(b, known)[k].kills <==> v in AllEventsOf(b)[k].kills)
  {
  }

  /** The tracked graph tells the truth about known variables, and says nothing about others. */
  lemma TrackedUses(blocks: seq<Block>, known: set<Storage>, p: L.Point, v: Storage)
    ensures L.UsedLater(EventGraph(blocks, known), p, v) <==> v in known && L.UsedLater(FullGraph(blocks), p, v)
  {
    var g, h := EventGraph(blocks, known), FullGraph(blocks);
    if v in known {
      forall b | 0 <= b < |g| ensures L.AlikeIn(g, h, b, v) {
        forall k: nat ensures L.AlikeAt(g[b], h[b], k, v) { EventsOfKnown(blocks[b], known, k, v); }
        EventsOfKnown(blocks[b], known, 0, v);
      }
      L.AlikeUses(g, h, p, v);
      L.AlikeUses(h, g, p, v);
    } else if L.UsedLater(g, p, v) {
      var path :| L.ReachesUse(g, path, v) && path[0] == p;
      var last := path[|path| - 1];
      assert L.InGraph(g, last) && L.UsesAt(g, last, v);
      EventsOfKnown(blocks[last.0], known, last.1, v);
      assert false;
    }
  }

  lemma EventGraphIsClosed(blocks: seq<Block>, entry: nat, known: set<Storage>)
    requires ValidGraph(blocks, entry)
    ensures L.Closed(EventGraph(blocks, known))
  {
  }

  /** What the liveness analysis says after each element of block `b`. */
  function LiveAfterBlock(after: map<L.Point, set<Storage>>, b: nat, n: nat): (r: seq<LiveAfter>)
    ensures |r| == n
    ensures forall k :: 0 <= k < n ==> r[k] == (if (b, k) in after then Measured(after[(b, k)]) else Unmeasured)
  {
    seq(n, k => if (b, k) in after then Measured(after[(b, k)]) else Unmeasured)
  }

  // ---------------------------------------------------------------------------------------------
  // What the convergence pass leaves behind
  // ---------------------------------------------------------------------------------------------

  /** The state that flows along edge `i` of block `b` is already part of the successor's. */
  ghost predicate EdgeAbsorbed(blocks: seq<Block>, ins: map<nat, FlowState>, b: nat, i: nat, out: FlowState) {
    b < |blocks| && i < |blocks[b].succs| && blocks[b].succs[i].Some? ==>
      && blocks[b].succs[i].value in ins
      && Absorbs(ins[blocks[b].succs[i].value], EdgeState(blocks[b], i, out))
  }

  ghost predicate EdgesAbsorbed(blocks: seq<Block>, ins: map<nat, FlowState>, b: nat, out: FlowState) {
    forall i :: EdgeAbsorbed(blocks, ins, b, i, out)
  }

  /** Only the entry is reached without a predecessor. */
  ghost predicate Predecessors(blocks: seq<Block>, entry: nat, ins: map<nat, FlowState>) {
    forall b :: b in ins ==> b < |blocks| && (b == entry || HasPredecessor(blocks, b))
  }

  /** Every reached block's effect is contained in its successors' states. */
  ghost predicate PostFixed(blocks: seq<Block>, entry: nat, ins: map<nat, FlowState>) {
    && entry in ins && Absorbs(ins[entry], EMPTY_STATE)
    && Predecessors(blocks, entry, ins)
    && (forall b :: b in ins ==> EdgesAbsorbed(blocks, ins, b, TransferBlock(blocks[b], ins[b])))
  }

  /** How an abstract state came about: from the start state, by an element, along an edge, or by a
      join. */
  datatype Derivation =
    | Start
    | Element(before: Derivation, c: Cmd, live: LiveAfter)
    | Edge(before: Derivation, block: Block, i: nat)
    | Join(left: Derivation, right: Derivation)

  ghost function Derived(d: Derivation): FlowState {
    match d
    case Start => EMPTY_STATE
    case Element(before, c, live) => Step(c, Derived(before), live).state
    case Edge(before, block, i) => EdgeState(block, i, Derived(before))
    case Join(l, r) => JoinFlow(Derived(l), Derived(r))
  }

  ghost predicate InProgram(c: Cmd, blocks: seq<Block>) {
    exists b, k :: 0 <= b < |blocks| && 0 <= k < |blocks[b].cmds| && blocks[b].cmds[k] == c
  }

  ghost predicate DerivesFrom(d: Derivation, blocks: seq<Block>) {
    match d
    case Start => true
    case Element(before, c, _) => InProgram(c, blocks) && DerivesFrom(before, blocks)
    case Edge(before, block, _) => block in blocks && DerivesFrom(before, blocks)
    case Join(l, r) => DerivesFrom(l, blocks) && DerivesFrom(r, blocks)
  }

  /** `st` can arise from the program by elements, edges and joins. */
  ghost predicate Reachable(st: FlowState, blocks: seq<Block>) {
    exists d :: DerivesFrom(d, blocks) && Derived(d) == st
  }

  lemma ReachableElement(st: FlowState, blocks: seq<Block>, b: nat, k: nat, live: LiveAfter)
    requires Reachable(st, blocks) && b < |blocks| && k < |blocks[b].cmds|
    ensures Reachable(Step(blocks[b].cmds[k], st, live).state, blocks)
  {
    var d :| DerivesFrom(d, blocks) && Derived(d) == st;
    assert InProgram(blocks[b].cmds[k], blocks);
    var d' := Element(d, blocks[b].cmds[k], live);
    assert DerivesFrom(d', blocks) && Derived(d') == Step(blocks[b].cmds[k], st, live).state;
  }

  lemma {:induction false} ReachableRun(st: FlowState, blocks: seq<Block>, b: nat, n: nat, live: seq<LiveAfter>)
    requires Reachable(st, blocks) && b < |blocks| && n <= |blocks[b].cmds| && |live| == n
    ensures Reachable(RunBlock(blocks[b].cmds[..n], st, live).state, blocks)
  {
    if n != 0 {
      ReachableRun(st, blocks, b, n - 1, live[..n - 1]);
      assert blocks[b].cmds[..n][..n - 1] == blocks[b].cmds[..n - 1];
      ReachableElement(RunBlock(blocks[b].cmds[..n - 1], st, live[..n - 1]).state, blocks, b, n - 1, live[n - 1]);
    }
  }

  lemma ReachableTransfer(st: FlowState, blocks: seq<Block>, b: nat)
    requires Reachable(st, blocks) && b < |blocks|
    ensures Reachable(TransferBlock(blocks[b], st), blocks)
  {
    var n := |blocks[b].cmds|;
    assert blocks[b].cmds[..n] == blocks[b].cmds;
    ReachableRun(st, blocks, b, n, NothingMeasured(n));
  }

  lemma ReachableEdge(st: FlowState, blocks: seq<Block>, b: nat, i: nat)
    requires Reachable(st, blocks) && b < |blocks|
    ensures Reachable(EdgeState(blocks[b], i, st), blocks)
  {
    var d :| DerivesFrom(d, blocks) && Derived(d) == st;
    assert DerivesFrom(Edge(d, blocks[b], i), blocks) && Derived(Edge(d, blocks[b], i)) == EdgeState(blocks[b], i, st);
  }

  lemma ReachableJoin(a: FlowState, b: FlowState, blocks: seq<Block>)
    requires Reachable(a, blocks) && Reachable(b, blocks)
    ensures Reachable(JoinFlow(a, b), blocks)
  {
    var d :| DerivesFrom(d, blocks) && Derived(d) == a;
    var e :| DerivesFrom(e, blocks) && Derived(e) == b;
    assert DerivesFrom(Join(d, e), blocks) && Derived(Join(d, e)) == JoinFlow(a, b);
  }

  lemma StartIsReachable(blocks: seq<Block>)
    ensures Reachable(EMPTY_STATE, blocks)
  {
    assert DerivesFrom(Start, blocks) && Derived(Start) == EMPTY_STATE;
  }

  /** How the in-state of a block came about: at the entry, along an edge from another block's
      in-state, or by merging two such states. */
  datatype Arrival =
    | Begin
    | Along(before: Arrival, from: nat, i: nat)
    | Merge(left: Arrival, right: Arrival)

  ghost predicate Arrives(d: Arrival, blocks: seq<Block>, entry: nat, b: nat) {
    match d
    case Begin => b == entry
    case Along(before, from, i) =>
      && from < |blocks| && i < |blocks[from].succs| && blocks[from].succs[i] == Some(b)
      && Arrives(before, blocks, entry, from)
    case Merge(l, r) => Arrives(l, blocks, entry, b) && Arrives(r, blocks, entry, b)
  }

  ghost function Arrived(d: Arrival, blocks: seq<Block>): FlowState {
    match d
    case Begin => EMPTY_STATE
    case Along(before, from, i) =>
      if from < |blocks| then EdgeState(blocks[from], i, TransferBlock(blocks[from], Arrived(before, blocks)))
      else EMPTY_STATE
    case Merge(l, r) => JoinFlow(Arrived(l, blocks), Arrived(r, blocks))
  }

  /** `st` can be the in-state of block `b`. */
  ghost predicate ArrivesAt(st: FlowState, blocks: seq<Block>, entry: nat, b: nat) {
    exists d :: Arrives(d, blocks, entry, b) && Arrived(d, blocks) == st
  }

  lemma ArrivesAtEntry(blocks: seq<Block>, entry: nat)
    ensures ArrivesAt(EMPTY_STATE, blocks, entry, entry)
  {
    assert Arrives(Begin, blocks, entry, entry) && Arrived(Begin, blocks) == EMPTY_STATE;
  }

  lemma ArrivesAlong(st: FlowState, blocks: seq<Block>, entry: nat, b: nat, i: nat)
    requires ArrivesAt(st, blocks, entry, b) && b < |blocks| && i < |blocks[b].succs| && blocks[b].succs[i].Some?
    ensures ArrivesAt(EdgeState(blocks[b], i, TransferBlock(blocks[b], st)), blocks, entry, blocks[b].succs[i].value)
  {
    var d :| Arrives(d, blocks, entry, b) && Arrived(d, blocks) == st;
    var d' := Along(d, b, i);
    assert Arrives(d', blocks, entry, blocks[b].succs[i].value);
    assert Arrived(d', blocks) == EdgeState(blocks[b], i, TransferBlock(blocks[b], st));
  }

  lemma ArrivesMerged(x: FlowState, y: FlowState, blocks: seq<Block>, entry: nat, b: nat)
    requires ArrivesAt(x, blocks, entry, b) && ArrivesAt(y, blocks, entry, b)
    ensures ArrivesAt(JoinFlow(x, y), blocks, entry, b)
  {
    var d :| Arrives(d, blocks, entry, b) && Arrived(d, blocks) == x;
    var e :| Arrives(e, blocks, entry, b) && Arrived(e, blocks) == y;
    assert Arrives(Merge(d, e), blocks, entry, b) && Arrived(Merge(d, e), blocks) == JoinFlow(x, y);
  }

  lemma {:induction false} ArrivalIsReachable(d: Arrival, blocks: seq<Block>, entry: nat, b: nat)
    requires Arrives(d, blocks, entry, b)
    ensures Reachable(Arrived(d, blocks), blocks)
  {
    match d
    case Begin => StartIsReachable(blocks);
    case Along(before, from, i) =>
      ArrivalIsReachable(before, blocks, entry, from);
      ReachableTransfer(Arrived(before, blocks), blocks, from);
      ReachableEdge(TransferBlock(blocks[from], Arrived(before, blocks)), blocks, from, i);
    case Merge(l, r) =>
      ArrivalIsReachable(l, blocks, entry, b);
      ArrivalIsReachable(r, blocks, entry, b);
      ReachableJoin(Arrived(l, blocks), Arrived(r, blocks), blocks);
  }

  lemma ArrivesReachable(st: FlowState, blocks: seq<Block>, entry: nat, b: nat)
    requires ArrivesAt(st, blocks, entry, b)
    ensures Reachable(st, blocks)
  {
    var d :| Arrives(d, blocks, entry, b) && Arrived(d, blocks) == st;
    ArrivalIsReachable(d, blocks, entry, b);
  }

  // ---------------------------------------------------------------------------------------------
  // The emission pass
  // ---------------------------------------------------------------------------------------------

  /** The final run of one block, from its converged state and with measured liveness. */
  ghost function EmitBlock(blocks: seq<Block>, ins: map<nat, FlowState>, after: map<L.Point, set<Storage>>,
      b: nat): Outcome
    requires b in ins && b < |blocks|
  {
    RunBlock(blocks[b].cmds, ins[b], LiveAfterBlock(after, b, |blocks[b].cmds|))
  }

  /** What the emission pass reports for the first `n` blocks. */
  ghost function EmittedBelow(blocks: seq<Block>, ins: map<nat, FlowState>, after: map<L.Point, set<Storage>>,
      n: nat): set<Report>
    requires n <= |blocks|
  {
    if n == 0 then {}
    else EmittedBelow(blocks, ins, after, n - 1) +
         if n - 1 in ins then EmitBlock(blocks, ins, after, n - 1).reports else {}
  }

  ghost function Emitted(blocks: seq<Block>, ins: map<nat, FlowState>, after: map<L.Point, set<Storage>>): set<Report> {
    EmittedBelow(blocks, ins, after, |blocks|)
  }

  lemma {:induction false} EmittedContains(blocks: seq<Block>, ins: map<nat, FlowState>,
      after: map<L.Point, set<Storage>>, n: nat, b: nat)
    requires b < n <= |blocks| && b in ins
    ensures EmitBlock(blocks, ins, after, b).reports <= EmittedBelow(blocks, ins, after, n)
  {
    if b < n - 1 {
      EmittedContains(blocks, ins, after, n - 1, b);
    }
  }

  // ---------------------------------------------------------------------------------------------
  // Every program fits some universe
  // ---------------------------------------------------------------------------------------------

  ghost predicate BoundsLe(a: Bounds, b: Bounds) {
    a.storages <= b.storages && a.sites <= b.sites && a.positions <= b.positions
  }

  function BoundsMax(a: Bounds, b: Bounds): Bounds {
    Bounds(Max(a.storages, b.storages), Max(a.sites, b.sites), Max(a.positions, b.positions))
  }

  function CmdBounds(c: Cmd): Bounds {
    match c
    case Malloc(x, site, _, at) => Bounds(x + 1, site + 1, at + 1)
    case SetNull(x, _, at) => Bounds(x + 1, 0, at + 1)
    case Copy(x, y, _, at) => Bounds(x + y + 1, 0, at + 1)
    case Move(x, y, _, at) => Bounds(x + y + 1, 0, at + 1)
    case Borrow(x, y, _, at) => Bounds(x + y + 1, 0, at + 1)
    case Declare(x) => Bounds(x + 1, 0, 0)
    case Free(x, at) => Bounds(x + 1, 0, at + 1)
    case Deref(x, at) => Bounds(x + 1, 0, at + 1)
    case Bump(x, at) => Bounds(x + 1, 0, at + 1)
    case StoreScalar(x, _) => Bounds(x + 1, 0, 0)
    case Produce(p, _, at) =>
      Bounds(p.dest + (if p.result.Some? then p.result.value else 0) + 1, p.site + 1, at + 1)
    case CallPoint => Bounds(0, 0, 0)
    case Enclosing(_) => Bounds(0, 0, 0)
    case Opaque => Bounds(0, 0, 0)
  }

  function CmdsBounds(cmds: seq<Cmd>): Bounds {
    if cmds == [] then Bounds(0, 0, 0) else BoundsMax(CmdBounds(cmds[0]), CmdsBounds(cmds[1..]))
  }

  function ProgramBounds(blocks: seq<Block>): Bounds {
    if blocks == [] then Bounds(0, 0, 0) else BoundsMax(CmdsBounds(blocks[0].cmds), ProgramBounds(blocks[1..]))
  }

  lemma {:induction false} CmdsBoundsHold(cmds: seq<Cmd>, k: nat)
    requires k < |cmds|
    ensures BoundsLe(CmdBounds(cmds[k]), CmdsBounds(cmds))
  {
    if k > 0 {
      CmdsBoundsHold(cmds[1..], k - 1);
    }
  }

  lemma {:induction false} ProgramBoundsHold(blocks: seq<Block>, b: nat)
    requires b < |blocks|
    ensures BoundsLe(CmdsBounds(blocks[b].cmds), ProgramBounds(blocks))
  {
    if b > 0 {
      ProgramBoundsHold(blocks[1..], b - 1);
    }
  }

  /** So the height argument applies to every program. */
  lemma EveryProgramIsBounded(blocks: seq<Block>)
    requires SitesNumbered(blocks)
    ensures ProgramWithin(blocks, ProgramBounds(blocks))
  {
    forall b, k | 0 <= b < |blocks| && 0 <= k < |blocks[b].cmds|
      ensures CmdWithin(blocks[b].cmds[k], ProgramBounds(blocks))
    {
      CmdsBoundsHold(blocks[b].cmds, k);
      ProgramBoundsHold(blocks, b);
    }
  }
}
