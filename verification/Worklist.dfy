/** What the worklist keeps true, and why it stops: every re-insertion raises an in-state. */
module Worklist {
  import opened Flow
  import opened Height
  import opened Transfer
  import opened Bounded
  import opened Program

  // ---------------------------------------------------------------------------------------------
  // Borrows are known
  // ---------------------------------------------------------------------------------------------

  lemma MallocBorrows(st: FlowState, x: Storage, site: Site, decl: bool, at: nat)
    ensures MallocStep(st, x, site, decl, at).state.borrows == st.borrows
  {
  }

  lemma MoveBorrows(st: FlowState, x: Storage, y: Storage, at: nat)
    ensures MoveStep(st, x, y, at).state.borrows == st.borrows
  {
  }

  lemma FreeBorrows(st: FlowState, x: Storage, at: nat, live: LiveAfter)
    ensures FreeStep(st, x, at, live).state.borrows.Keys == st.borrows.Keys
  {
    if x in st.storages && st.storages[x].id in st.objects {
      var id := st.storages[x].id;
      assert InvalidatedBorrows(st.borrows, id, at).Keys == st.borrows.Keys;
    }
  }

  lemma ProduceBorrows(st: FlowState, p: Production, decl: bool, at: nat)
    ensures ProduceStep(st, p, decl, at).state.borrows == st.borrows
  {
  }

  lemma StepBorrows(c: Cmd, st: FlowState, live: LiveAfter)
    ensures Step(c, st, live).state.borrows.Keys <= st.borrows.Keys + Step(c, st, live).created
  {
    match c
    case Malloc(x, site, decl, at) => MallocBorrows(Written(st, x, decl), x, site, decl, at);
    case Move(x, y, decl, at) => MoveBorrows(Written(st, x, decl), x, y, at);
    case Free(x, at) => FreeBorrows(st, x, at, live);
    case Produce(p, decl, at) => ProduceBorrows(st, p, decl, at);
    case _ =>
  }

  lemma {:induction false} RunBorrows(cmds: seq<Cmd>, st: FlowState, live: seq<LiveAfter>)
    requires |live| == |cmds|
    ensures RunBlock(cmds, st, live).state.borrows.Keys <= st.borrows.Keys + RunBlock(cmds, st, live).created
  {
    if cmds != [] {
      var n := |cmds| - 1;
      RunBorrows(cmds[..n], st, live[..n]);
      StepBorrows(cmds[n], RunBlock(cmds[..n], st, live[..n]).state, live[n]);
    }
  }

  lemma {:induction false} RefineBorrows(st: FlowState, c: Cond, holds: bool)
    ensures Refine(st, c, holds).borrows == st.borrows
  {
    match c
    case Not(inner) => RefineBorrows(st, inner, !holds);
    case _ =>
  }

  lemma EdgeBorrows(b: Block, i: nat, out: FlowState)
    ensures EdgeState(b, i, out).borrows == out.borrows
  {
    if b.cond.Some? {
      RefineBorrows(out, b.cond.value, i == 0);
    }
  }

  // ---------------------------------------------------------------------------------------------
  // Invariants of the two tables
  // ---------------------------------------------------------------------------------------------

  type States = map<nat, FlowState>

  /** The in-state of block `b`, if there is one, can arrive there, is bounded and has only known borrows;
      the entry has one, and it covers the start state. */
  ghost predicate InOk(blocks: seq<Block>, entry: nat, w: Bounds, known: set<Storage>, ins: States, b: nat) {
    && (b == entry ==> b in ins && Absorbs(ins[b], EMPTY_STATE))
    && (b in ins ==>
          && b < |blocks| && (b == entry || HasPredecessor(blocks, b))
          && Within(ins[b], w) && ArrivesAt(ins[b], blocks, entry, b) && ins[b].borrows.Keys <= known)
  }

  ghost predicate InsOk(blocks: seq<Block>, entry: nat, w: Bounds, known: set<Storage>, ins: States) {
    forall b :: InOk(blocks, entry, w, known, ins, b)
  }

  /** A recorded out-state is contained in the successors' in-states. */
  ghost predicate OutOk(blocks: seq<Block>, w: Bounds, ins: States, outs: States, b: nat) {
    b in outs ==> b < |blocks| && Within(outs[b], w) && EdgesAbsorbed(blocks, ins, b, outs[b])
  }

  ghost predicate OutsOk(blocks: seq<Block>, w: Bounds, ins: States, outs: States) {
    forall b :: OutOk(blocks, w, ins, outs, b)
  }

  /** A block that is not waiting has its effect recorded, and the borrows it creates are known. */
  ghost predicate Recorded(blocks: seq<Block>, known: set<Storage>, ins: States, outs: States, work: set<nat>, b: nat) {
    b in ins && b !in work && b < |blocks| ==>
      b in outs && outs[b] == TransferBlock(blocks[b], ins[b]) && CreatedIn(blocks[b], ins[b]) <= known
  }

  ghost predicate AllRecorded(blocks: seq<Block>, known: set<Storage>, ins: States, outs: States, work: set<nat>) {
    forall b :: Recorded(blocks, known, ins, outs, work, b)
  }

  lemma EmptyWorklistIsPostFixed(blocks: seq<Block>, entry: nat, w: Bounds, known: set<Storage>, ins: States,
      outs: States)
    requires InsOk(blocks, entry, w, known, ins) && OutsOk(blocks, w, ins, outs) &&
      AllRecorded(blocks, known, ins, outs, {})
    ensures PostFixed(blocks, entry, ins)
    ensures forall b :: b in ins && b < |blocks| ==> CreatedIn(blocks[b], ins[b]) <= known
  {
    assert InOk(blocks, entry, w, known, ins, entry);
    forall b | b in ins
      ensures b < |blocks| && (b == entry || HasPredecessor(blocks, b))
      ensures EdgesAbsorbed(blocks, ins, b, TransferBlock(blocks[b], ins[b])) && CreatedIn(blocks[b], ins[b]) <= known
    {
      assert InOk(blocks, entry, w, known, ins, b);
      assert Recorded(blocks, known, ins, outs, {}, b);
      assert OutOk(blocks, w, ins, outs, b);
    }
  }

  // ---------------------------------------------------------------------------------------------
  // Growth
  // ---------------------------------------------------------------------------------------------

  /** What `x` absorbs, `x'` absorbs too. */
  ghost predicate Dominates(x': FlowState, x: FlowState, w: Bounds) {
    forall e :: Within(e, w) && Absorbs(x, e) ==> Absorbs(x', e)
  }

  ghost predicate GrownAt(w: Bounds, ins: States, ins': States, b: nat) {
    b in ins ==> b in ins' && Dominates(ins'[b], ins[b], w)
  }

  ghost predicate Grown(w: Bounds, ins: States, ins': States) {
    forall b :: GrownAt(w, ins, ins', b)
  }

  lemma GrownTransitive(w: Bounds, a: States, b: States, c: States)
    requires Grown(w, a, b) && Grown(w, b, c)
    ensures Grown(w, a, c)
  {
    forall s: nat ensures GrownAt(w, a, c, s) {
      assert GrownAt(w, a, b, s) && GrownAt(w, b, c, s);
    }
  }

  lemma GrownKeepsEdges(blocks: seq<Block>, w: Bounds, ins: States, ins': States, b: nat, out: FlowState)
    requires Grown(w, ins, ins') && Within(out, w) && b < |blocks| && EdgesAbsorbed(blocks, ins, b, out)
    ensures EdgesAbsorbed(blocks, ins', b, out)
  {
    forall i: nat ensures EdgeAbsorbed(blocks, ins', b, i, out) {
      assert EdgeAbsorbed(blocks, ins, b, i, out);
      if 0 <= i < |blocks[b].succs| && blocks[b].succs[i].Some? {
        EdgeWithin(blocks[b], i, out, w);
        assert GrownAt(w, ins, ins', blocks[b].succs[i].value);
      }
    }
  }

  lemma GrownKeepsOuts(blocks: seq<Block>, w: Bounds, ins: States, ins': States, outs: States)
    requires Grown(w, ins, ins') && OutsOk(blocks, w, ins, outs)
    ensures OutsOk(blocks, w, ins', outs)
  {
    forall b: nat ensures OutOk(blocks, w, ins', outs, b) {
      assert OutOk(blocks, w, ins, outs, b);
      if b in outs {
        GrownKeepsEdges(blocks, w, ins, ins', b, outs[b]);
      }
    }
  }

  // ---------------------------------------------------------------------------------------------
  // The measure
  // ---------------------------------------------------------------------------------------------

  /** `limit` is at least the height of every state of the universe. */
  ghost predicate Limits(limit: nat, w: Bounds) {
    forall st :: Within(st, w) ==> HeightOf(st, w) <= limit
  }

  lemma SomeLimit(w: Bounds) returns (limit: nat)
    ensures Limits(limit, w)
  {
    limit := HeightLimit(w);
    forall st | Within(st, w) ensures HeightOf(st, w) <= limit {
      HeightIsBounded(st, w);
    }
  }

  /** How far the in-state of each block can still rise; a missing one counts as lower than any. */
  ghost function RoomProfile(ins: States, w: Bounds, limit: nat): nat -> nat {
    (b: nat) =>
      if b !in ins then limit + 1
      else if Within(ins[b], w) && HeightOf(ins[b], w) <= limit then limit - HeightOf(ins[b], w)
      else 0
  }

  ghost function Room(ins: States, w: Bounds, limit: nat, n: nat): nat {
    if n == 0 then 0 else Room(ins, w, limit, n - 1) + RoomProfile(ins, w, limit)(n - 1)
  }

  lemma {:induction false} RoomIsSum(ins: States, w: Bounds, limit: nat, n: nat)
    ensures Room(ins, w, limit, n) == SumTo(RoomProfile(ins, w, limit), n)
  {
    if n != 0 {
      RoomIsSum(ins, w, limit, n - 1);
    }
  }

  /** One edge whose successor gains something. */
  lemma UpdateShrinksRoom(ins: States, w: Bounds, limit: nat, s: nat, st: FlowState, n: nat)
    requires s < n && Within(st, w) && Limits(limit, w)
    requires s in ins ==> Within(ins[s], w) && HeightOf(ins[s], w) < HeightOf(st, w)
    ensures Room(ins[s := st], w, limit, n) < Room(ins, w, limit, n)
  {
    var ins' := ins[s := st];
    var f, g := RoomProfile(ins', w, limit), RoomProfile(ins, w, limit);
    assert f(s) < g(s);
    forall b: nat ensures f(b) <= g(b) {
      if b != s { assert f(b) == g(b); }
    }
    SumMonotone(f, g, n);
    RoomIsSum(ins, w, limit, n);
    RoomIsSum(ins', w, limit, n);
  }

  /** The state after joining `e` into successor `s`, when that changes something. */
  ghost function Joined(ins: States, s: nat, e: FlowState): FlowState {
    if s in ins then JoinFlow(ins[s], e) else e
  }

  lemma JoinedDominates(ins: States, w: Bounds, s: nat, e: FlowState)
    requires Within(e, w) && (s in ins ==> Within(ins[s], w))
    ensures Grown(w, ins, ins[s := Joined(ins, s, e)])
    ensures Absorbs(Joined(ins, s, e), e)
  {
    var ins' := ins[s := Joined(ins, s, e)];
    JoinIdempotent(e);
    if s in ins { AbsorbsJoined(ins[s], e); }
    forall b: nat ensures GrownAt(w, ins, ins', b) {
      if b == s && s in ins {
        forall f | Within(f, w) && Absorbs(ins[s], f) ensures Absorbs(ins'[s], f) {
          LeftAbsorption(ins[s], e, f);
        }
      }
    }
  }

  lemma UpdateKeepsIns(blocks: seq<Block>, entry: nat, w: Bounds, known: set<Storage>, ins: States, s: nat,
      e: FlowState)
    requires InsOk(blocks, entry, w, known, ins) && s < |blocks| && HasPredecessor(blocks, s)
    requires Within(e, w) && ArrivesAt(e, blocks, entry, s) && e.borrows.Keys <= known
    requires Joined(ins, s, e) != e || s !in ins || Joined(ins, s, e) != ins[s]
    ensures InsOk(blocks, entry, w, known, ins[s := Joined(ins, s, e)])
  {
    var ins' := ins[s := Joined(ins, s, e)];
    assert InOk(blocks, entry, w, known, ins, s);
    if s in ins {
      JoinWithin(ins[s], e, w);
      ArrivesMerged(ins[s], e, blocks, entry, s);
    }
    assert InOk(blocks, entry, w, known, ins, entry);
    if entry == s {
      LeftAbsorption(ins[s], e, EMPTY_STATE);
    }
    forall b: nat ensures InOk(blocks, entry, w, known, ins', b) {
      assert InOk(blocks, entry, w, known, ins, b);
    }
  }

  // ---------------------------------------------------------------------------------------------
  // One worklist step
  // ---------------------------------------------------------------------------------------------

  /** A block whose in-state changed is queued, and nothing leaves the queue. */
  ghost predicate QueuedWhatChanged(ins0: States, work0: set<nat>, ins: States, work: set<nat>) {
    && work0 <= work <= work0 + ins.Keys
    && forall s :: s in ins && s !in work ==> s in ins0 && ins[s] == ins0[s]
  }

  /** `out` is what block `b` makes of a state that can arrive at it. */
  ghost predicate LeavesFrom(out: FlowState, blocks: seq<Block>, entry: nat, b: nat) {
    b < |blocks| && exists st :: ArrivesAt(st, blocks, entry, b) && out == TransferBlock(blocks[b], st)
  }

  lemma EdgeFacts(blocks: seq<Block>, entry: nat, b: nat, i: nat, out: FlowState, w: Bounds, known: set<Storage>)
    requires b < |blocks| && i < |blocks[b].succs| && blocks[b].succs[i].Some?
    requires Within(out, w) && LeavesFrom(out, blocks, entry, b) && out.borrows.Keys <= known
    ensures var e := EdgeState(blocks[b], i, out);
      Within(e, w) && ArrivesAt(e, blocks, entry, blocks[b].succs[i].value) && e.borrows.Keys <= known
    ensures HasPredecessor(blocks, blocks[b].succs[i].value)
  {
    EdgeWithin(blocks[b], i, out, w);
    var st :| ArrivesAt(st, blocks, entry, b) && out == TransferBlock(blocks[b], st);
    ArrivesAlong(st, blocks, entry, b, i);
    EdgeBorrows(blocks[b], i, out);
  }

  lemma SuccessorGains(blocks: seq<Block>, entry: nat, w: Bounds, limit: nat, known: set<Storage>, ins: States, b: nat,
      i: nat, out: FlowState)
    requires ValidGraph(blocks, entry) && b < |blocks| && i < |blocks[b].succs| && blocks[b].succs[i].Some?
    requires Limits(limit, w) && InsOk(blocks, entry, w, known, ins)
    requires Within(out, w) && LeavesFrom(out, blocks, entry, b) && out.borrows.Keys <= known
    requires var s, e := blocks[b].succs[i].value, EdgeState(blocks[b], i, out);
      s in ins ==> Joined(ins, s, e) != ins[s]
    ensures var s, e := blocks[b].succs[i].value, EdgeState(blocks[b], i, out); var ins' := ins[s := Joined(ins, s, e)];
      && InsOk(blocks, entry, w, known, ins') && Grown(w, ins, ins')
      && Room(ins', w, limit, |blocks|) < Room(ins, w, limit, |blocks|)
      && EdgeAbsorbed(blocks, ins', b, i, out)
      && forall j: nat :: EdgeAbsorbed(blocks, ins, b, j, out) ==> EdgeAbsorbed(blocks, ins', b, j, out)
  {
    var s, e := blocks[b].succs[i].value, EdgeState(blocks[b], i, out);
    var ins' := ins[s := Joined(ins, s, e)];
    EdgeFacts(blocks, entry, b, i, out, w, known);
    assert InOk(blocks, entry, w, known, ins, s);
    JoinedDominates(ins, w, s, e);
    UpdateKeepsIns(blocks, entry, w, known, ins, s, e);
    if s in ins { JoinRaises(ins[s], e, w); }
    UpdateShrinksRoom(ins, w, limit, s, Joined(ins, s, e), |blocks|);
    forall j: nat | EdgeAbsorbed(blocks, ins, b, j, out) ensures EdgeAbsorbed(blocks, ins', b, j, out) {
      if j < |blocks[b].succs| && blocks[b].succs[j].Some? {
        EdgeWithin(blocks[b], j, out, w);
        assert GrownAt(w, ins, ins', blocks[b].succs[j].value);
      }
    }
  }

  /** A block whose out-state did not change may be dropped: its record is up to date. */
  lemma RecordedSkip(blocks: seq<Block>, known: set<Storage>, ins: States, outs: States, work: set<nat>, b: nat)
    requires b in ins && b < |blocks| && AllRecorded(blocks, known, ins, outs, work)
    requires b in outs && outs[b] == TransferBlock(blocks[b], ins[b]) && CreatedIn(blocks[b], ins[b]) <= known
    ensures AllRecorded(blocks, known, ins, outs, work - {b})
  {
    forall c: nat ensures Recorded(blocks, known, ins, outs, work - {b}, c) {
      assert Recorded(blocks, known, ins, outs, work, c);
    }
  }

  lemma RecordedStep(blocks: seq<Block>, w: Bounds, known: set<Storage>, ins: States, outs: States, work: set<nat>,
      b: nat, ins': States, work': set<nat>)
    requires b in ins && b < |blocks| && AllRecorded(blocks, known, ins, outs, work) && OutsOk(blocks, w, ins, outs)
    requires Grown(w, ins, ins') && QueuedWhatChanged(ins, work - {b}, ins', work')
    requires Within(TransferBlock(blocks[b], ins[b]), w) && CreatedIn(blocks[b], ins[b]) <= known
    requires EdgesAbsorbed(blocks, ins', b, TransferBlock(blocks[b], ins[b]))
    ensures var outs' := outs[b := TransferBlock(blocks[b], ins[b])];
      OutsOk(blocks, w, ins', outs') && AllRecorded(blocks, known, ins', outs', work')
  {
    var outs' := outs[b := TransferBlock(blocks[b], ins[b])];
    GrownKeepsOuts(blocks, w, ins, ins', outs);
    forall c: nat ensures OutOk(blocks, w, ins', outs', c) {
      assert OutOk(blocks, w, ins', outs, c);
    }
    forall c: nat ensures Recorded(blocks, known, ins', outs', work', c) {
      assert Recorded(blocks, known, ins, outs, work, c);
    }
  }

  // ---------------------------------------------------------------------------------------------
  // The two loops, as steps on values
  // ---------------------------------------------------------------------------------------------

  /** After the first `n` edges of block `b`, started from `ins0` and `work0`. */
  ghost predicate EdgesDone(blocks: seq<Block>, entry: nat, w: Bounds, limit: nat, known: set<Storage>, b: nat,
      out: FlowState, ins0: States, work0: set<nat>, ins: States, work: set<nat>, n: nat)
  {
    && InsOk(blocks, entry, w, known, ins) && Grown(w, ins0, ins)
    && (forall j: nat :: j < n ==> EdgeAbsorbed(blocks, ins, b, j, out))
    && QueuedWhatChanged(ins0, work0, ins, work)
    && Room(ins, w, limit, |blocks|) <= Room(ins0, w, limit, |blocks|)
    && (work != work0 ==> Room(ins, w, limit, |blocks|) < Room(ins0, w, limit, |blocks|))
  }

  lemma NoEdgesDone(blocks: seq<Block>, entry: nat, w: Bounds, limit: nat, known: set<Storage>, b: nat, out: FlowState,
      ins: States, work: set<nat>)
    requires InsOk(blocks, entry, w, known, ins)
    ensures EdgesDone(blocks, entry, w, limit, known, b, out, ins, work, ins, work, 0)
  {
  }

  /** An edge that is pruned, or whose successor gains nothing. */
  lemma EdgeWithoutGain(blocks: seq<Block>, entry: nat, w: Bounds, limit: nat, known: set<Storage>, b: nat,
      out: FlowState, ins0: States, work0: set<nat>, ins: States, work: set<nat>, n: nat)
    requires EdgesDone(blocks, entry, w, limit, known, b, out, ins0, work0, ins, work, n) &&
      EdgeAbsorbed(blocks, ins, b, n, out)
    ensures EdgesDone(blocks, entry, w, limit, known, b, out, ins0, work0, ins, work, n + 1)
  {
  }

  lemma NextEdge(blocks: seq<Block>, ins: States, ins': States, b: nat, out: FlowState, n: nat)
    requires forall j: nat :: j < n ==> EdgeAbsorbed(blocks, ins, b, j, out)
    requires forall j: nat :: EdgeAbsorbed(blocks, ins, b, j, out) ==> EdgeAbsorbed(blocks, ins', b, j, out)
    requires EdgeAbsorbed(blocks, ins', b, n, out)
    ensures forall j: nat :: j < n + 1 ==> EdgeAbsorbed(blocks, ins', b, j, out)
  {
    forall j: nat | j < n + 1 ensures EdgeAbsorbed(blocks, ins', b, j, out) {
      assert j < n ==> EdgeAbsorbed(blocks, ins, b, j, out);
    }
  }

  lemma GainIsQueued(ins0: States, work0: set<nat>, ins: States, work: set<nat>, s: nat, st: FlowState)
    requires QueuedWhatChanged(ins0, work0, ins, work)
    ensures QueuedWhatChanged(ins0, work0, ins[s := st], work + {s})
  {
  }

  lemma EdgeWithGain(blocks: seq<Block>, entry: nat, w: Bounds, limit: nat, known: set<Storage>, b: nat, out: FlowState,
      ins0: States, work0: set<nat>, ins: States, work: set<nat>, n: nat, s: nat, st: FlowState)
    requires EdgesDone(blocks, entry, w, limit, known, b, out, ins0, work0, ins, work, n)
    requires InsOk(blocks, entry, w, known, ins[s := st]) && Grown(w, ins, ins[s := st])
    requires Room(ins[s := st], w, limit, |blocks|) < Room(ins, w, limit, |blocks|)
    requires EdgeAbsorbed(blocks, ins[s := st], b, n, out)
    requires forall j: nat :: EdgeAbsorbed(blocks, ins, b, j, out) ==> EdgeAbsorbed(blocks, ins[s := st], b, j, out)
    ensures EdgesDone(blocks, entry, w, limit, known, b, out, ins0, work0, ins[s := st], work + {s}, n + 1)
  {
    GrownTransitive(w, ins0, ins, ins[s := st]);
    GainIsQueued(ins0, work0, ins, work, s, st);
    NextEdge(blocks, ins, ins[s := st], b, out, n);
  }

  lemma AllEdgesDone(blocks: seq<Block>, entry: nat, w: Bounds, limit: nat, known: set<Storage>, b: nat, out: FlowState,
      ins0: States, work0: set<nat>, ins: States, work: set<nat>)
    requires b < |blocks|
    requires EdgesDone(blocks, entry, w, limit, known, b, out, ins0, work0, ins, work, |blocks[b].succs|)
    ensures EdgesAbsorbed(blocks, ins, b, out)
  {
    forall i: nat ensures EdgeAbsorbed(blocks, ins, b, i, out) {
    }
  }

  /** Between two iterations of the worklist loop. */
  ghost predicate Between(blocks: seq<Block>, entry: nat, w: Bounds, known: set<Storage>, ins: States, outs: States,
      work: set<nat>) {
    && InsOk(blocks, entry, w, known, ins) && OutsOk(blocks, w, ins, outs) &&
      AllRecorded(blocks, known, ins, outs, work)
    && work <= ins.Keys
  }

  lemma WorklistStart(blocks: seq<Block>, entry: nat, w: Bounds)
    requires ValidGraph(blocks, entry)
    ensures Between(blocks, entry, w, {}, map[entry := EMPTY_STATE], map[], {entry})
  {
    ArrivesAtEntry(blocks, entry);
    JoinIdempotent(EMPTY_STATE);
    forall b: nat ensures InOk(blocks, entry, w, {}, map[entry := EMPTY_STATE], b) {
    }
  }

  lemma KnownGrows(blocks: seq<Block>, entry: nat, w: Bounds, known: set<Storage>, known': set<Storage>, ins: States,
      outs: States, work: set<nat>)
    requires Between(blocks, entry, w, known, ins, outs, work) && known <= known'
    ensures Between(blocks, entry, w, known', ins, outs, work)
  {
    forall c: nat ensures InOk(blocks, entry, w, known', ins, c) {
      assert InOk(blocks, entry, w, known, ins, c);
    }
    forall c: nat ensures Recorded(blocks, known', ins, outs, work, c) {
      assert Recorded(blocks, known, ins, outs, work, c);
    }
  }

  /** Block `b`, which was queued, ends in `out`. */
  ghost predicate Transferred(blocks: seq<Block>, entry: nat, w: Bounds, known: set<Storage>, ins: States, outs: States,
      work: set<nat>, b: nat, out: FlowState) {
    && Between(blocks, entry, w, known, ins, outs, work) && b in work && b < |blocks|
    && out == TransferBlock(blocks[b], ins[b]) && Within(out, w) && LeavesFrom(out, blocks, entry, b) &&
      out.borrows.Keys <= known
    && CreatedIn(blocks[b], ins[b]) <= known
  }

  lemma TransferFacts(blocks: seq<Block>, entry: nat, w: Bounds, known: set<Storage>, known': set<Storage>, ins: States,
      outs: States, work: set<nat>, b: nat)
    requires ProgramWithin(blocks, w) && Between(blocks, entry, w, known, ins, outs, work) && b in work && b < |blocks|
    requires known' == known + CreatedIn(blocks[b], ins[b])
    ensures Transferred(blocks, entry, w, known', ins, outs, work, b, TransferBlock(blocks[b], ins[b]))
  {
    assert InOk(blocks, entry, w, known, ins, b);
    assert BlockWithin(blocks[b], w);
    RunWithin(blocks[b].cmds, ins[b], NothingMeasured(|blocks[b].cmds|), w);
    RunBorrows(blocks[b].cmds, ins[b], NothingMeasured(|blocks[b].cmds|));
    KnownGrows(blocks, entry, w, known, known', ins, outs, work);
  }

  lemma QueuedIsReached(blocks: seq<Block>, entry: nat, w: Bounds, known: set<Storage>, ins: States, outs: States,
      work: set<nat>, b: nat)
    requires Between(blocks, entry, w, known, ins, outs, work) && b in work
    ensures b in ins && b < |blocks|
  {
    assert InOk(blocks, entry, w, known, ins, b);
  }

  /** The block's out-state is what it was: nothing flows. */
  lemma WorklistSkip(blocks: seq<Block>, entry: nat, w: Bounds, known: set<Storage>, ins: States, outs: States,
      work: set<nat>, b: nat)
    requires Between(blocks, entry, w, known, ins, outs, work) && b in work && b < |blocks|
    requires b in outs && outs[b] == TransferBlock(blocks[b], ins[b]) && CreatedIn(blocks[b], ins[b]) <= known
    ensures Between(blocks, entry, w, known, ins, outs, work - {b})
  {
    RecordedSkip(blocks, known, ins, outs, work, b);
  }

  /** Either an in-state rose, or the queue lost `b` and nothing else happened. */
  ghost predicate Progress(w: Bounds, limit: nat, n: nat, b: nat, ins: States, work: set<nat>, ins': States,
      work': set<nat>) {
    || Room(ins', w, limit, n) < Room(ins, w, limit, n)
    || (Room(ins', w, limit, n) == Room(ins, w, limit, n) && work' == work - {b})
  }

  lemma WorklistFlow(blocks: seq<Block>, entry: nat, w: Bounds, limit: nat, known: set<Storage>, ins: States,
      outs: States, work: set<nat>, b: nat, ins': States, work': set<nat>)
    requires Between(blocks, entry, w, known, ins, outs, work) && b in work && b < |blocks|
    requires Within(TransferBlock(blocks[b], ins[b]), w) && CreatedIn(blocks[b], ins[b]) <= known
    requires EdgesDone(blocks, entry, w, limit, known, b, TransferBlock(blocks[b], ins[b]), ins, work - {b}, ins',
      work', |blocks[b].succs|)
    ensures Between(blocks, entry, w, known, ins', outs[b := TransferBlock(blocks[b], ins[b])], work')
    ensures Progress(w, limit, |blocks|, b, ins, work, ins', work')
  {
    AllEdgesDone(blocks, entry, w, limit, known, b, TransferBlock(blocks[b], ins[b]), ins, work - {b}, ins', work');
    RecordedStep(blocks, w, known, ins, outs, work, b, ins', work');
    assert forall s :: s in ins ==> s in ins' by {
      forall s | s in ins ensures s in ins' { assert GrownAt(w, ins, ins', s); }
    }
  }
}
