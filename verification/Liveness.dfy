/** Backward liveness of borrows: a gen/kill fixed point over a control-flow graph whose blocks are
    lists of events. A point is a pair of a block and an event number. */
module Liveness {
  import opened Flow
  import opened Height

  type Point = (nat, nat)

  datatype Event = Event(uses: set<Storage>, kills: set<Storage>)

  /** The events of a block and its successors. */
  datatype EventBlock = EventBlock(events: seq<Event>, succs: set<nat>)

  ghost predicate Closed(g: seq<EventBlock>) {
    forall b, s :: 0 <= b < |g| && s in g[b].succs ==> s < |g|
  }

  // ---------------------------------------------------------------------------------------------
  // What liveness means: a path to a use on which nothing kills first
  // ---------------------------------------------------------------------------------------------

  predicate InGraph(g: seq<EventBlock>, p: Point) {
    p.0 < |g| && p.1 <= |g[p.0].events|
  }

  /** Execution moves from just before one event to just before the next, or from the end of a
      block to the start of a successor. */
  predicate Follows(g: seq<EventBlock>, p: Point, q: Point)
    requires InGraph(g, p)
  {
    if p.1 < |g[p.0].events| then q == (p.0, p.1 + 1)
    else q.0 in g[p.0].succs && q.1 == 0
  }

  ghost predicate IsPath(g: seq<EventBlock>, path: seq<Point>) {
    && |path| > 0
    && (forall k :: 0 <= k < |path| ==> InGraph(g, path[k]))
    && (forall k :: 0 <= k < |path| - 1 ==> Follows(g, path[k], path[k + 1]))
  }

  predicate UsesAt(g: seq<EventBlock>, p: Point, v: Storage)
    requires InGraph(g, p)
  {
    p.1 < |g[p.0].events| && v in g[p.0].events[p.1].uses
  }

  predicate KillsAt(g: seq<EventBlock>, p: Point, v: Storage)
    requires InGraph(g, p)
  {
    p.1 < |g[p.0].events| && v in g[p.0].events[p.1].kills
  }

  /** The path ends just before a use of `v`, and no event on the way kills `v`. An event that both
      kills and uses reads first. */
  ghost predicate ReachesUse(g: seq<EventBlock>, path: seq<Point>, v: Storage) {
    && IsPath(g, path)
    && UsesAt(g, path[|path| - 1], v)
    && (forall k :: 0 <= k < |path| - 1 ==> !KillsAt(g, path[k], v))
  }

  ghost predicate UsedLater(g: seq<EventBlock>, p: Point, v: Storage) {
    exists path :: ReachesUse(g, path, v) && path[0] == p
  }

  // ---------------------------------------------------------------------------------------------
  // The gen/kill transfer
  // ---------------------------------------------------------------------------------------------

  function Before(e: Event, after: set<Storage>): set<Storage> {
    (after - e.kills) + e.uses
  }

  /** Live just before event `k`, when `out` is live at the end of the block. */
  function LiveFrom(events: seq<Event>, k: nat, out: set<Storage>): set<Storage>
    requires k <= |events|
    decreases |events| - k
  {
    if k == |events| then out else Before(events[k], LiveFrom(events, k + 1, out))
  }

  function Entry(m: map<nat, set<Storage>>, b: nat): set<Storage> {
    if b in m then m[b] else {}
  }

  /** Everything live at the start of some successor. */
  ghost function OutOf(g: seq<EventBlock>, ins: map<nat, set<Storage>>, b: nat): set<Storage>
    requires b < |g|
  {
    set s, v | s in g[b].succs && v in Entry(ins, s) :: v
  }

  ghost predicate SolvedAt(g: seq<EventBlock>, ins: map<nat, set<Storage>>, outs: map<nat, set<Storage>>, b: nat) {
    b < |g| ==>
      && Entry(outs, b) == OutOf(g, ins, b)
      && Entry(ins, b) == LiveFrom(g[b].events, 0, Entry(outs, b))
  }

  ghost predicate Solution(g: seq<EventBlock>, ins: map<nat, set<Storage>>, outs: map<nat, set<Storage>>) {
    forall b :: SolvedAt(g, ins, outs, b)
  }

  // ---------------------------------------------------------------------------------------------
  // The storages used later form a solution
  // ---------------------------------------------------------------------------------------------

  lemma PathExtends(g: seq<EventBlock>, p: Point, q: Point, v: Storage)
    requires InGraph(g, p) && Follows(g, p, q) && !KillsAt(g, p, v) && UsedLater(g, q, v)
    ensures UsedLater(g, p, v)
  {
    var path :| ReachesUse(g, path, v) && path[0] == q;
    var longer := [p] + path;
    forall k | 0 <= k < |longer| - 1 ensures Follows(g, longer[k], longer[k + 1]) && !KillsAt(g, longer[k], v) {
      if k > 0 {
        assert longer[k] == path[k - 1] && longer[k + 1] == path[k];
        assert Follows(g, path[k - 1], path[k - 1 + 1]);
      }
    }
    assert ReachesUse(g, longer, v);
  }

  lemma UsedHere(g: seq<EventBlock>, p: Point, v: Storage)
    requires InGraph(g, p) && UsesAt(g, p, v)
    ensures UsedLater(g, p, v)
  {
    assert ReachesUse(g, [p], v);
  }

  /** Either the next event uses `v`, or it spares `v` and `v` is used after it. */
  lemma FirstStep(g: seq<EventBlock>, p: Point, v: Storage) returns (q: Point)
    requires UsedLater(g, p, v)
    ensures InGraph(g, p)
    ensures !UsesAt(g, p, v) ==> !KillsAt(g, p, v) && Follows(g, p, q) && UsedLater(g, q, v)
  {
    var path :| ReachesUse(g, path, v) && path[0] == p;
    q := p;
    if |path| > 1 {
      q := path[1];
      var rest := path[1..];
      assert Follows(g, path[0], path[0 + 1]) && !KillsAt(g, path[0], v);
      forall k | 0 <= k < |rest| - 1 ensures Follows(g, rest[k], rest[k + 1]) {
        assert rest[k] == path[k + 1] && rest[k + 1] == path[k + 1 + 1];
      }
      assert ReachesUse(g, rest, v);
    }
  }

  /** The two events agree about `v`. */
  predicate AlikeAt(a: EventBlock, b: EventBlock, k: nat, v: Storage) {
    k < |a.events| && k < |b.events| ==>
      (v in a.events[k].uses <==> v in b.events[k].uses) && (v in a.events[k].kills <==> v in b.events[k].kills)
  }

  ghost predicate AlikeIn(g: seq<EventBlock>, h: seq<EventBlock>, b: nat, v: Storage) {
    b < |g| && b < |h| ==>
      |g[b].events| == |h[b].events| && g[b].succs == h[b].succs && forall k :: AlikeAt(g[b], h[b], k, v)
  }

  /** Graphs of one shape that agree about `v` have the same paths to its uses. */
  lemma AlikeUses(g: seq<EventBlock>, h: seq<EventBlock>, p: Point, v: Storage)
    requires |g| == |h| && forall b :: 0 <= b < |g| ==> AlikeIn(g, h, b, v)
    ensures UsedLater(g, p, v) ==> UsedLater(h, p, v)
  {
    if UsedLater(g, p, v) {
      var path: seq<Point> :| ReachesUse(g, path, v) && path[0] == p;
      forall k | 0 <= k < |path|
        ensures InGraph(g, path[k]) && InGraph(h, path[k])
        ensures UsesAt(g, path[k], v) == UsesAt(h, path[k], v) && KillsAt(g, path[k], v) == KillsAt(h, path[k], v)
      {
        assert InGraph(g, path[k]) && AlikeIn(g, h, path[k].0, v);
        assert AlikeAt(g[path[k].0], h[path[k].0], path[k].1, v);
      }
      forall k | 0 <= k < |path| - 1 ensures Follows(h, path[k], path[k + 1]) {
        assert Follows(g, path[k], path[k + 1]) && AlikeIn(g, h, path[k].0, v);
      }
      assert ReachesUse(h, path, v);
    }
  }

  ghost function Universe(g: seq<EventBlock>): set<Storage> {
    set b, k, v | 0 <= b < |g| && 0 <= k < |g[b].events| && v in g[b].events[k].uses :: v
  }

  ghost function UsedAfter(g: seq<EventBlock>, p: Point): set<Storage> {
    set v | v in Universe(g) && UsedLater(g, p, v)
  }

  lemma UsedAfterMeans(g: seq<EventBlock>, p: Point, v: Storage)
    ensures v in UsedAfter(g, p) <==> UsedLater(g, p, v)
  {
    if UsedLater(g, p, v) {
      var path :| ReachesUse(g, path, v) && path[0] == p;
      var last := path[|path| - 1];
      assert UsesAt(g, last, v);
    }
  }

  lemma {:induction false} UsedAfterSolvesBlock(g: seq<EventBlock>, b: nat, k: nat)
    requires b < |g| && k <= |g[b].events|
    ensures UsedAfter(g, (b, k)) == LiveFrom(g[b].events, k, UsedAfter(g, (b, |g[b].events|)))
    decreases |g[b].events| - k
  {
    if k < |g[b].events| {
      UsedAfterSolvesBlock(g, b, k + 1);
      forall v ensures v in UsedAfter(g, (b, k)) <==> v in Before(g[b].events[k], UsedAfter(g, (b, k + 1))) {
        UsedAfterMeans(g, (b, k), v);
        UsedAfterMeans(g, (b, k + 1), v);
        if UsedLater(g, (b, k), v) {
          var q := FirstStep(g, (b, k), v);
        } else if v in g[b].events[k].uses {
          UsedHere(g, (b, k), v);
        } else if UsedLater(g, (b, k + 1), v) && v !in g[b].events[k].kills {
          PathExtends(g, (b, k), (b, k + 1), v);
        }
      }
    }
  }

  lemma UsedAfterSolvesEnd(g: seq<EventBlock>, b: nat, starts: map<nat, set<Storage>>)
    requires Closed(g) && b < |g|
    requires forall s :: 0 <= s < |g| ==> Entry(starts, s) == UsedAfter(g, (s, 0))
    ensures UsedAfter(g, (b, |g[b].events|)) == OutOf(g, starts, b)
  {
    var end := (b, |g[b].events|);
    forall v ensures v in UsedAfter(g, end) <==> v in OutOf(g, starts, b) {
      UsedAfterMeans(g, end, v);
      if UsedLater(g, end, v) {
        var q := FirstStep(g, end, v);
        UsedAfterMeans(g, q, v);
        assert q == (q.0, 0) && v in Entry(starts, q.0);
      }
      if v in OutOf(g, starts, b) {
        var s :| s in g[b].succs && v in Entry(starts, s);
        UsedAfterMeans(g, (s, 0), v);
        PathExtends(g, end, (s, 0), v);
      }
    }
  }

  lemma UsedAfterIsSolution(g: seq<EventBlock>) returns (starts: map<nat, set<Storage>>, ends: map<nat, set<Storage>>)
    requires Closed(g)
    ensures Solution(g, starts, ends)
    ensures forall b :: 0 <= b < |g| ==>
      Entry(starts, b) == UsedAfter(g, (b, 0)) && Entry(ends, b) == UsedAfter(g, (b, |g[b].events|))
  {
    starts := map b: nat | b < |g| :: UsedAfter(g, (b, 0));
    ends := map b: nat | b < |g| :: UsedAfter(g, (b, |g[b].events|));
    forall b: nat ensures SolvedAt(g, starts, ends, b) {
      if b < |g| {
        UsedAfterSolvesBlock(g, b, 0);
        UsedAfterSolvesEnd(g, b, starts);
      }
    }
  }

  // ---------------------------------------------------------------------------------------------
  // Every solution contains the storages used later
  // ---------------------------------------------------------------------------------------------

  lemma {:induction false} SolutionIsComplete(g: seq<EventBlock>, ins: map<nat, set<Storage>>,
      outs: map<nat, set<Storage>>, path: seq<Point>, v: Storage)
    requires Solution(g, ins, outs) && ReachesUse(g, path, v)
    ensures v in LiveFrom(g[path[0].0].events, path[0].1, Entry(outs, path[0].0))
    decreases |path|
  {
    var p := path[0];
    if |path| > 1 {
      var q := path[1];
      assert Follows(g, p, q) && !KillsAt(g, p, v) && InGraph(g, q);
      var rest := path[1..];
      forall k | 0 <= k < |rest| - 1 ensures Follows(g, rest[k], rest[k + 1]) {
        assert rest[k] == path[k + 1] && rest[k + 1] == path[k + 1 + 1];
      }
      assert ReachesUse(g, rest, v);
      SolutionIsComplete(g, ins, outs, rest, v);
      if p.1 == |g[p.0].events| {
        assert SolvedAt(g, ins, outs, p.0) && SolvedAt(g, ins, outs, q.0);
        assert v in Entry(ins, q.0);
      }
    }
  }

  /** So a solution that stays below every other one is exact. */
  lemma LeastSolutionIsExact(g: seq<EventBlock>, ins: map<nat, set<Storage>>, outs: map<nat, set<Storage>>, b: nat,
      k: nat, v: Storage)
    requires Solution(g, ins, outs) && b < |g| && k <= |g[b].events|
    requires Entry(outs, b) <= UsedAfter(g, (b, |g[b].events|))
    ensures v in LiveFrom(g[b].events, k, Entry(outs, b)) <==> UsedLater(g, (b, k), v)
  {
    UsedAfterSolvesBlock(g, b, k);
    LiveFromMonotone(g[b].events, k, Entry(outs, b), UsedAfter(g, (b, |g[b].events|)));
    UsedAfterMeans(g, (b, k), v);
    if UsedLater(g, (b, k), v) {
      var path :| ReachesUse(g, path, v) && path[0] == (b, k);
      SolutionIsComplete(g, ins, outs, path, v);
    }
  }

  /** The recorded answer for every event: which storages are live just after it. */
  ghost predicate Exact(g: seq<EventBlock>, after: map<Point, set<Storage>>) {
    && (forall p: Point :: p in after <==> p.0 < |g| && p.1 < |g[p.0].events|)
    && (forall p: Point, v :: ExactAt(g, after, p, v))
  }

  ghost predicate ExactAt(g: seq<EventBlock>, after: map<Point, set<Storage>>, p: Point, v: Storage) {
    p in after ==> (v in after[p] <==> UsedLater(g, (p.0, p.1 + 1), v))
  }

  // ---------------------------------------------------------------------------------------------
  // The iteration, below a given solution
  // ---------------------------------------------------------------------------------------------

  lemma {:induction false} LiveFromMonotone(events: seq<Event>, k: nat, small: set<Storage>, large: set<Storage>)
    requires k <= |events| && small <= large
    ensures LiveFrom(events, k, small) <= LiveFrom(events, k, large)
    decreases |events| - k
  {
    if k < |events| {
      LiveFromMonotone(events, k + 1, small, large);
    }
  }

  lemma OutOfMonotone(g: seq<EventBlock>, ins: map<nat, set<Storage>>, ins': map<nat, set<Storage>>, b: nat)
    requires Closed(g) && b < |g| && forall s :: 0 <= s < |g| ==> Entry(ins, s) <= Entry(ins', s)
    ensures OutOf(g, ins, b) <= OutOf(g, ins', b)
  {
  }

  /** Both tables stay inside what one more round would compute, so they only grow, and inside the
      given solution, so they stop growing. */
  ghost predicate GrowingAt(g: seq<EventBlock>, ins: map<nat, set<Storage>>, outs: map<nat, set<Storage>>,
      starts: map<nat, set<Storage>>, ends: map<nat, set<Storage>>, b: nat)
  {
    b < |g| ==>
      && Entry(outs, b) <= OutOf(g, ins, b)
      && Entry(ins, b) <= LiveFrom(g[b].events, 0, Entry(outs, b))
      && Entry(ins, b) <= Entry(starts, b) && Entry(outs, b) <= Entry(ends, b)
  }

  ghost predicate Growing(g: seq<EventBlock>, ins: map<nat, set<Storage>>, outs: map<nat, set<Storage>>,
      starts: map<nat, set<Storage>>, ends: map<nat, set<Storage>>)
  {
    forall b :: GrowingAt(g, ins, outs, starts, ends, b)
  }

  ghost predicate SolvedUpTo(g: seq<EventBlock>, ins: map<nat, set<Storage>>, outs: map<nat, set<Storage>>, n: nat) {
    forall b: nat :: b < n ==> SolvedAt(g, ins, outs, b)
  }

  /** How much the two tables can still grow. */
  ghost function RoomProfile(table: map<nat, set<Storage>>, limit: map<nat, set<Storage>>): nat -> nat {
    (b: nat) => |Entry(limit, b) - Entry(table, b)|
  }

  lemma SmallerRest(u: set<Storage>, a: set<Storage>, b: set<Storage>)
    requires a <= b <= u
    ensures |u - b| <= |u - a|
    ensures a != b ==> |u - b| < |u - a|
  {
    assert u - a == (u - b) + (b - a);
    if a != b {
      var x :| x in b && x !in a;
      assert x in b - a;
    }
  }

  ghost function Room(ins: map<nat, set<Storage>>, outs: map<nat, set<Storage>>, starts: map<nat, set<Storage>>,
      ends: map<nat, set<Storage>>, n: nat): nat
  {
    if n == 0 then 0
    else Room(ins, outs, starts, ends, n - 1)
         + RoomProfile(ins, starts)(n - 1) + RoomProfile(outs, ends)(n - 1)
  }

  lemma {:induction false} RoomIsSum(ins: map<nat, set<Storage>>, outs: map<nat, set<Storage>>,
      starts: map<nat, set<Storage>>, ends: map<nat, set<Storage>>, n: nat)
    ensures Room(ins, outs, starts, ends, n) == SumTo(RoomProfile(ins, starts), n) + SumTo(RoomProfile(outs, ends), n)
  {
    if n != 0 {
      RoomIsSum(ins, outs, starts, ends, n - 1);
    }
  }

  lemma ProfileShrinks(table: map<nat, set<Storage>>, limit: map<nat, set<Storage>>, b: nat, s: set<Storage>)
    requires Entry(table, b) <= s <= Entry(limit, b)
    ensures forall c: nat :: RoomProfile(table[b := s], limit)(c) <= RoomProfile(table, limit)(c)
    ensures Entry(table, b) != s ==> RoomProfile(table[b := s], limit)(b) < RoomProfile(table, limit)(b)
  {
    SmallerRest(Entry(limit, b), Entry(table, b), s);
    var table' := table[b := s];
    forall c: nat ensures RoomProfile(table', limit)(c) <= RoomProfile(table, limit)(c) {
      if c == b { assert Entry(table', c) == s; } else { assert Entry(table', c) == Entry(table, c); }
    }
  }

  lemma RoomShrinks(ins: map<nat, set<Storage>>, outs: map<nat, set<Storage>>, starts: map<nat, set<Storage>>,
      ends: map<nat, set<Storage>>, b: nat, in': set<Storage>, out': set<Storage>, n: nat)
    requires Entry(ins, b) <= in' <= Entry(starts, b) && Entry(outs, b) <= out' <= Entry(ends, b) && b < n
    ensures Room(ins[b := in'], outs[b := out'], starts, ends, n) <= Room(ins, outs, starts, ends, n)
    ensures Entry(ins, b) != in' || Entry(outs, b) != out' ==>
      Room(ins[b := in'], outs[b := out'], starts, ends, n) < Room(ins, outs, starts, ends, n)
  {
    ProfileShrinks(ins, starts, b, in');
    ProfileShrinks(outs, ends, b, out');
    SumMonotone(RoomProfile(ins[b := in'], starts), RoomProfile(ins, starts), n);
    SumMonotone(RoomProfile(outs[b := out'], ends), RoomProfile(outs, ends), n);
    RoomIsSum(ins, outs, starts, ends, n);
    RoomIsSum(ins[b := in'], outs[b := out'], starts, ends, n);
  }

  /** Refreshing one block keeps every invariant and only adds storages. */
  lemma Refresh(g: seq<EventBlock>, ins: map<nat, set<Storage>>, outs: map<nat, set<Storage>>,
      starts: map<nat, set<Storage>>, ends: map<nat, set<Storage>>, b: nat)
    requires Closed(g) && b < |g| && Growing(g, ins, outs, starts, ends) && Solution(g, starts, ends)
    ensures var out := OutOf(g, ins, b); var in' := LiveFrom(g[b].events, 0, out);
      && Entry(outs, b) <= out <= Entry(ends, b) && Entry(ins, b) <= in' <= Entry(starts, b)
      && Growing(g, ins[b := in'], outs[b := out], starts, ends)
  {
    var out := OutOf(g, ins, b);
    var in' := LiveFrom(g[b].events, 0, out);
    forall s | 0 <= s < |g| ensures Entry(ins, s) <= Entry(starts, s) {
      assert GrowingAt(g, ins, outs, starts, ends, s);
    }
    assert GrowingAt(g, ins, outs, starts, ends, b) && SolvedAt(g, starts, ends, b);
    OutOfMonotone(g, ins, starts, b);
    LiveFromMonotone(g[b].events, 0, Entry(outs, b), out);
    LiveFromMonotone(g[b].events, 0, out, Entry(ends, b));
    var ins', outs' := ins[b := in'], outs[b := out];
    forall c: nat ensures GrowingAt(g, ins', outs', starts, ends, c) {
      if c < |g| {
        assert GrowingAt(g, ins, outs, starts, ends, c);
        OutOfMonotone(g, ins, ins', c);
      }
    }
  }

  /** Writing back what a table already holds changes no block's equations. */
  lemma UnchangedTables(g: seq<EventBlock>, ins: map<nat, set<Storage>>, outs: map<nat, set<Storage>>, b: nat, c: nat)
    requires Closed(g) && b < |g|
    ensures var ins', outs' := ins[b := Entry(ins, b)], outs[b := Entry(outs, b)];
      SolvedAt(g, ins, outs, c) ==> SolvedAt(g, ins', outs', c)
  {
    var ins' := ins[b := Entry(ins, b)];
    if c < |g| {
      OutOfMonotone(g, ins, ins', c);
      OutOfMonotone(g, ins', ins, c);
    }
  }

  lemma Settled(g: seq<EventBlock>, ins: map<nat, set<Storage>>, outs: map<nat, set<Storage>>, b: nat,
      live: set<Storage>, out: set<Storage>)
    requires Closed(g) && b < |g|
    requires Entry(ins, b) == live == LiveFrom(g[b].events, 0, out) && Entry(outs, b) == out == OutOf(g, ins, b)
    ensures SolvedUpTo(g, ins, outs, b) ==> SolvedUpTo(g, ins[b := live], outs[b := out], b + 1)
  {
    if SolvedUpTo(g, ins, outs, b) {
      var ins', outs' := ins[b := live], outs[b := out];
      forall c: nat | c < b + 1 ensures SolvedAt(g, ins', outs', c) {
        assert SolvedAt(g, ins, outs, c);
        UnchangedTables(g, ins, outs, b, c);
      }
    }
  }

  /** Everything that refreshing block `b` does to the two tables. */
  lemma RefreshStep(g: seq<EventBlock>, ins: map<nat, set<Storage>>, outs: map<nat, set<Storage>>,
      starts: map<nat, set<Storage>>, ends: map<nat, set<Storage>>, b: nat, live: set<Storage>, out: set<Storage>)
    requires Closed(g) && b < |g| && Growing(g, ins, outs, starts, ends) && Solution(g, starts, ends)
    requires out == OutOf(g, ins, b) && live == LiveFrom(g[b].events, 0, out)
    ensures Growing(g, ins[b := live], outs[b := out], starts, ends)
    ensures Room(ins[b := live], outs[b := out], starts, ends, |g|) <= Room(ins, outs, starts, ends, |g|)
    ensures Entry(ins, b) != live || Entry(outs, b) != out ==>
      Room(ins[b := live], outs[b := out], starts, ends, |g|) < Room(ins, outs, starts, ends, |g|)
    ensures Entry(ins, b) == live && Entry(outs, b) == out && SolvedUpTo(g, ins, outs, b) ==>
      SolvedUpTo(g, ins[b := live], outs[b := out], b + 1)
  {
    Refresh(g, ins, outs, starts, ends, b);
    RoomShrinks(ins, outs, starts, ends, b, live, out, |g|);
    if Entry(ins, b) == live && Entry(outs, b) == out {
      Settled(g, ins, outs, b, live, out);
    }
  }

  lemma AllSolved(g: seq<EventBlock>, ins: map<nat, set<Storage>>, outs: map<nat, set<Storage>>)
    requires SolvedUpTo(g, ins, outs, |g|)
    ensures Solution(g, ins, outs)
  {
  }

  class BorrowLiveness {
    const graph: seq<EventBlock>
    var liveIn: map<nat, set<Storage>>
    var liveOut: map<nat, set<Storage>>
    var liveAfter: map<Point, set<Storage>>
    /** The solution that the tables stay below. */
    ghost const starts: map<nat, set<Storage>>
    ghost const ends: map<nat, set<Storage>>

    constructor (g: seq<EventBlock>)
      requires Closed(g)
      ensures graph == g && Wired() && liveAfter == map[]
    {
      ghost var s, e := UsedAfterIsSolution(g);
      graph, starts, ends := g, s, e;
      liveIn, liveOut, liveAfter := map[], map[], map[];
    }

    /** The limits are where the storages used later are. */
    ghost predicate Wired() {
      && Closed(graph) && Solution(graph, starts, ends)
      && forall b :: 0 <= b < |graph| ==> Entry(ends, b) == UsedAfter(graph, (b, |graph[b].events|))
    }

    ghost predicate Tables()
      reads this
    {
      Growing(graph, liveIn, liveOut, starts, ends)
    }

    ghost function RoomLeft(): nat
      reads this
    {
      Room(liveIn, liveOut, starts, ends, |graph|)
    }

    /** The union of what is live at the start of each successor. */
    method LiveAtEnd(b: nat) returns (out: set<Storage>)
      requires b < |graph|
      ensures out == OutOf(graph, liveIn, b)
    {
      out := {};
      var rest := graph[b].succs;
      while rest != {}
        invariant rest <= graph[b].succs
        invariant out == set s, v | s in graph[b].succs - rest && v in Entry(liveIn, s) :: v
        decreases |rest|
      {
        var s :| s in rest;
        out := out + Entry(liveIn, s);
        rest := rest - {s};
      }
      assert graph[b].succs - rest == graph[b].succs;
    }

    /** Walks a block backwards; when `record` is set, notes what is live after each event. */
    method Transfer(b: nat, out: set<Storage>, record: bool) returns (live: set<Storage>)
      requires b < |graph|
      modifies this`liveAfter
      ensures live == LiveFrom(graph[b].events, 0, out)
      ensures !record ==> liveAfter == old(liveAfter)
      ensures record ==> liveAfter.Keys == old(liveAfter).Keys + set k | 0 <= k < |graph[b].events| :: (b, k)
      ensures record ==> forall k :: 0 <= k < |graph[b].events| ==>
        (b, k) in liveAfter && liveAfter[(b, k)] == LiveFrom(graph[b].events, k + 1, out)
      ensures forall p :: p in old(liveAfter) && p.0 != b ==> p in liveAfter && liveAfter[p] == old(liveAfter)[p]
    {
      live := out;
      var events := graph[b].events;
      var k := |events|;
      while k > 0
        invariant 0 <= k <= |events|
        invariant live == LiveFrom(events, k, out)
        invariant !record ==> liveAfter == old(liveAfter)
        invariant record ==> liveAfter.Keys == old(liveAfter).Keys + set j | k <= j < |events| :: (b, j)
        invariant record ==> forall j :: k <= j < |events| ==>
          (b, j) in liveAfter && liveAfter[(b, j)] == LiveFrom(events, j + 1, out)
        invariant forall p :: p in old(liveAfter) && p.0 != b ==> p in liveAfter && liveAfter[p] == old(liveAfter)[p]
      {
        k := k - 1;
        if record {
          liveAfter := liveAfter[(b, k) := live];
        }
        live := (live - events[k].kills) + events[k].uses;
      }
    }

    /** Refreshes one block and says whether either table changed. */
    method RefreshBlock(b: nat) returns (changed: bool)
      requires Wired() && b < |graph| && Tables()
      modifies this`liveIn, this`liveOut, this`liveAfter
      ensures Tables() && liveAfter == old(liveAfter)
      ensures changed ==> RoomLeft() < old(RoomLeft())
      ensures !changed ==> RoomLeft() <= old(RoomLeft())
      ensures !changed && old(SolvedUpTo(graph, liveIn, liveOut, b)) ==> SolvedUpTo(graph, liveIn, liveOut, b + 1)
    {
      changed := false;
      var out := LiveAtEnd(b);
      var live := Transfer(b, out, false);
      RefreshStep(graph, liveIn, liveOut, starts, ends, b, live, out);
      if Entry(liveOut, b) != out {
        changed := true;
      }
      if Entry(liveIn, b) != live {
        changed := true;
      }
      Store(b, live, out);
    }

    method Store(b: nat, live: set<Storage>, out: set<Storage>)
      modifies this`liveIn, this`liveOut
      ensures liveIn == old(liveIn)[b := live] && liveOut == old(liveOut)[b := out]
    {
      liveOut := liveOut[b := out];
      liveIn := liveIn[b := live];
    }

    /** One round over all blocks. */
    method Round() returns (changed: bool)
      requires Wired() && Tables()
      modifies this`liveIn, this`liveOut, this`liveAfter
      ensures Tables() && liveAfter == old(liveAfter)
      ensures changed ==> RoomLeft() < old(RoomLeft())
      ensures !changed ==> RoomLeft() <= old(RoomLeft()) && SolvedUpTo(graph, liveIn, liveOut, |graph|)
    {
      changed := false;
      for b := 0 to |graph|
        invariant Tables() && liveAfter == old(liveAfter)
        invariant RoomLeft() <= old(RoomLeft())
        invariant changed ==> RoomLeft() < old(RoomLeft())
        invariant !changed ==> SolvedUpTo(graph, liveIn, liveOut, b)
      {
        var refreshed := RefreshBlock(b);
        changed := changed || refreshed;
      }
    }

    method Record()
      requires liveAfter == map[]
      modifies this`liveAfter
      ensures forall p :: p in liveAfter <==> p.0 < |graph| && p.1 < |graph[p.0].events|
      ensures forall p :: p in liveAfter ==>
        liveAfter[p] == LiveFrom(graph[p.0].events, p.1 + 1, Entry(liveOut, p.0))
    {
      for b := 0 to |graph|
        invariant forall p :: p in liveAfter <==> p.0 < b && p.1 < |graph[p.0].events|
        invariant forall p :: p in liveAfter ==>
          liveAfter[p] == LiveFrom(graph[p.0].events, p.1 + 1, Entry(liveOut, p.0))
      {
        var _ := Transfer(b, Entry(liveOut, b), true);
      }
    }

    method Compute()
      requires Wired()
      modifies this
      ensures Exact(graph, liveAfter)
    {
      liveIn, liveOut, liveAfter := map[], map[], map[];
      var changed := true;
      while changed
        invariant liveAfter == map[] && Tables()
        invariant !changed ==> Solution(graph, liveIn, liveOut)
        decreases RoomLeft(), changed
      {
        changed := Round();
        if !changed {
          AllSolved(graph, liveIn, liveOut);
        }
      }
      Record();
      RecordedIsExact(graph, liveIn, liveOut, starts, ends, liveAfter);
    }
  }

  lemma RecordedIsExact(g: seq<EventBlock>, ins: map<nat, set<Storage>>, outs: map<nat, set<Storage>>,
      starts: map<nat, set<Storage>>, ends: map<nat, set<Storage>>, after: map<Point, set<Storage>>)
    requires Solution(g, ins, outs)
    requires Growing(g, ins, outs, starts, ends)
    requires forall b :: 0 <= b < |g| ==> Entry(ends, b) == UsedAfter(g, (b, |g[b].events|))
    requires forall p :: p in after <==> p.0 < |g| && p.1 < |g[p.0].events|
    requires forall p :: p in after ==> after[p] == LiveFrom(g[p.0].events, p.1 + 1, Entry(outs, p.0))
    ensures Exact(g, after)
  {
    forall p: Point, v ensures ExactAt(g, after, p, v) {
      if p in after {
        assert GrowingAt(g, ins, outs, starts, ends, p.0);
        LeastSolutionIsExact(g, ins, outs, p.0, p.1 + 1, v);
      }
    }
  }
}
