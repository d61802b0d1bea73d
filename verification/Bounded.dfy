/** Every element and every edge keeps a state inside the universe of the program it belongs to. */
module Bounded {
  import opened Flow
  import opened Height
  import opened Options
  import opened Transfer

  /** Allocation sites are numbered from 1. */
  ghost predicate CmdWithin(c: Cmd, w: Bounds) {
    match c
    case Malloc(x, site, _, at) => x < w.storages && 1 <= site < w.sites && at < w.positions
    case SetNull(x, _, at) => x < w.storages && at < w.positions
    case Copy(x, y, _, at) => x < w.storages && y < w.storages && at < w.positions
    case Move(x, y, _, at) => x < w.storages && y < w.storages && at < w.positions
    case Borrow(x, y, _, at) => x < w.storages && y < w.storages && at < w.positions
    case Declare(x) => x < w.storages
    case Free(x, at) => x < w.storages && at < w.positions
    case Deref(x, at) => x < w.storages && at < w.positions
    case Bump(x, at) => x < w.storages && at < w.positions
    case StoreScalar(x, _) => x < w.storages
    case Produce(p, _, at) =>
      && p.dest < w.storages && 1 <= p.site < w.sites && at < w.positions
      && (p.result.Some? ==> p.result.value < w.storages)
    case CallPoint => true
    case Enclosing(_) => true
    case Opaque => true
  }

  ghost predicate BlockWithin(b: Block, w: Bounds) {
    forall k :: 0 <= k < |b.cmds| ==> CmdWithin(b.cmds[k], w)
  }

  lemma IdIsBounded(site: Site, generation: nat, w: Bounds)
    requires 1 <= site < w.sites && generation <= 1
    ensures ObjectIdFor(site, generation) != NULL_ID
    ensures ObjectIdFor(site, generation) == UNKNOWN_ID || ObjectIdFor(site, generation) < IdBound(w)
  {
  }

  lemma BindWithin(st: FlowState, x: Storage, id: ObjectId, relation: Relation, at: nat, w: Bounds)
    requires Within(st, w) && x < w.storages && at < w.positions
    requires WfBinding(Binding(id, relation, At(at), false))
    ensures Within(Bind(st, x, id, relation, at), w)
  {
  }

  lemma ObjectUpdateWithin(st: FlowState, id: ObjectId, o: ObjectInfo, w: Bounds)
    requires Within(st, w) && id < IdBound(w) && WfObject(o) && ObjectWithin(o, w)
    ensures Within(st.(objects := st.objects[id := o]), w)
  {
  }

  lemma AllocateWithin(st: FlowState, x: Storage, site: Site, generation: nat, at: nat, w: Bounds)
    requires Within(st, w) && x < w.storages && 1 <= site < w.sites && generation <= 1 && at < w.positions
    ensures Within(AllocateAs(st, x, site, generation, at).state, w)
  {
    IdIsBounded(site, generation, w);
    var id := ObjectIdFor(site, generation);
    if id == UNKNOWN_ID {
      BindWithin(st, x, UNKNOWN_ID, UnknownRelation, at, w);
    } else {
      BindWithin(st, x, id, Owner, at, w);
      ObjectUpdateWithin(Bind(st, x, id, Owner, at), id, ObjectAt(st, id).(state := Owned, allocation := At(at)), w);
    }
  }

  lemma GenerationWithin(st: FlowState, site: Site, g: nat, w: Bounds)
    requires Within(st, w) && site < w.sites && g <= 1
    ensures Within(st.(generations := st.generations[site := g]), w)
  {
  }

  lemma WideningWithin(st: FlowState, site: Site, w: Bounds)
    requires Within(st, w) && site < w.sites
    ensures Within(st.(widened := st.widened + {site}), w)
  {
  }

  lemma MallocWithin(st: FlowState, x: Storage, site: Site, decl: bool, at: nat, w: Bounds)
    requires Within(st, w) && x < w.storages && 1 <= site < w.sites && at < w.positions
    ensures Within(MallocStep(st, x, site, decl, at).state, w)
  {
    var generation := Generation(st, site);
    GenerationWithin(st, site, generation, w);
    var st1 := st.(generations := st.generations[site := generation]);
    if site in st.widened {
      BindWithin(st1, x, UNKNOWN_ID, UnknownRelation, at, w);
    } else if !Retained(site, x, st1) {
      AllocateWithin(st1, x, site, generation, at, w);
    } else if generation >= 1 {
      WideningWithin(st1, site, w);
      BindWithin(st1.(widened := st1.widened + {site}), x, UNKNOWN_ID, UnknownRelation, at, w);
    } else {
      GenerationWithin(st1, site, 1, w);
      AllocateWithin(st1.(generations := st1.generations[site := 1]), x, site, 1, at, w);
    }
  }

  lemma MoveWithin(st: FlowState, x: Storage, y: Storage, at: nat, w: Bounds)
    requires Within(st, w) && x < w.storages && y < w.storages && at < w.positions
    ensures Within(MoveStep(st, x, y, at).state, w)
  {
    if !MoveIgnored(st, y) && y !in st.borrows {
      var b := st.storages[y];
      if KnownNull(b) {
        BindWithin(st, x, NULL_ID, Null, at, w);
      } else if b.id in st.objects {
        var given := st.(storages := st.storages[y := b.(relation := Moved, where := At(at))]);
        assert Within(given, w);
        BindWithin(given, x, b.id, Owner, at, w);
      }
    }
  }

  lemma BorrowWithinStep(st: FlowState, x: Storage, y: Storage, kind: BorrowKind, at: nat, w: Bounds)
    requires Within(st, w) && x < w.storages && y < w.storages && at < w.positions
    ensures Within(BorrowStep(st, x, y, kind, at).state, w)
  {
    if y in st.storages && st.storages[y].id != UNKNOWN_ID && st.storages[y].id != NULL_ID {
      BindWithin(st, x, st.storages[y].id, Alias, at, w);
    }
  }

  lemma ExpireWithin(st: FlowState, live: LiveAfter, w: Bounds)
    requires Within(st, w)
    ensures Within(ExpireBorrows(st, live), w)
  {
  }

  lemma KillWithin(st: FlowState, x: Storage, exempt: Option<nat>, w: Bounds)
    requires Within(st, w)
    ensures Within(KillForWrite(st, x, exempt), w)
  {
  }

  lemma InvalidateWithin(st: FlowState, id: ObjectId, at: nat, w: Bounds)
    requires Within(st, w) && at < w.positions
    ensures Within(InvalidateBorrows(st, id, at), w)
  {
    var st' := InvalidateBorrows(st, id, at);
    assert st'.storages == st.storages && st'.objects == st.objects;
    forall v | v in st'.borrows ensures v < w.storages && BorrowWithin(st'.borrows[v], w) {
      assert v in st.borrows && BorrowWithin(st.borrows[v], w);
    }
  }

  lemma FreeWithin(st: FlowState, x: Storage, at: nat, live: LiveAfter, w: Bounds)
    requires Within(st, w) && x < w.storages && at < w.positions
    ensures Within(FreeStep(st, x, at, live).state, w)
  {
    if x in st.storages && st.storages[x].id in st.objects {
      var id := st.storages[x].id;
      forall s: ObjectState ensures Within(Destroyed(st, x, id, s, at), w) {
        ObjectUpdateWithin(st, id, st.objects[id].(state := s, destruction := At(at), destructionKnown := true,
          destructionStorage := x + 1), w);
      }
      InvalidateWithin(Destroyed(st, x, id, Dead, at), id, at, w);
    }
  }

  lemma ProduceWithin(st: FlowState, p: Production, decl: bool, at: nat, w: Bounds)
    requires Within(st, w) && CmdWithin(Produce(p, decl, at), w)
    ensures Within(ProduceStep(st, p, decl, at).state, w)
  {
    var accepted := Accepts(st, p);
    var st1 := KillInCall(st, p, accepted);
    assert Within(st1, w);
    if accepted {
      ApplyWithin(st1, p, at, w);
      assert Within(RecordGuard(ApplyProduce(st1, p, at).state, p), w);
    }
    if p.result.Some? && !decl {
      var before := if accepted then RecordGuard(ApplyProduce(st1, p, at).state, p) else st1;
      KillWithin(before, p.result.value, Some(p.call), w);
    }
  }

  lemma ProducedWithin(st: FlowState, x: Storage, b: Binding, w: Bounds)
    requires Within(st, w) && x < w.storages && WfBinding(b) && LocationWithin(b.where, w)
    ensures Within(st.(storages := st.storages[x := b]), w)
  {
  }

  lemma ApplyWithin(st: FlowState, p: Production, at: nat, w: Bounds)
    requires Within(st, w) && p.dest < w.storages && 1 <= p.site < w.sites && at < w.positions
    ensures Within(ApplyProduce(st, p, at).state, w)
  {
    IdIsBounded(p.site, 0, w);
    var id := ObjectIdFor(p.site, 0);
    if id != UNKNOWN_ID {
      var o := ObjectAt(st, id).(state := Owned, allocation := At(at));
      var bound := st.(storages := st.storages[p.dest := ProducedBinding(p, id, at)]);
      ProducedWithin(st, p.dest, ProducedBinding(p, id, at), w);
      ObjectUpdateWithin(bound, id, o, w);
    }
  }

  lemma StepWithin(c: Cmd, st: FlowState, live: LiveAfter, w: Bounds)
    requires Within(st, w) && CmdWithin(c, w)
    ensures Within(Step(c, st, live).state, w)
  {
    match c
    case Malloc(x, site, decl, at) =>
      KillWithin(st, x, None, w);
      MallocWithin(Written(st, x, decl), x, site, decl, at, w);
    case SetNull(x, decl, at) => KillWithin(st, x, None, w); BindWithin(Written(st, x, decl), x, NULL_ID, Null, at, w);
    case Copy(x, y, decl, at) =>
      KillWithin(st, x, None, w);
      var st' := Written(st, x, decl);
      if y in st'.storages {
        if st'.storages[y].id == NULL_ID {
          BindWithin(st', x, NULL_ID, Null, at, w);
        } else if st'.storages[y].id != UNKNOWN_ID {
          BindWithin(st', x, st'.storages[y].id, CopiedRelation(st'.storages[y].relation), at, w);
        }
      }
    case Move(x, y, decl, at) => KillWithin(st, x, None, w); MoveWithin(Written(st, x, decl), x, y, at, w);
    case Borrow(x, y, kind, at) => BorrowWithinStep(st, x, y, kind, at, w);
    case Declare(_) =>
    case Free(x, at) => FreeWithin(st, x, at, live, w); ExpireWithin(FreeStep(st, x, at, live).state, live, w);
    case Deref(x, _) => ExpireWithin(st, live, w);
    case Bump(x, at) =>
      KillWithin(st, x, None, w);
      BindWithin(KillForWrite(st, x, None), x, UNKNOWN_ID, UnknownRelation, at, w);
      ExpireWithin(BindUnresolved(KillForWrite(st, x, None), x, at), live, w);
    case StoreScalar(x, decl) => KillWithin(st, x, None, w);
    case Produce(p, decl, at) =>
      ProduceWithin(st, p, decl, at, w);
      ExpireWithin(ProduceStep(st, p, decl, at).state, live, w);
    case CallPoint => ExpireWithin(st, live, w);
    case Enclosing(_) =>
    case Opaque =>
  }

  lemma {:induction false} RunWithin(cmds: seq<Cmd>, st: FlowState, live: seq<LiveAfter>, w: Bounds)
    requires |live| == |cmds| && Within(st, w)
    requires forall k :: 0 <= k < |cmds| ==> CmdWithin(cmds[k], w)
    ensures Within(RunBlock(cmds, st, live).state, w)
  {
    if cmds != [] {
      var n := |cmds| - 1;
      RunWithin(cmds[..n], st, live[..n], w);
      StepWithin(cmds[n], RunBlock(cmds[..n], st, live[..n]).state, live[n], w);
    }
  }

  lemma RebindWithin(st: FlowState, dest: Storage, b: Binding, w: Bounds)
    requires Within(st, w) && dest in st.storages && WfBinding(b) && b.where == st.storages[dest].where
    ensures Within(st.(storages := st.storages[dest := b]), w)
  {
  }

  lemma PolarityWithin(st: FlowState, dest: Storage, successNonzero: bool, equal: bool, zero: bool, w: Bounds)
    requires Within(st, w)
    ensures Within(RefineByPolarity(st, dest, successNonzero, equal, zero), w)
  {
    if dest in st.storages {
      var b := st.storages[dest];
      RebindWithin(st, dest, Binding(NULL_ID, Null, b.where, true), w);
      if b.id != NULL_ID && b.id != UNKNOWN_ID {
        RebindWithin(st, dest, Binding(b.id, Owner, b.where, false), w);
      }
    }
  }

  lemma NullCheckWithin(st: FlowState, dest: Storage, nonNull: bool, w: Bounds)
    requires Within(st, w)
    ensures Within(RefineByNullCheck(st, dest, nonNull), w)
  {
    if dest in st.storages {
      var b := st.storages[dest];
      RebindWithin(st, dest, Binding(NULL_ID, Null, b.where, true), w);
      if b.id != NULL_ID && b.id != UNKNOWN_ID {
        RebindWithin(st, dest, Binding(b.id, Owner, b.where, false), w);
      }
    }
  }

  lemma VariableWithin(st: FlowState, v: Storage, equal: bool, zero: bool, w: Bounds)
    requires Within(st, w)
    ensures Within(RefineVariable(st, v, equal, zero), w)
  {
    if v in st.pending {
      PolarityWithin(st, st.pending[v].dest, st.pending[v].successNonzero, equal, zero, w);
    } else {
      NullCheckWithin(st, v, !equal, w);
    }
  }

  lemma SubjectWithin(st: FlowState, s: Subject, equal: bool, zero: bool, w: Bounds)
    requires Within(st, w)
    ensures Within(RefineSubject(st, s, equal, zero), w)
  {
    match s
    case ProducingCall(dest, contract) => PolarityWithin(st, dest, contract.successNonzero, equal, zero, w);
    case OtherSubject =>
    case Variable(v) => VariableWithin(st, v, equal, zero, w);
    case AssignedVariable(v) => VariableWithin(st, v, equal, zero, w);
  }

  lemma {:induction false} RefineWithin(st: FlowState, c: Cond, holds: bool, w: Bounds)
    requires Within(st, w)
    ensures Within(Refine(st, c, holds), w)
  {
    match c
    case Not(inner) => RefineWithin(st, inner, !holds, w);
    case Equal(s, k) => SubjectWithin(st, s, holds, k.Some? && k.value == 0, w);
    case NotEqual(s, k) => SubjectWithin(st, s, !holds, k.Some? && k.value == 0, w);
    case Truth(s) => SubjectWithin(st, s, !holds, true, w);
    case OtherCond =>
  }

  lemma EdgeWithin(b: Block, i: nat, out: FlowState, w: Bounds)
    requires Within(out, w)
    ensures Within(EdgeState(b, i, out), w)
  {
    if b.cond.Some? {
      RefineWithin(out, b.cond.value, i == 0, w);
    }
  }
}
