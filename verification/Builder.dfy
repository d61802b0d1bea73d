/** The summary builder itself: it walks a body and updates the summary in place. `Summaries` says what
    each step amounts to. */
module Builder {
  import opened Options
  import opened Syntax
  import opened Effects
  import opened Summaries

  class SummaryBuilder {
    const defined: Defined
    const store: Store
    var summary: Summary

    constructor (d: Defined, old_: Store)
      ensures defined == d && store == old_
    {
      defined, store := d, old_;
      summary := Annotated(d);
    }

    predicate Sized()
      reads this
    {
      |summary.params| == |defined.f.params|
    }

    method SetEffect(i: nat, e: ParamEffect)
      requires Sized() && i < |summary.params|
      modifies this`summary
      ensures summary == SetParam(old(summary), i, e)
    {
      summary := summary.(params := summary.params[i := e]);
    }

    /** `wary`: a parameter that points to pointers becomes unknown rather than borrowed. */
    method MarkUses(e: Stmt, wary: bool)
      requires Sized()
      modifies this`summary
      ensures summary == if wary then MarkFlow(defined.f, old(summary), e) else MarkBorrow(defined.f, old(summary), e)
    {
      ghost var s0 := summary;
      ghost var marked := if wary then MarkFlow(defined.f, s0, e) else MarkBorrow(defined.f, s0, e);
      for i := 0 to |defined.f.params|
        invariant Sized() && summary == s0.(params := summary.params)
        invariant forall j :: 0 <= j < |s0.params| ==> summary.params[j] == if j < i then marked.params[j]
          else s0.params[j]
      {
        if Tracked(defined.f, i) && ContainsParameter(defined.f, e, i) && summary.params[i] == NoEffect {
          SetEffect(i, if wary && defined.f.params[i].pointee.Pointer? then UnknownEffect else Borrows);
        }
      }
      assert summary.params == marked.params;
    }

    method ContainedParameters(e: Stmt) returns (currents: seq<nat>)
      ensures currents == Contained(defined.f, e, |defined.f.params|)
    {
      currents := [];
      for i := 0 to |defined.f.params|
        invariant currents == Contained(defined.f, e, i)
      {
        if Tracked(defined.f, i) && ContainsParameter(defined.f, e, i) {
          currents := currents + [i];
        }
      }
    }

    method InvolvedParameters(call: Stmt, k: nat) returns (currents: seq<nat>)
      requires call.Call? && k < |call.arguments|
      ensures currents == Involved(defined.f, store, call, k)
    {
      currents := ContainedParameters(call.arguments[k]);
      if currents == [] && ConsumingCall(store, call, k) {
        var alias := AliasedParameter(defined.f, call.arguments[k]);
        if alias.Some? {
          currents := [alias.value];
        }
      }
    }

    method ForgetParameters(currents: seq<nat>)
      requires Sized() && forall i :: i in currents ==> i < |defined.f.params|
      modifies this`summary
      ensures summary == ForgetAll(old(summary), currents)
    {
      ghost var s0 := summary;
      for k := 0 to |currents|
        invariant Sized() && ForgetAll(summary, currents[k..]) == ForgetAll(s0, currents)
      {
        assert currents[k..][1..] == currents[k + 1..] && currents[k] in currents;
        SetEffect(currents[k], UnknownEffect);
      }
    }

    method ScanArgument(call: Stmt, k: nat, conditional: bool)
      requires Sized() && call.Call? && k < |call.arguments|
      modifies this`summary
      ensures summary == NoteStep(old(summary), NoteOf(defined.f, store, call, k), conditional)
    {
      var currents := InvolvedParameters(call, k);
      if currents == [] {
        return;
      }
      if |currents| > 1 {
        ForgetParameters(currents);
        return;
      }
      var current := currents[0];
      assert current in currents;
      var effect := ArgumentEffect(store, call, k);
      if conditional && !Harmless(effect) {
        effect := UnknownEffect;
      }
      SetEffect(current, Combine(summary.params[current], effect));
    }

    method ScanCall(call: Stmt, conditional: bool)
      requires Sized() && call.Call?
      modifies this`summary
      ensures summary == CallStep(defined.f, store, old(summary), call, conditional)
    {
      ghost var s0 := summary;
      ghost var notes := Notes(defined.f, store, call);
      for k := 0 to |call.arguments|
        invariant Sized() && summary == NoteSteps(s0, notes[..k], conditional)
      {
        assert notes[..k + 1][..k] == notes[..k];
        ScanArgument(call, k, conditional);
      }
      assert notes[..|call.arguments|] == notes;
      if call.callee == Some(Realloc) {
        summary := summary.(conflict := true);
      }
    }

    method ScanDeclaration(ds: seq<Declarator>)
      requires Sized()
      modifies this`summary
      ensures summary == MarkFlows(defined.f, old(summary), ds)
    {
      ghost var s0 := summary;
      for k := 0 to |ds|
        invariant Sized() && summary == MarkFlows(defined.f, s0, ds[..k])
      {
        assert ds[..k + 1][..k] == ds[..k];
        if ds[k].ty.Pointer? && ds[k].init.Some? {
          MarkUses(ds[k].init.value, true);
        }
      }
      assert ds[..|ds|] == ds;
    }

    method ScanNode(node: Stmt, conditional: bool)
      requires Sized()
      modifies this`summary
      ensures summary == NodeStep(defined.f, store, old(summary), node, conditional)
    {
      match node
      case Return(_) =>
        if ReturnsPointer(defined.f, node) {
          summary := CombineReturn(summary, ValueReturned(defined.f, store, summary, Strip(node.returned.value)));
        }
      case Dereference(x, _) => MarkUses(x, true);
      case Member(base, arrow, _) => if arrow { MarkUses(base, false); }
      case Subscript(base, _, _) => MarkUses(base, false);
      case Declaration(ds) => ScanDeclaration(ds);
      case Assignment(left, right) => if TypeOf(defined.f, left).Pointer? { MarkUses(right, true); }
      case Call(_, _, _) => ScanCall(node, conditional);
      case _ =>
    }

    method ScanStatement(node: Stmt, conditional: bool)
      requires Sized()
      modifies this`summary
      ensures summary == Scan(defined.f, store, old(summary), node, conditional)
      decreases node
    {
      if ReturnsNull(defined.f, node) {
        return;
      }
      ScanNode(node, conditional);
      ghost var s1 := summary;
      var nested := conditional || node.Branching? || node.Conditional?;
      var kids := Children(node);
      for k := 0 to |kids|
        invariant Sized() && summary == ScanFirst(defined.f, store, s1, node, k, nested)
      {
        ScanFirstNext(defined.f, store, s1, node, k, nested);
        ScanStatement(kids[k], nested);
      }
      assert kids[..|kids|] == kids;
    }

    /** The function's summary, given the previous round's. */
    method BuildSummary(returnsPointer: bool) returns (r: Summary)
      requires WellAnnotated(defined)
      modifies this`summary
      ensures r == Build(defined, returnsPointer, store)
    {
      summary := Annotated(defined);
      ScanStatement(defined.f.body, false);
      if returnsPointer && summary.result == NoReturn {
        summary := summary.(result := UnknownReturn);
      }
      if summary.conflict {
        summary := Summary(UnknownReturn, None, seq(|summary.params|, _ => UnknownEffect), true);
      }
      r := summary;
    }
  }
}
