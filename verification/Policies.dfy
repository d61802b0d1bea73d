/** Comparing two policies: does the newer one weaken what is proved, strengthen it, or need review? */
module Policies {
  import opened Options

  datatype ContractPin = ContractPin(path: string, sha256: string, trustClass: string)

  datatype Policy = Policy(
    profile: string, safetyLevel: string, baseRef: string, budgets: Budgets, allowUnsupported: bool,
    contractsReviewRequired: bool, frontendStandard: string, frontendArguments: seq<string>,
    scopeFiles: seq<string>, trustedContracts: seq<ContractPin>, pointerOutputContracts: Option<bool>)

  datatype Budgets = Budgets(
    unsafeBoundaries: nat, suppressions: nat, levelReductions: nat, scopeDecrease: nat, unsupportedIncrease: nat)

  datatype Classification = NoChange | ProofStrengthening | ReviewRequired | ProofWeakening

  datatype Kind =
    | UnsafeBudget | SuppressionBudget | LevelReductionBudget | ScopeDecreaseBudget | UnsupportedIncreaseBudget
    | UnsupportedPolicy | CheckedScope | SafetyLevel | BaseRef | Profile | FrontendStandard | FrontendArguments
    | ContractReviewPolicy | PointerOutputContracts | TrustedContractSet

  datatype Change = Change(kind: Kind, classification: Classification)

  function Scope(p: Policy): set<string> { set f | f in p.scopeFiles }

  // ---------------------------------------------------------------------------------------------
  // The list of changes
  // ---------------------------------------------------------------------------------------------

  /** `cs`, and one more change if something differs. */
  function AddIf(cs: seq<Change>, differs: bool, kind: Kind, c: Classification): seq<Change> {
    if differs then cs + [Change(kind, c)] else cs
  }

  function AddBudget(cs: seq<Change>, kind: Kind, before: nat, after: nat): seq<Change> {
    AddIf(cs, before != after, kind, if before < after then ProofWeakening else ProofStrengthening)
  }

  function AddBudgets(cs: seq<Change>, before: Budgets, after: Budgets): seq<Change> {
    var c1 := AddBudget(cs, UnsafeBudget, before.unsafeBoundaries, after.unsafeBoundaries);
    var c2 := AddBudget(c1, SuppressionBudget, before.suppressions, after.suppressions);
    var c3 := AddBudget(c2, LevelReductionBudget, before.levelReductions, after.levelReductions);
    var c4 := AddBudget(c3, ScopeDecreaseBudget, before.scopeDecrease, after.scopeDecrease);
    AddBudget(c4, UnsupportedIncreaseBudget, before.unsupportedIncrease, after.unsupportedIncrease)
  }

  function AddScope(cs: seq<Change>, before: set<string>, after: set<string>): seq<Change> {
    AddIf(cs, before != after, CheckedScope, if before <= after then ProofStrengthening else ProofWeakening)
  }

  function AddRules(cs: seq<Change>, before: Policy, after: Policy): seq<Change> {
    var c1 := AddIf(cs, before.safetyLevel != after.safetyLevel, SafetyLevel, ReviewRequired);
    var c2 := AddIf(c1, before.baseRef != after.baseRef, BaseRef, ReviewRequired);
    var c3 := AddIf(c2, before.profile != after.profile, Profile, ReviewRequired);
    var c4 := AddIf(c3, before.frontendStandard != after.frontendStandard, FrontendStandard, ReviewRequired);
    var c5 := AddIf(c4, before.frontendArguments != after.frontendArguments, FrontendArguments, ReviewRequired);
    var c6 := AddIf(c5, before.contractsReviewRequired != after.contractsReviewRequired, ContractReviewPolicy,
      ReviewRequired);
    var c7 := AddIf(c6, before.pointerOutputContracts != after.pointerOutputContracts, PointerOutputContracts,
      ReviewRequired);
    AddIf(c7, before.trustedContracts != after.trustedContracts, TrustedContractSet, ReviewRequired)
  }

  function Changes(before: Policy, after: Policy): seq<Change> {
    var c1 := AddBudgets([], before.budgets, after.budgets);
    var c2 := AddIf(c1, before.allowUnsupported != after.allowUnsupported, UnsupportedPolicy,
      if after.allowUnsupported then ProofWeakening else ProofStrengthening);
    var c3 := AddScope(c2, Scope(before), Scope(after));
    AddRules(c3, before, after)
  }

  // ---------------------------------------------------------------------------------------------
  // The comparison
  // ---------------------------------------------------------------------------------------------

  class PolicyDiff {
    var classification: Classification
    var changes: seq<Change>
    var weakened: bool
    var reviewRequired: bool

    constructor ()
      ensures classification == NoChange && changes == [] && !weakened && !reviewRequired
    {
      classification, changes, weakened, reviewRequired := NoChange, [], false, false;
    }

    method AddChange(kind: Kind, c: Classification)
      modifies this
      ensures changes == old(changes) + [Change(kind, c)] && classification == old(classification)
      ensures weakened == (old(weakened) || c == ProofWeakening)
      ensures reviewRequired == (old(reviewRequired) || c == ReviewRequired)
    {
      changes := changes + [Change(kind, c)];
      if c == ProofWeakening { weakened := true; }
      if c == ReviewRequired { reviewRequired := true; }
    }

    method CompareBudget(kind: Kind, before: nat, after: nat)
      modifies this
      ensures classification == old(classification) && reviewRequired == old(reviewRequired)
      ensures changes == AddBudget(old(changes), kind, before, after)
      ensures weakened == (old(weakened) || before < after)
    {
      if before != after {
        AddChange(kind, if before < after then ProofWeakening else ProofStrengthening);
      }
    }

    method CompareBudgets(before: Budgets, after: Budgets)
      modifies this
      ensures classification == old(classification) && reviewRequired == old(reviewRequired)
      ensures changes == AddBudgets(old(changes), before, after)
      ensures weakened == (old(weakened) || !BudgetsWithin(after, before))
    {
      CompareBudget(UnsafeBudget, before.unsafeBoundaries, after.unsafeBoundaries);
      CompareBudget(SuppressionBudget, before.suppressions, after.suppressions);
      CompareBudget(LevelReductionBudget, before.levelReductions, after.levelReductions);
      CompareBudget(ScopeDecreaseBudget, before.scopeDecrease, after.scopeDecrease);
      CompareBudget(UnsupportedIncreaseBudget, before.unsupportedIncrease, after.unsupportedIncrease);
    }

    /** A scope that both loses and gains files is weaker and also asks for review. */
    method CompareScope(before: set<string>, after: set<string>)
      modifies this
      ensures classification == old(classification)
      ensures changes == AddScope(old(changes), before, after)
      ensures weakened == (old(weakened) || !(before <= after))
      ensures reviewRequired == (old(reviewRequired) || (!(before <= after) && !(after <= before)))
    {
      if before != after {
        var removed, added := !(before <= after), !(after <= before);
        AddChange(CheckedScope, if removed then ProofWeakening else ProofStrengthening);
        if removed && added { reviewRequired := true; }
      }
    }

    method CompareEqual(kind: Kind, same: bool)
      modifies this
      ensures classification == old(classification) && weakened == old(weakened)
      ensures changes == AddIf(old(changes), !same, kind, ReviewRequired)
      ensures reviewRequired == (old(reviewRequired) || !same)
    {
      if !same { AddChange(kind, ReviewRequired); }
    }

    method CompareFixed(before: Policy, after: Policy)
      modifies this
      ensures classification == old(classification) && weakened == old(weakened)
      ensures changes == AddRules(old(changes), before, after)
      ensures reviewRequired == (old(reviewRequired) || !SameRules(before, after))
    {
      CompareEqual(SafetyLevel, before.safetyLevel == after.safetyLevel);
      CompareEqual(BaseRef, before.baseRef == after.baseRef);
      CompareEqual(Profile, before.profile == after.profile);
      CompareEqual(FrontendStandard, before.frontendStandard == after.frontendStandard);
      CompareEqual(FrontendArguments, before.frontendArguments == after.frontendArguments);
      CompareEqual(ContractReviewPolicy, before.contractsReviewRequired == after.contractsReviewRequired);
      CompareEqual(PointerOutputContracts, before.pointerOutputContracts == after.pointerOutputContracts);
      CompareEqual(TrustedContractSet, before.trustedContracts == after.trustedContracts);
    }

    method Classify()
      modifies this
      ensures changes == old(changes) && weakened == old(weakened) && reviewRequired == old(reviewRequired)
      ensures classification ==
        if weakened then ProofWeakening else if reviewRequired then ReviewRequired
        else if changes != [] then ProofStrengthening else old(classification)
    {
      if weakened { classification := ProofWeakening; }
      else if reviewRequired { classification := ReviewRequired; }
      else if changes != [] { classification := ProofStrengthening; }
    }
  }

  method ComparePolicies(before: Policy, after: Policy) returns (diff: PolicyDiff)
    ensures fresh(diff) && diff.classification == Verdict(before, after)
    ensures diff.changes == Changes(before, after)
  {
    diff := new PolicyDiff();
    diff.CompareBudgets(before.budgets, after.budgets);
    if before.allowUnsupported != after.allowUnsupported {
      diff.AddChange(UnsupportedPolicy, if after.allowUnsupported then ProofWeakening else ProofStrengthening);
    }
    diff.CompareScope(Scope(before), Scope(after));
    diff.CompareFixed(before, after);
    NoChangesMeansSame(before, after);
    diff.Classify();
  }

  // ---------------------------------------------------------------------------------------------
  // What the classification means
  // ---------------------------------------------------------------------------------------------

  predicate BudgetsWithin(a: Budgets, b: Budgets) {
    && a.unsafeBoundaries <= b.unsafeBoundaries && a.suppressions <= b.suppressions
    && a.levelReductions <= b.levelReductions && a.scopeDecrease <= b.scopeDecrease
    && a.unsupportedIncrease <= b.unsupportedIncrease
  }

  /** Everything that is compared for equality. */
  predicate SameRules(a: Policy, b: Policy) {
    && a.safetyLevel == b.safetyLevel && a.baseRef == b.baseRef && a.profile == b.profile
    && a.frontendStandard == b.frontendStandard && a.frontendArguments == b.frontendArguments
    && a.contractsReviewRequired == b.contractsReviewRequired
    && a.pointerOutputContracts == b.pointerOutputContracts && a.trustedContracts == b.trustedContracts
  }

  predicate Same(a: Policy, b: Policy) {
    a.budgets == b.budgets && a.allowUnsupported == b.allowUnsupported && Scope(a) == Scope(b) && SameRules(a, b)
  }

  /** The newer policy lets less pass, checks no less, and has the same rules. */
  predicate AtLeastAsStrong(before: Policy, after: Policy) {
    && BudgetsWithin(after.budgets, before.budgets) && (after.allowUnsupported ==> before.allowUnsupported)
    && Scope(before) <= Scope(after) && SameRules(before, after)
  }

  predicate Weakens(before: Policy, after: Policy) {
    || !BudgetsWithin(after.budgets, before.budgets) || (after.allowUnsupported && !before.allowUnsupported)
    || !(Scope(before) <= Scope(after))
  }

  function Verdict(before: Policy, after: Policy): Classification {
    if Weakens(before, after) then ProofWeakening
    else if !SameRules(before, after) then ReviewRequired
    else if !Same(before, after) then ProofStrengthening
    else NoChange
  }

  predicate Accepted(before: Policy, after: Policy) {
    Verdict(before, after) == NoChange || Verdict(before, after) == ProofStrengthening
  }

  lemma NoChangesMeansSame(before: Policy, after: Policy)
    ensures Changes(before, after) == [] <==> Same(before, after)
  {
  }

  /** A step needs nobody's attention exactly when the newer policy is at least as strong. */
  lemma AcceptedMeansStronger(before: Policy, after: Policy)
    ensures Accepted(before, after) <==> AtLeastAsStrong(before, after)
    ensures Verdict(before, after) == NoChange <==> Same(before, after)
    ensures Verdict(before, after) == NoChange <==> AtLeastAsStrong(before, after) && AtLeastAsStrong(after, before)
  {
  }

  // ---------------------------------------------------------------------------------------------
  // What each verdict and each change says
  // ---------------------------------------------------------------------------------------------

  /** What a run of the checks found: how often each budget was used, whether anything was unsupported, and
      which files were checked. */
  datatype Findings = Findings(used: Budgets, unsupported: bool, checked: set<string>)

  /** The policy lets the findings pass. */
  predicate Passes(p: Policy, x: Findings) {
    BudgetsWithin(x.used, p.budgets) && (x.unsupported ==> p.allowUnsupported) && Scope(p) <= x.checked
  }

  ghost predicate PassesMore(before: Policy, after: Policy) { exists x :: Passes(after, x) && !Passes(before, x) }

  lemma WeakensExactly(before: Policy, after: Policy)
    ensures Weakens(before, after) <==> PassesMore(before, after)
  {
    var limit := Findings(after.budgets, after.allowUnsupported, Scope(after));
    assert Passes(after, limit);
    if Weakens(before, after) { assert !Passes(before, limit); }
  }

  /** A comparison ends in weakening exactly if the newer policy passes something that the older did not; else
      in a review exactly if a rule differs; else in strengthening exactly if it no longer passes something. */
  lemma VerdictExactly(before: Policy, after: Policy)
    ensures Verdict(before, after) == ProofWeakening <==> PassesMore(before, after)
    ensures Verdict(before, after) == ReviewRequired <==> !PassesMore(before, after) && !SameRules(before, after)
    ensures Verdict(before, after) == ProofStrengthening <==>
      !PassesMore(before, after) && SameRules(before, after) && PassesMore(after, before)
    ensures Verdict(before, after) == NoChange <==>
      SameRules(before, after) && forall x :: Passes(before, x) <==> Passes(after, x)
  {
    WeakensExactly(before, after);
    WeakensExactly(after, before);
  }

  predicate IsBudget(kind: Kind) {
    kind in {UnsafeBudget, SuppressionBudget, LevelReductionBudget, ScopeDecreaseBudget, UnsupportedIncreaseBudget}
  }

  function Budget(kind: Kind, b: Budgets): nat
    requires IsBudget(kind)
  {
    match kind
    case UnsafeBudget => b.unsafeBoundaries
    case SuppressionBudget => b.suppressions
    case LevelReductionBudget => b.levelReductions
    case ScopeDecreaseBudget => b.scopeDecrease
    case UnsupportedIncreaseBudget => b.unsupportedIncrease
  }

  predicate IsRule(kind: Kind) { !IsBudget(kind) && kind != UnsupportedPolicy && kind != CheckedScope }

  predicate RuleDiffers(kind: Kind, a: Policy, b: Policy)
    requires IsRule(kind)
  {
    match kind
    case SafetyLevel => a.safetyLevel != b.safetyLevel
    case BaseRef => a.baseRef != b.baseRef
    case Profile => a.profile != b.profile
    case FrontendStandard => a.frontendStandard != b.frontendStandard
    case FrontendArguments => a.frontendArguments != b.frontendArguments
    case ContractReviewPolicy => a.contractsReviewRequired != b.contractsReviewRequired
    case PointerOutputContracts => a.pointerOutputContracts != b.pointerOutputContracts
    case TrustedContractSet => a.trustedContracts != b.trustedContracts
  }

  /** The kind is one whose value differs. */
  predicate Differs(kind: Kind, a: Policy, b: Policy) {
    if IsBudget(kind) then Budget(kind, a.budgets) != Budget(kind, b.budgets)
    else if IsRule(kind) then RuleDiffers(kind, a, b)
    else if kind == UnsupportedPolicy then a.allowUnsupported != b.allowUnsupported
    else Scope(a) != Scope(b)
  }

  /** `before` with the value of this kind, if it limits what passes, taken from `after`. */
  function With(kind: Kind, before: Policy, after: Policy): Policy {
    var b, a := before.budgets, after.budgets;
    match kind
    case UnsafeBudget => before.(budgets := b.(unsafeBoundaries := a.unsafeBoundaries))
    case SuppressionBudget => before.(budgets := b.(suppressions := a.suppressions))
    case LevelReductionBudget => before.(budgets := b.(levelReductions := a.levelReductions))
    case ScopeDecreaseBudget => before.(budgets := b.(scopeDecrease := a.scopeDecrease))
    case UnsupportedIncreaseBudget => before.(budgets := b.(unsupportedIncrease := a.unsupportedIncrease))
    case UnsupportedPolicy => before.(allowUnsupported := after.allowUnsupported)
    case CheckedScope => before.(scopeFiles := after.scopeFiles)
    case _ => before
  }

  /** The classification that goes with a change: a review if it is a rule that changes, and else weakening
      or strengthening by whether that value alone lets more pass. */
  ghost function Deserved(kind: Kind, before: Policy, after: Policy): Classification {
    if IsRule(kind) then ReviewRequired
    else if PassesMore(before, With(kind, before, after)) then ProofWeakening else ProofStrengthening
  }

  lemma LooserValue(kind: Kind, before: Policy, after: Policy)
    requires !IsRule(kind)
    ensures PassesMore(before, With(kind, before, after)) <==>
      if IsBudget(kind) then Budget(kind, before.budgets) < Budget(kind, after.budgets)
      else if kind == UnsupportedPolicy then after.allowUnsupported && !before.allowUnsupported
      else !(Scope(before) <= Scope(after))
  {
    WeakensExactly(before, With(kind, before, after));
  }

  lemma BudgetsAdded(before: Budgets, after: Budgets, x: Change)
    ensures x in AddBudgets([], before, after) <==>
      && IsBudget(x.kind) && Budget(x.kind, before) != Budget(x.kind, after)
      && x.classification ==
           if Budget(x.kind, before) < Budget(x.kind, after) then ProofWeakening else ProofStrengthening
  {
  }

  lemma RulesAdded(cs: seq<Change>, before: Policy, after: Policy, x: Change)
    ensures x in AddRules(cs, before, after) <==>
      x in cs || (IsRule(x.kind) && RuleDiffers(x.kind, before, after) && x.classification == ReviewRequired)
  {
  }

  /** A change is listed exactly if its value differs, with the classification that it deserves. */
  lemma ChangesExactly(before: Policy, after: Policy, x: Change)
    ensures x in Changes(before, after) <==>
      Differs(x.kind, before, after) && x.classification == Deserved(x.kind, before, after)
  {
    var c1 := AddBudgets([], before.budgets, after.budgets);
    var c2 := AddIf(c1, before.allowUnsupported != after.allowUnsupported, UnsupportedPolicy,
      if after.allowUnsupported then ProofWeakening else ProofStrengthening);
    var c3 := AddScope(c2, Scope(before), Scope(after));
    BudgetsAdded(before.budgets, after.budgets, x);
    RulesAdded(c3, before, after, x);
    if !IsRule(x.kind) { LooserValue(x.kind, before, after); }
  }

  ghost predicate AcceptedChain(ps: seq<Policy>) {
    forall i :: 0 <= i < |ps| - 1 ==> Accepted(ps[i], ps[i + 1])
  }

  /** Along a chain of accepted steps the last policy is accepted against the first: small steps cannot
      smuggle in what one step could not. */
  lemma {:induction false} AcceptedStepsCompose(ps: seq<Policy>)
    requires |ps| > 0 && AcceptedChain(ps)
    ensures Accepted(ps[0], ps[|ps| - 1])
  {
    var m := |ps| - 1;
    if m > 0 {
      forall i | 0 <= i < |ps[..m]| - 1 ensures Accepted(ps[..m][i], ps[..m][i + 1]) {
        assert Accepted(ps[i], ps[i + 1]);
      }
      AcceptedStepsCompose(ps[..m]);
      assert Accepted(ps[m - 1], ps[m - 1 + 1]);
      AcceptedMeansStronger(ps[0], ps[m - 1]);
      AcceptedMeansStronger(ps[m - 1], ps[m]);
      AcceptedMeansStronger(ps[0], ps[m]);
    } else {
      AcceptedMeansStronger(ps[0], ps[0]);
    }
  }

  /** If nothing changed from end to end, nothing changed on the way. */
  lemma {:induction false} UnchangedChain(ps: seq<Policy>, i: nat)
    requires i < |ps| && AcceptedChain(ps) && Verdict(ps[0], ps[|ps| - 1]) == NoChange
    ensures Verdict(ps[0], ps[i]) == NoChange
  {
    var upTo, onward := ps[..i + 1], ps[i..];
    forall j | 0 <= j < |upTo| - 1 ensures Accepted(upTo[j], upTo[j + 1]) {
      assert Accepted(ps[j], ps[j + 1]);
    }
    forall j | 0 <= j < |onward| - 1 ensures Accepted(onward[j], onward[j + 1]) {
      assert Accepted(ps[i + j], ps[i + j + 1]);
    }
    AcceptedStepsCompose(upTo);
    AcceptedStepsCompose(onward);
    AcceptedMeansStronger(ps[0], ps[i]);
    AcceptedMeansStronger(ps[i], ps[|ps| - 1]);
    AcceptedMeansStronger(ps[0], ps[|ps| - 1]);
  }
}
