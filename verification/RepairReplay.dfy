/** Normalised patches, checked again: what the activation does with a repair output already accepted. */
module RepairReplay {
  import opened Options
  import opened Texts
  import opened Payloads
  import opened PayloadProofs
  import opened Effective
  import opened EffectiveProofs
  import opened Repair
  import opened RepairProofs

  lemma LaneTextIsClean(l: Lane)
    ensures CleanText(Str(LaneText(l))) == LaneText(l)
  {
    CleanIsText(LaneText(l));
  }

  lemma FieldTextIsClean(f: Field)
    ensures CleanText(Str(FieldText(f))) == FieldText(f)
  {
    hide Strip;
    CleanIsText(FieldText(f));
  }

  /** A normalised patch is read as a patch for its target. */
  lemma PatchIsPlanned(p: Patch, targets: seq<Target>)
    requires p.target in targets
    ensures RepairPatchOk(PatchJson(p), targets) && RepairTarget(PatchJson(p)) == Some(p.target)
    ensures Get(Members(PatchJson(p)), PatchStatement) == StatementJson(p.statement)
  {
    hide LaneText;
    hide FieldText;
    hide TargetNamed;
    hide CleanText;
    LaneTextIsClean(p.target.lane);
    FieldTextIsClean(p.target.field);
    TargetReadsBack(p.target);
    assert StatementJson(p.statement).Obj?;
    hide StatementJson;
  }

  /** One patch for each target, in the order of the plan. */
  predicate PatchesMatch(patches: seq<Patch>, targets: seq<Target>) {
    |patches| == |targets| && forall i | 0 <= i < |patches| :: patches[i].target == targets[i]
  }

  lemma VersionsAreClean()
    ensures CleanText(Str(RepairSchemaVersion())) == RepairSchemaVersion()
    ensures CleanText(Str(RepairPromptVersion())) == RepairPromptVersion()
  {
    CleanIsText(RepairSchemaVersion());
    CleanIsText(RepairPromptVersion());
  }

  lemma PatchesAreShaped(patches: seq<Patch>, targets: seq<Target>)
    requires PatchesMatch(patches, targets) && TargetsDiffer(patches)
    ensures RepairShaped(RepairJson(patches), targets)
  {
    VersionsAreClean();
    var items := PatchList(patches);
    forall i | 0 <= i < |items|
      ensures RepairPatchOk(items[i], targets) && RepairTarget(items[i]) == Some(targets[i])
    {
      PatchIsPlanned(patches[i], targets);
    }
    hide RepairPatchOk;
    hide RepairTarget;
    hide CleanText;
    hide PatchJson;
    forall t | t in targets ensures exists i | 0 <= i < |items| :: RepairTarget(items[i]) == Some(t) {
      var i :| 0 <= i < |targets| && targets[i] == t;
      assert RepairTarget(items[i]) == Some(t);
    }
    hide PatchList;
  }

  lemma {:induction false} PatchesReadBack(patches: seq<Patch>, i: nat)
    requires TargetsDiffer(patches) && i < |patches|
    ensures patches[i].target in RawRepair(PatchList(patches))
    ensures RawRepair(PatchList(patches))[patches[i].target] == StatementJson(patches[i].statement)
  {
    hide PatchJson;
    hide RepairTarget;
    hide StatementJson;
    hide RepairPatchOk;
    var n := |patches| - 1;
    assert PatchList(patches)[..n] == PatchList(patches[..n]);
    PatchIsPlanned(patches[n], [patches[n].target]);
    if i < n {
      PatchesReadBack(patches[..n], i);
    }
  }

  /** What normalised patches put in place: the patched statements at the targets and nothing else. */
  lemma PatchesPutInPlace(patches: seq<Patch>, targets: seq<Target>, t: Target)
    requires PatchesMatch(patches, targets) && TargetsDiffer(patches)
    ensures var raw := RawRepairOf(RepairJson(patches));
            && (t in raw <==> t in targets)
            && forall i | 0 <= i < |patches| && patches[i].target == t :: t in raw && raw[t] == StatementJson(patches[i].statement)
  {
    PatchesAreShaped(patches, targets);
    RepairHitsTargets(RepairJson(patches), targets);
    forall i | 0 <= i < |patches| && patches[i].target == t
      ensures t in RawRepair(PatchList(patches)) && RawRepair(PatchList(patches))[t] == StatementJson(patches[i].statement)
    {
      PatchesReadBack(patches, i);
    }
    hide RepairShaped;
    hide RawRepair;
    hide PatchList;
    hide StatementJson;
  }

  /** The payload with the patches in place. */
  function WithPatches(p: Payload, patches: seq<Patch>): (q: Payload)
    requires Full(p.options)
    ensures Full(q.options)
  {
    p.(options := Overlaid(p, RawRepairOf(RepairJson(patches))))
  }

  lemma PatchedStatement(rules: Rules, sources: Sources, p: Payload, patches: seq<Patch>, targets: seq<Target>, i: nat)
    requires Full(p.options) && PatchesMatch(patches, targets) && TargetsDiffer(patches) && i < |patches|
    requires GoodStatement(rules, sources, patches[i].statement)
    ensures WithPatches(p, patches).options[targets[i]] == patches[i].statement
    ensures targets[i] in RawRepairOf(RepairJson(patches))
    ensures StatementOk(rules, sources, RawRepairOf(RepairJson(patches))[targets[i]])
  {
    hide GoodStatement;
    hide StatementOk;
    hide StatementOf;
    hide StatementJson;
    hide RawRepairOf;
    hide RepairJson;
    PatchesPutInPlace(patches, targets, targets[i]);
    StatementFixpoint(rules, sources, patches[i].statement);
    assert targets[i] in Targets();
  }

  lemma RepairAnswerIs(rules: Rules, sources: Sources, targets: seq<Target>, p: Payload, j: Json, q: Payload)
    requires Full(p.options) && Full(q.options) && RepairShaped(j, targets)
    requires PayloadOk(rules, sources, Render(p, RawRepairOf(j))) && PayloadOf(Render(p, RawRepairOf(j))) == q
    ensures ValidateRepair(rules, sources, targets, p, j) == Some(PatchesFor(q, targets))
  {
    hide RepairShaped;
    hide PayloadOk;
    hide PayloadOf;
    hide Render;
    hide RawRepairOf;
    hide PatchesFor;
  }

  lemma SamePatches(p: Payload, patches: seq<Patch>, targets: seq<Target>)
    requires Full(p.options) && PatchesMatch(patches, targets)
    requires forall i | 0 <= i < |patches| :: p.options[targets[i]] == patches[i].statement
    ensures PatchesFor(p, targets) == patches
  {
  }

  lemma PatchedChecks(rules: Rules, sources: Sources, p: Payload, patches: seq<Patch>, targets: seq<Target>)
    requires GoodPayload(rules, sources, p) && PatchesMatch(patches, targets) && TargetsDiffer(patches)
    requires forall i | 0 <= i < |patches| :: GoodStatement(rules, sources, patches[i].statement)
    requires Distinguishable(rules, WithPatches(p, patches).options)
    ensures var raw := RawRepairOf(RepairJson(patches));
            PayloadOk(rules, sources, Render(p, raw)) && PayloadOf(Render(p, raw)) == WithPatches(p, patches)
    ensures forall i | 0 <= i < |patches| :: WithPatches(p, patches).options[targets[i]] == patches[i].statement
  {
    assert Full(p.options);
    var raw := RawRepairOf(RepairJson(patches));
    assert WithPatches(p, patches) == p.(options := Overlaid(p, raw));
    assert |patches| == |targets|;
    hide *;
    forall t ensures t in raw <==> t in targets {
      PatchesPutInPlace(patches, targets, t);
    }
    forall i | 0 <= i < |patches|
      ensures WithPatches(p, patches).options[targets[i]] == patches[i].statement
      ensures targets[i] in raw && StatementOk(rules, sources, raw[targets[i]])
    {
      PatchedStatement(rules, sources, p, patches, targets, i);
    }
    forall t | t in raw ensures StatementOk(rules, sources, raw[t]) {
      var i :| 0 <= i < |targets| && targets[i] == t;
    }
    GoodOverlay(rules, sources, p, raw);
  }

  /** Good patches that keep the drafts distinguishable are accepted, and returned as they are. */
  lemma GoodPatchesAccepted(rules: Rules, sources: Sources, p: Payload, patches: seq<Patch>, targets: seq<Target>)
    requires GoodPayload(rules, sources, p) && PatchesMatch(patches, targets) && TargetsDiffer(patches)
    requires forall i | 0 <= i < |patches| :: GoodStatement(rules, sources, patches[i].statement)
    requires Distinguishable(rules, WithPatches(p, patches).options)
    ensures ValidateRepair(rules, sources, targets, p, RepairJson(patches)) == Some(patches)
  {
    assert Full(p.options);
    hide *;
    PatchedChecks(rules, sources, p, patches, targets);
    PatchesAreShaped(patches, targets);
    RepairAnswerIs(rules, sources, targets, p, RepairJson(patches), WithPatches(p, patches));
    SamePatches(WithPatches(p, patches), patches, targets);
  }

  /**
   * A repair output is checked twice, once when it arrives and again, as normalised patches, when it
   * is activated: what the first check returned the second accepts and returns unchanged.
   */
  lemma NormalisedPatchesAcceptedAgain(rules: Rules, sources: Sources, p: Payload, targets: seq<Target>, j: Json)
    requires GoodPayload(rules, sources, p) && Ordered(targets) && ValidateRepair(rules, sources, targets, p, j).Some?
    ensures var patches := ValidateRepair(rules, sources, targets, p, j).value;
            ValidateRepair(rules, sources, targets, p, RepairJson(patches)) == Some(patches)
  {
    hide ValidateRepair;
    hide GoodStatement;
    hide Distinguishable;
    hide RawRepairOf;
    hide RepairJson;
    hide StatementOf;
    hide Ordered;
    ValidRepairIs(rules, sources, targets, p, j);
    var q := Replaced(p, targets, j);
    var patches := PatchesFor(q, targets);
    OrderedTargetsDiffer(q, targets);
    forall i | 0 <= i < |patches| ensures GoodStatement(rules, sources, patches[i].statement) {
      assert targets[i] in Targets();
    }
    SamePatched(rules, sources, p, targets, j);
    GoodPatchesAccepted(rules, sources, p, patches, targets);
  }

  lemma SamePatched(rules: Rules, sources: Sources, p: Payload, targets: seq<Target>, j: Json)
    requires GoodPayload(rules, sources, p) && Ordered(targets) && ValidateRepair(rules, sources, targets, p, j).Some?
    ensures WithPatches(p, PatchesFor(Replaced(p, targets, j), targets)).options == Replaced(p, targets, j).options
  {
    hide ValidateRepair;
    hide GoodStatement;
    hide Distinguishable;
    hide RepairJson;
    hide StatementOk;
    ValidRepairIs(rules, sources, targets, p, j);
    var q := Replaced(p, targets, j);
    var patches := PatchesFor(q, targets);
    OrderedTargetsDiffer(q, targets);
    var raw := RawRepairOf(RepairJson(patches));
    forall t ensures (t in raw <==> t in targets) && (t in targets ==> StatementOf(raw[t]) == q.options[t]) {
      PatchesPutInPlace(patches, targets, t);
      if t in targets {
        var i :| 0 <= i < |targets| && targets[i] == t;
        assert patches[i] == Patch(t, q.options[t]);
        assert t in Targets();
        StatementFixpoint(rules, sources, q.options[t]);
      }
    }
    hide RawRepairOf;
    hide StatementOf;
    hide PatchesFor;
    hide Ordered;
    hide StatementJson;
    hide GoodPayload;
  }
}
