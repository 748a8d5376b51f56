/** The frame of a repair: what activating it changes, and that it changes nothing else. */
module RepairProofs {
  import opened Options
  import opened Payloads
  import opened PayloadProofs
  import opened Effective
  import opened EffectiveProofs
  import opened Repair

  // ---- the stored patches are read back

  predicate TargetsDiffer(patches: seq<Patch>) {
    forall i, k | 0 <= i < k < |patches| :: patches[i].target != patches[k].target
  }

  lemma PatchReadsBack(p: Patch)
    ensures PatchOk(PatchJson(p)) && PatchTarget(PatchJson(p)) == Some(p.target)
    ensures Get(Members(PatchJson(p)), PatchStatement) == StatementJson(p.statement)
  {
    TargetReadsBack(p.target);
    hide TargetNamed;
    hide LaneText;
    hide FieldText;
    assert StatementJson(p.statement).Obj?;
    hide StatementJson;
  }

  lemma PatchListReadsBack(patches: seq<Patch>)
    requires TargetsDiffer(patches)
    ensures PatchesOk(PatchList(patches))
  {
    forall i | 0 <= i < |patches|
      ensures PatchOk(PatchList(patches)[i]) && PatchTarget(PatchList(patches)[i]) == Some(patches[i].target)
    {
      PatchReadsBack(patches[i]);
    }
    hide PatchOk;
    hide PatchTarget;
    hide PatchJson;
  }

  lemma {:induction false} PatchMapReadsBack(patches: seq<Patch>)
    requires TargetsDiffer(patches)
    ensures forall t :: t in PatchMap(PatchList(patches)) <==> exists i | 0 <= i < |patches| :: patches[i].target == t
    ensures forall i | 0 <= i < |patches| ::
              patches[i].target in PatchMap(PatchList(patches))
              && PatchMap(PatchList(patches))[patches[i].target] == StatementJson(patches[i].statement)
  {
    hide PatchJson;
    hide PatchTarget;
    hide StatementJson;
    if patches != [] {
      var front, last := patches[..|patches| - 1], patches[|patches| - 1];
      PatchMapReadsBack(front);
      PatchReadsBack(last);
      assert PatchList(patches)[..|patches| - 1] == PatchList(front);
    }
  }

  // ---- activation leaves the other layers alone

  lemma StoredRepairReads(run: string, hash: string, patches: seq<Patch>)
    requires TextOk(Str(run)) && TextOk(Str(hash)) && patches != [] && TargetsDiffer(patches)
    ensures StoredRepair(run, hash, patches).Obj? && RepairObjectOk(StoredRepair(run, hash, patches).members)
    ensures Get(Members(StoredRepair(run, hash, patches)), Patches) == List(PatchList(patches))
  {
    PatchListReadsBack(patches);
    hide PatchesOk;
    hide TextOk;
    hide PatchJson;
    hide TargetsDiffer;
    assert |PatchList(patches)| == |patches|;
    hide PatchList;
  }

  lemma ActivationReads(preview: Preview, run: string, hash: string, patches: seq<Patch>)
    requires TextOk(Str(run)) && TextOk(Str(hash)) && patches != [] && TargetsDiffer(patches)
    ensures var after := Activated(preview, run, hash, patches);
            && Base(after) == Base(preview) && RawPayload(after) == RawPayload(preview)
            && EditsOf(after) == EditsOf(preview) && EditsOk(after) == EditsOk(preview)
            && RepairOk(after) && PatchesOf(after) == PatchMap(PatchList(patches))
  {
    hide RepairObjectOk;
    hide PatchMap;
    hide PatchList;
    hide Base;
    hide RawPayload;
    hide EditsOf;
    hide EditsOk;
    hide TextOk;
    hide StoredRepair;
    hide TargetsDiffer;
    StoredRepairReads(run, hash, patches);
    var after := Activated(preview, run, hash, patches);
    SameBase(preview, after);
    SameEdits(preview, after);
  }

  // ---- the targets of a valid repair

  lemma {:induction false} RawRepairTargets(items: seq<Json>, t: Target)
    ensures t in RawRepair(items) <==> exists i | 0 <= i < |items| :: RepairTarget(items[i]) == Some(t)
  {
    hide RepairTarget;
    if items != [] {
      RawRepairTargets(items[..|items| - 1], t);
    }
  }

  lemma RepairHitsTargets(j: Json, targets: seq<Target>)
    requires RepairShaped(j, targets)
    ensures forall t :: t in RawRepairOf(j) <==> t in targets
  {
    hide CleanText;
    hide RepairTarget;
    var items := Get(Members(j), Patches).items;
    forall t ensures t in RawRepairOf(j) <==> t in targets {
      RawRepairTargets(items, t);
    }
    hide RawRepair;
  }

  lemma OrderedTargetsDiffer(p: Payload, targets: seq<Target>)
    requires Full(p.options) && Ordered(targets)
    ensures TargetsDiffer(PatchesFor(p, targets))
  {
    hide Rank;
  }

  /** The old payload with exactly the targeted statements replaced by what the repair proposes, normalised. */
  function Replaced(before: Payload, targets: seq<Target>, j: Json): (p: Payload)
    requires Full(before.options)
    ensures Full(p.options)
  {
    before.(options := map t | t in Targets() ::
        if t in targets && t in RawRepairOf(j) then StatementOf(RawRepairOf(j)[t]) else before.options[t])
  }

  lemma ValidRepairIs(rules: Rules, sources: Sources, targets: seq<Target>, p: Payload, j: Json)
    requires GoodPayload(rules, sources, p) && ValidateRepair(rules, sources, targets, p, j).Some?
    ensures ValidateRepair(rules, sources, targets, p, j) == Some(PatchesFor(Replaced(p, targets, j), targets))
    ensures GoodPayload(rules, sources, Replaced(p, targets, j))
    ensures forall t | t in targets :: t in RawRepairOf(j)
  {
    hide RepairShaped;
    hide RawRepairOf;
    hide Render;
    hide PayloadOk;
    hide PayloadOf;
    hide StatementOf;
    hide GoodStatement;
    hide Distinguishable;
    var raw := RawRepairOf(j);
    RepairHitsTargets(j, targets);
    GoodOverlay(rules, sources, p, raw);
    AcceptedIsGood(rules, sources, Render(p, raw));
    assert Overlaid(p, raw) == Replaced(p, targets, j).options;
  }

  // ---- the frame

  /** The patches over the generator's payload, without the human edits. */
  function RepairedBase(preview: Preview, p: Payload, targets: seq<Target>): (q: Payload)
    requires Full(p.options)
    ensures Full(q.options)
  {
    Base(preview).(options := map t | t in Targets() :: if t in targets then p.options[t] else Base(preview).options[t])
  }

  lemma StoredStatements(p: Payload, targets: seq<Target>, t: Target)
    requires Ordered(targets) && CleanPayload(p)
    ensures var stored := PatchMap(PatchList(PatchesFor(p, targets)));
            (t in stored <==> t in targets) && (t in targets ==> stored[t] == StatementJson(p.options[t]))
  {
    hide PatchMap;
    hide PatchList;
    hide StatementJson;
    var patches := PatchesFor(p, targets);
    OrderedTargetsDiffer(p, targets);
    PatchMapReadsBack(patches);
    if t in targets {
      var i :| 0 <= i < |targets| && targets[i] == t;
      assert patches[i] == Patch(t, p.options[t]);
    }
    hide Ordered;
  }

  lemma OverlayOfStored(p: Payload, base: Payload, targets: seq<Target>)
    requires Ordered(targets) && CleanPayload(p) && Full(base.options)
    ensures Overlaid(base, PatchMap(PatchList(PatchesFor(p, targets)))) ==
              map t | t in Targets() :: if t in targets then p.options[t] else base.options[t]
  {
    hide PatchMap;
    hide PatchList;
    hide PatchesFor;
    hide StatementJson;
    hide StatementOf;
    hide CleanStatement;
    hide Ordered;
    var stored := PatchMap(PatchList(PatchesFor(p, targets)));
    forall t
      ensures (t in stored <==> t in targets) && (t in targets ==> StatementOf(stored[t]) == p.options[t])
    {
      StoredStatements(p, targets, t);
      CleanAt(p, t);
      StatementReadsBack(p.options[t]);
    }
  }

  lemma PatchedAfter(preview: Preview, run: string, hash: string, p: Payload, targets: seq<Target>)
    requires TextOk(Str(run)) && TextOk(Str(hash)) && targets != [] && Ordered(targets) && CleanPayload(p)
    ensures var after := Activated(preview, run, hash, PatchesFor(p, targets));
            && Patched(after) == RepairedBase(preview, p, targets)
            && (forall t :: t in PatchesOf(after) ==> t in targets && PatchesOf(after)[t] == StatementJson(p.options[t]))
            && Base(after) == Base(preview) && RawPayload(after) == RawPayload(preview) && RepairOk(after)
            && EditsOf(after) == EditsOf(preview) && EditsOk(after) == EditsOk(preview)
  {
    assert Full(p.options) && |PatchesFor(p, targets)| == |targets|;
    hide Activated;
    hide PatchMap;
    hide PatchList;
    hide PatchesOf;
    hide PatchesFor;
    hide Base;
    hide RawPayload;
    hide Ordered;
    hide EditsOf;
    hide EditsOk;
    hide RepairOk;
    hide TextOk;
    hide Overlaid;
    hide StatementJson;
    hide CleanPayload;
    OrderedTargetsDiffer(p, targets);
    ActivationReads(preview, run, hash, PatchesFor(p, targets));
    OverlayOfStored(p, Base(preview), targets);
    forall t | t in PatchMap(PatchList(PatchesFor(p, targets)))
      ensures t in targets && PatchMap(PatchList(PatchesFor(p, targets)))[t] == StatementJson(p.options[t])
    {
      StoredStatements(p, targets, t);
    }
  }

  lemma StoredPatchesHold(rules: Rules, sources: Sources, after: Preview, p: Payload)
    requires GoodPayload(rules, sources, p)
    requires forall t | t in PatchesOf(after) :: PatchesOf(after)[t] == StatementJson(p.options[t])
    ensures PatchesHold(rules, sources, after) <==> Distinguishable(rules, Patched(after).options)
  {
    hide Distinguishable;
    hide StatementJson;
    hide StatementOk;
    hide PatchesOf;
    hide Patched;
    hide GoodStatement;
    forall t | t in PatchesOf(after) ensures StatementOk(rules, sources, PatchesOf(after)[t]) {
      assert t in Targets() && GoodStatement(rules, sources, p.options[t]);
      StatementFixpoint(rules, sources, p.options[t]);
    }
  }

  /** Outside the targets the old payload is the generator's with the edits; on them nothing was edited. */
  lemma LayersCommute(preview: Preview, after: Preview, targets: seq<Target>, p: Payload)
    requires Full(p.options) && Patched(after) == RepairedBase(preview, p, targets) && EditsOf(after) == EditsOf(preview)
    requires Patched(preview) == Base(preview)
    requires forall t | t in targets :: t !in EditsOf(preview)
    requires p == Layered(preview).(options := p.options)
    requires forall t | t !in targets :: p.options[t] == Layered(preview).options[t]
    ensures Layered(after) == p
  {
    hide EditsOf;
    hide Base;
    hide Patched;
    assert Layered(after).options == p.options;
  }

  /** An accepted repair output for a preview without a repair, on targets without a human edit. */
  ghost predicate RepairAccepted(rules: Rules, sources: Sources, preview: Preview, before: Payload, targets: seq<Target>,
    j: Json, patches: seq<Patch>)
  {
    && !HasRepair(preview) && Build(rules, sources, preview) == Built(before) && Full(before.options)
    && targets != [] && Ordered(targets) && (forall t | t in targets :: t !in EditsOf(preview))
    && ValidateRepair(rules, sources, targets, before, j) == Some(patches)
  }

  /** The new effective payload: exactly the targets replaced, every human edit still in effect. */
  ghost predicate Framed(rules: Rules, sources: Sources, preview: Preview, before: Payload, targets: seq<Target>, j: Json,
    after: Preview)
    requires Full(before.options)
  {
    && Build(rules, sources, after) == Built(Replaced(before, targets, j))
    && forall t | t in EditsOf(preview) :: Replaced(before, targets, j).options[t].text == EditsOf(preview)[t]
  }

  lemma AcceptedIs(rules: Rules, sources: Sources, preview: Preview, before: Payload, targets: seq<Target>, j: Json, patches: seq<Patch>)
    requires RepairAccepted(rules, sources, preview, before, targets, j, patches)
    ensures before == Layered(preview) && GoodPayload(rules, sources, before) && Patched(preview) == Base(preview)
    ensures patches == PatchesFor(Replaced(before, targets, j), targets)
    ensures GoodPayload(rules, sources, Replaced(before, targets, j))
    ensures EditsOk(preview) && PayloadOk(rules, sources, RawPayload(preview))
  {
    hide Build;
    hide ValidateRepair;
    hide GoodPayload;
    hide PayloadOk;
    hide Layered;
    hide Patched;
    hide Replaced;
    hide Ordered;
    hide EditsOf;
    hide EditsOk;
    hide PatchesHold;
    BuildLayers(rules, sources, preview);
    NoRepairIsBase(preview);
    ValidRepairIs(rules, sources, targets, before, j);
  }

  /** Activating the accepted output rebuilds the payload it was checked in, if the bare patches validate. */
  lemma AcceptedRebuilds(rules: Rules, sources: Sources, preview: Preview, before: Payload, targets: seq<Target>, j: Json,
      patches: seq<Patch>, run: string, hash: string)
    requires RepairAccepted(rules, sources, preview, before, targets, j, patches) && TextOk(Str(run)) && TextOk(Str(hash))
    ensures var after := Activated(preview, run, hash, patches);
            && Layered(after) == Replaced(before, targets, j)
            && (Buildable(rules, sources, after) <==>
                  Distinguishable(rules, RepairedBase(preview, Replaced(before, targets, j), targets).options))
  {
    AcceptedIs(rules, sources, preview, before, targets, j, patches);
    assert targets != [] && Ordered(targets) && (forall t | t in targets :: t !in EditsOf(preview));
    var expected := Replaced(before, targets, j);
    assert expected == before.(options := expected.options) && forall t | t !in targets :: expected.options[t] == before.options[t];
    hide *;
    assert Full(expected.options);
    GoodIsClean(rules, sources, expected);
    PatchedAfter(preview, run, hash, expected, targets);
    var after := Activated(preview, run, hash, patches);
    LayersCommute(preview, after, targets, expected);
    StoredPatchesHold(rules, sources, after, expected);
    BuildableIf(rules, sources, after);
  }

  lemma BuildableIf(rules: Rules, sources: Sources, after: Preview)
    requires PayloadOk(rules, sources, RawPayload(after)) && RepairOk(after) && EditsOk(after)
    requires GoodPayload(rules, sources, Layered(after))
    ensures Buildable(rules, sources, after) <==> PatchesHold(rules, sources, after)
  {
  }

  /**
   * The repair frame. Activating an accepted repair output succeeds exactly when the patches leave
   * the drafts distinguishable also without the human edits. Then the new effective payload is the
   * old one with exactly the plan's targets replaced by the normalised patches, the very payload the
   * output was checked in, and every human edit stays in effect.
   */
  lemma RepairFrame(rules: Rules, sources: Sources, preview: Preview, before: Payload, targets: seq<Target>, j: Json,
      patches: seq<Patch>, run: string, hash: string)
    requires RepairAccepted(rules, sources, preview, before, targets, j, patches) && TextOk(Str(run)) && TextOk(Str(hash))
    ensures Full(before.options)
    ensures var after := Activated(preview, run, hash, patches);
            if Distinguishable(rules, RepairedBase(preview, Replaced(before, targets, j), targets).options)
            then Framed(rules, sources, preview, before, targets, j, after)
            else Build(rules, sources, after).Refused?
  {
    AcceptedRebuilds(rules, sources, preview, before, targets, j, patches, run, hash);
    AcceptedIs(rules, sources, preview, before, targets, j, patches);
    var after := Activated(preview, run, hash, patches);
    hide Activated;
    hide Build;
    hide Buildable;
    hide Layered;
    hide Replaced;
    hide RepairedBase;
    hide ValidateRepair;
    hide Distinguishable;
    hide GoodPayload;
    hide TextOk;
    hide EditsOf;
    hide Ordered;
    BuildLayers(rules, sources, after);
    EditsStay(preview, targets, j);
  }

  lemma NoRepairIsBase(preview: Preview)
    requires !HasRepair(preview)
    ensures Patched(preview) == Base(preview)
  {
    NoRepairNoPatches(preview);
    hide PatchesOf;
    hide PayloadOf;
    hide StatementOf;
    assert Overlaid(Base(preview), map[]) == Base(preview).options;
  }

  lemma EditsStay(preview: Preview, targets: seq<Target>, j: Json)
    requires forall t | t in targets :: t !in EditsOf(preview)
    ensures forall t | t in EditsOf(preview) :: Replaced(Layered(preview), targets, j).options[t].text == EditsOf(preview)[t]
  {
    hide RawRepairOf;
    hide StatementOf;
    hide Patched;
    assert forall t | t in EditsOf(preview) :: t in Targets();
    hide EditsOf;
  }

  /** Without human edits an accepted repair output can always be activated. */
  lemma UneditedRepairActivates(rules: Rules, sources: Sources, preview: Preview, before: Payload, targets: seq<Target>, j: Json,
      patches: seq<Patch>, run: string, hash: string)
    requires RepairAccepted(rules, sources, preview, before, targets, j, patches) && EditsOf(preview) == map[]
    requires TextOk(Str(run)) && TextOk(Str(hash))
    ensures Full(before.options)
    ensures Framed(rules, sources, preview, before, targets, j, Activated(preview, run, hash, patches))
  {
    assert EditsOf(preview) == map[];
    hide *;
    RepairFrame(rules, sources, preview, before, targets, j, patches, run, hash);
    AcceptedIs(rules, sources, preview, before, targets, j, patches);
    UneditedIsBase(preview, before, targets, j);
    GoodIsDistinguishable(rules, sources, Replaced(before, targets, j));
  }

  lemma GoodIsDistinguishable(rules: Rules, sources: Sources, p: Payload)
    requires GoodPayload(rules, sources, p)
    ensures Full(p.options) && Distinguishable(rules, p.options)
  {
    hide Distinguishable;
  }

  lemma UneditedIsBase(preview: Preview, before: Payload, targets: seq<Target>, j: Json)
    requires EditsOf(preview) == map[] && before == Layered(preview) && Patched(preview) == Base(preview)
    ensures Full(before.options)
    ensures RepairedBase(preview, Replaced(before, targets, j), targets).options == Replaced(before, targets, j).options
  {
    hide Patched;
    hide EditsOf;
    hide Base;
    hide RawRepairOf;
    hide StatementOf;
    assert before.options == Base(preview).options;
  }

  lemma SharedNameIsSeen(rules: Rules, options: map<Target, Statement>, a: Lane, b: Lane)
    requires Full(options) && a != b
    requires Signature(rules, options[Target(a, OptionName)].text) == Signature(rules, options[Target(b, OptionName)].text)
    ensures !Distinguishable(rules, options)
  {
    assert SameName(rules, options, a, b);
  }

  lemma BareStatement(preview: Preview, p: Payload, targets: seq<Target>, t: Target)
    requires Full(p.options)
    ensures RepairedBase(preview, p, targets).options[t] == if t in targets then p.options[t] else Base(preview).options[t]
  {
    hide Base;
    assert t in Targets();
  }

  /**
   * The failing family: a person has renamed one draft, and the repair gives another draft the name
   * the generator had given the first. The output is accepted, since the effective names differ, but
   * activating it is refused, since without the human edit two drafts share a name.
   */
  lemma FreedNameIsRefused(rules: Rules, sources: Sources, preview: Preview, before: Payload, targets: seq<Target>, j: Json,
      patches: seq<Patch>, run: string, hash: string, renamed: Lane, repaired: Lane)
    requires RepairAccepted(rules, sources, preview, before, targets, j, patches) && TextOk(Str(run)) && TextOk(Str(hash))
    requires renamed != repaired
    requires Target(renamed, OptionName) !in targets && Target(repaired, OptionName) in targets
    requires Signature(rules, Replaced(before, targets, j).options[Target(repaired, OptionName)].text) ==
             Signature(rules, Base(preview).options[Target(renamed, OptionName)].text)
    ensures Build(rules, sources, Activated(preview, run, hash, patches)).Refused?
  {
    var expected := Replaced(before, targets, j);
    hide *;
    RepairFrame(rules, sources, preview, before, targets, j, patches, run, hash);
    BareStatement(preview, expected, targets, Target(renamed, OptionName));
    BareStatement(preview, expected, targets, Target(repaired, OptionName));
    SharedNameIsSeen(rules, RepairedBase(preview, expected, targets).options, renamed, repaired);
  }
}
