/** What the three layers of an effective payload amount to. */
module EffectiveProofs {
  import opened Payloads
  import opened PayloadProofs
  import opened Effective

  /** The generator's own statements, normalised. */
  function Base(preview: Preview): Payload {
    PayloadOf(RawPayload(preview))
  }

  /** The generator's statements with the machine repair over them. */
  function Patched(preview: Preview): (p: Payload)
    ensures Full(p.options)
  {
    Base(preview).(options := Overlaid(Base(preview), PatchesOf(preview)))
  }

  /** All three layers, before the last validation. */
  function Layered(preview: Preview): (p: Payload)
    ensures Full(p.options)
  {
    WithEdits(Patched(preview), EditsOf(preview))
  }

  predicate PatchesHold(rules: Rules, sources: Sources, preview: Preview) {
    && (forall t | t in PatchesOf(preview) :: StatementOk(rules, sources, PatchesOf(preview)[t]))
    && Distinguishable(rules, Patched(preview).options)
  }

  /** Exactly when an effective payload can be built. */
  predicate Buildable(rules: Rules, sources: Sources, preview: Preview) {
    && PayloadOk(rules, sources, RawPayload(preview))
    && RepairOk(preview) && PatchesHold(rules, sources, preview)
    && EditsOk(preview) && GoodPayload(rules, sources, Layered(preview))
  }

  lemma NoRepairNoPatches(preview: Preview)
    requires !HasRepair(preview)
    ensures PatchesOf(preview) == map[]
  {
  }

  lemma EditsAreClean(preview: Preview)
    ensures forall t | t in EditsOf(preview) :: CleanString(EditsOf(preview)[t])
  {
    forall t | t in EditsOf(preview) ensures CleanString(EditsOf(preview)[t]) {
      TextIsClean(EditJson(preview, t));
    }
  }

  lemma EditedIsClean(p: Payload, edits: map<Target, string>)
    requires CleanPayload(p) && forall t | t in edits :: CleanString(edits[t])
    ensures CleanPayload(WithEdits(p, edits))
  {
    hide CleanString;
    hide CleanStrings;
    var q := WithEdits(p, edits);
    forall t | t in Targets() ensures CleanStatement(q.options[t]) {
      assert CleanStatement(p.options[t]);
    }
  }

  lemma GoodOverlay(rules: Rules, sources: Sources, base: Payload, raw: map<Target, Json>)
    requires GoodPayload(rules, sources, base)
    ensures PayloadOk(rules, sources, Render(base, raw)) <==>
              (forall t | t in raw :: StatementOk(rules, sources, raw[t])) && Distinguishable(rules, Overlaid(base, raw))
    ensures PayloadOf(Render(base, raw)) == base.(options := Overlaid(base, raw))
  {
    hide Render;
    hide PayloadOf;
    hide PayloadOk;
    hide StatementOk;
    hide GoodStatement;
    hide Distinguishable;
    hide Overlaid;
    GoodIsClean(rules, sources, base);
    hide CleanPayload;
    OverlayChecks(rules, sources, base, raw);
    forall t ensures CellOk(rules, sources, base, raw, t) <==> (t in raw ==> StatementOk(rules, sources, raw[t])) {
      assert t in Targets();
    }
  }

  lemma RepairedIs(rules: Rules, sources: Sources, preview: Preview)
    requires PayloadOk(rules, sources, RawPayload(preview))
    ensures GoodPayload(rules, sources, Base(preview))
    ensures Repaired(rules, sources, Base(preview), preview) ==
              if PatchesHold(rules, sources, preview) then Valid(Patched(preview)) else Invalid
    ensures PatchesHold(rules, sources, preview) ==> GoodPayload(rules, sources, Patched(preview))
  {
    hide PayloadOk;
    hide PayloadOf;
    hide RawPayload;
    hide Render;
    hide StatementOk;
    hide StatementOf;
    hide GoodStatement;
    hide Distinguishable;
    hide PatchesOf;
    AcceptedIsGood(rules, sources, RawPayload(preview));
    var base := Base(preview);
    GoodOverlay(rules, sources, base, PatchesOf(preview));
    if PayloadOk(rules, sources, Render(base, PatchesOf(preview))) {
      AcceptedIsGood(rules, sources, Render(base, PatchesOf(preview)));
    }
    if !HasRepair(preview) {
      NoRepairNoPatches(preview);
      assert Overlaid(base, map[]) == base.options;
    }
    hide HasRepair;
  }

  /**
   * The layers compose: an effective payload is built exactly when each layer holds, and it is the
   * generator's payload with the patches in place of the statements they target and the edits in
   * place of the texts they target. It is always good: grounded, with provenance, distinguishable.
   */
  lemma BuildLayers(rules: Rules, sources: Sources, preview: Preview)
    ensures Build(rules, sources, preview).Built? <==> Buildable(rules, sources, preview)
    ensures Build(rules, sources, preview).Built? ==>
              && Build(rules, sources, preview).payload == Layered(preview)
              && GoodPayload(rules, sources, Layered(preview))
  {
    hide PayloadOk;
    hide PayloadOf;
    hide RawPayload;
    hide Render;
    hide PatchesHold;
    hide PatchesOf;
    hide EditsOf;
    hide EditsOk;
    hide RepairOk;
    hide GoodPayload;
    hide Repaired;
    hide WithEdits;
    hide CleanPayload;
    hide Patched;
    if PayloadOk(rules, sources, RawPayload(preview)) {
      RepairedIs(rules, sources, preview);
      if PatchesHold(rules, sources, preview) {
        EditsAreClean(preview);
        GoodIsClean(rules, sources, Patched(preview));
        EditedIsClean(Patched(preview), EditsOf(preview));
        CleanReadsBack(rules, sources, Layered(preview));
      }
    }
  }

  /** Every effective payload, after any repair and any edits, is grounded in its sources. */
  lemma EffectiveIsGrounded(rules: Rules, sources: Sources, preview: Preview, t: Target)
    requires Build(rules, sources, preview).Built?
    ensures var st := Build(rules, sources, preview).payload.options;
            && Full(st)
            && rules.tokens(st[t].text) <= Supported(rules, sources, st[t].sourceIds)
            && NoDuplicates(st[t].sourceIds) && (forall id | id in st[t].sourceIds :: id in sources)
            && (st[t].sourceIds != [] || st[t].assumptions != [] || st[t].openEvidence != [])
    ensures Distinguishable(rules, Build(rules, sources, preview).payload.options)
  {
    BuildLayers(rules, sources, preview);
    hide Build;
    hide Layered;
    assert t in Targets();
    hide Supported;
    hide NoDuplicates;
    hide CleanStatement;
    hide Distinguishable;
  }

  // ---- which member of the preview each layer reads

  lemma SameEdits(a: Preview, b: Preview)
    requires Edits in a <==> Edits in b
    requires Edits in a ==> a[Edits] == b[Edits]
    ensures EditsOf(a) == EditsOf(b) && EditsOk(a) == EditsOk(b)
  {
    hide EditsObjectOk;
    hide TextOk;
    hide CleanText;
    assert Get(a, Edits) == Get(b, Edits);
    assert forall t :: EditJson(a, t) == EditJson(b, t);
    hide EditJson;
  }

  lemma SameBase(a: Preview, b: Preview)
    requires Get(a, SchemaVersion) == Get(b, SchemaVersion) && Get(a, PromptVersion) == Get(b, PromptVersion)
    requires Get(a, Options) == Get(b, Options)
    ensures RawPayload(a) == RawPayload(b) && Base(a) == Base(b)
  {
    hide PayloadOf;
  }

  lemma SameRepair(a: Preview, b: Preview)
    requires Get(a, MachineRepair) == Get(b, MachineRepair)
    ensures HasRepair(a) == HasRepair(b) && RepairOk(a) == RepairOk(b) && PatchesOf(a) == PatchesOf(b)
  {
    hide RepairObjectOk;
    hide PatchMap;
  }
}
