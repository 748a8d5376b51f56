/** When an effective payload exists and what it is, said of the stored preview itself. */
module EffectiveMeaning {
  import opened Options
  import opened Texts
  import opened Payloads
  import opened PayloadProofs
  import opened PayloadMeaning
  import opened Effective
  import opened EffectiveProofs

  // ---- the human edits

  predicate Nonblank(j: Json) { j.Str? && Strip(j.s) != "" }

  /** The preview holds exactly these edits, by lane and field, and nothing unreadable beside them. */
  ghost predicate HoldsEdits(preview: Preview, edits: map<Target, string>) {
    if Edits !in preview then edits == map[]
    else
      var j := preview[Edits];
      && j.Obj?
      && (forall n | n in j.members :: n.Of? && j.members[n].Obj? && forall m | m in j.members[n].members :: m.Part? && Nonblank(j.members[n].members[m]))
      && (forall t: Target :: t in edits <==> Of(t.lane) in j.members && j.members[Of(t.lane)].Obj? && Part(t.field) in j.members[Of(t.lane)].members)
      && (forall t | t in edits ::
            Of(t.lane) in j.members && j.members[Of(t.lane)].Obj? && Part(t.field) in j.members[Of(t.lane)].members
            && Shows(j.members[Of(t.lane)].members[Part(t.field)], edits[t]))
  }

  lemma EditsReadableIff(preview: Preview)
    ensures EditsOk(preview) <==>
              (Edits in preview ==>
                 && preview[Edits].Obj?
                 && forall n | n in preview[Edits].members ::
                      n.Of? && preview[Edits].members[n].Obj? && forall m | m in preview[Edits].members[n].members :: m.Part? && Nonblank(preview[Edits].members[n].members[m]))
  {
    hide Strip;
  }

  lemma EditAt(preview: Preview, t: Target)
    requires EditsOk(preview)
    ensures t in EditsOf(preview) <==>
              Edits in preview && Of(t.lane) in preview[Edits].members && Part(t.field) in preview[Edits].members[Of(t.lane)].members
    ensures t in EditsOf(preview) ==> Shows(preview[Edits].members[Of(t.lane)].members[Part(t.field)], EditsOf(preview)[t])
  {
    hide Strip;
    assert t in Targets();
    TextShows(EditJson(preview, t), CleanText(EditJson(preview, t)));
  }

  lemma EditsHeld(preview: Preview)
    requires EditsOk(preview)
    ensures HoldsEdits(preview, EditsOf(preview))
  {
    EditsReadableIff(preview);
    forall t: Target
      ensures t in EditsOf(preview) <==>
                Edits in preview && Of(t.lane) in preview[Edits].members && Part(t.field) in preview[Edits].members[Of(t.lane)].members
      ensures t in EditsOf(preview) ==> Shows(preview[Edits].members[Of(t.lane)].members[Part(t.field)], EditsOf(preview)[t])
    {
      EditAt(preview, t);
    }
    hide EditsOk;
    hide EditsOf;
    hide Shows;
    hide Nonblank;
  }

  lemma HeldEditsAgree(preview: Preview, a: map<Target, string>, b: map<Target, string>)
    requires HoldsEdits(preview, a) && HoldsEdits(preview, b)
    ensures a == b
  {
    hide Nonblank;
    hide Strip;
    assert a.Keys == b.Keys;
  }

  lemma HeldIsReadable(preview: Preview, edits: map<Target, string>)
    requires HoldsEdits(preview, edits)
    ensures EditsOk(preview)
  {
    EditsReadableIff(preview);
    hide EditsOk;
    hide Nonblank;
    hide Shows;
  }

  /** The edits are readable exactly if the preview holds some, and they are the ones it holds. */
  lemma EditsMean(preview: Preview, edits: map<Target, string>)
    ensures HoldsEdits(preview, edits) <==> EditsOk(preview) && EditsOf(preview) == edits
  {
    if HoldsEdits(preview, edits) {
      HeldIsReadable(preview, edits);
      EditsHeld(preview);
      HeldEditsAgree(preview, edits, EditsOf(preview));
    }
    if EditsOk(preview) {
      EditsHeld(preview);
    }
    hide HoldsEdits;
    hide EditsOk;
    hide EditsOf;
  }

  // ---- the machine repair

  /** The item is a patch of this target. */
  predicate PatchFor(item: Json, t: Target) {
    && item.Obj? && item.members.Keys == {PatchOption, PatchField, PatchStatement}
    && item.members[PatchOption] == Str(LaneText(t.lane)) && item.members[PatchField] == Str(FieldText(t.field))
  }

  ghost predicate PatchSays(item: Json, patches: map<Target, Statement>) {
    exists t :: PatchFor(item, t) && t in patches && Says(item.members[PatchStatement], patches[t])
  }

  /** The preview holds a repair with exactly these patches, one item for each, or none and no patches. */
  ghost predicate HoldsRepair(preview: Preview, patches: map<Target, Statement>) {
    if MachineRepair !in preview || preview[MachineRepair] == Null then patches == map[]
    else
      var j := preview[MachineRepair];
      && j.Obj? && j.members.Keys == {QualityRunId, InputHash, PromptVersion, SchemaVersion, Patches}
      && Nonblank(j.members[QualityRunId]) && Nonblank(j.members[InputHash])
      && j.members[PromptVersion] == Str("1.0") && j.members[SchemaVersion] == Str("1.0")
      && j.members[Patches].List? && j.members[Patches].items != []
      && var items := j.members[Patches].items;
         && (forall i | 0 <= i < |items| :: PatchSays(items[i], patches))
         && (forall i, k, t | 0 <= i < k < |items| && PatchFor(items[i], t) :: !PatchFor(items[k], t))
         && (forall t | t in patches :: exists i :: 0 <= i < |items| && PatchFor(items[i], t))
  }

  lemma NamedIff(option: string, field: string, t: Target)
    ensures TargetNamed(option, field) == Some(t) <==> option == LaneText(t.lane) && field == FieldText(t.field)
  {
    LaneReadsBack(t.lane);
    FieldReadsBack(t.field);
    LaneNamedIs(option);
    FieldNamedIs(field);
    hide LaneNamed;
    hide FieldNamed;
    hide LaneText;
    hide FieldText;
  }

  lemma LaneNamedIs(s: string)
    ensures LaneNamed(s).Some? ==> LaneText(LaneNamed(s).value) == s
  {
  }

  lemma FieldNamedIs(s: string)
    ensures FieldNamed(s).Some? ==> FieldText(FieldNamed(s).value) == s
  {
  }

  lemma PatchForIff(item: Json, t: Target)
    requires PatchOk(item)
    ensures PatchFor(item, t) <==> PatchTarget(item) == Some(t)
  {
    NamedIff(item.members[PatchOption].s, item.members[PatchField].s, t);
    hide TargetNamed;
    hide LaneText;
    hide FieldText;
  }

  lemma PatchForIsOk(item: Json, t: Target)
    requires PatchFor(item, t) && item.members[PatchStatement].Obj?
    ensures PatchOk(item) && PatchTarget(item) == Some(t)
  {
    NamedIff(LaneText(t.lane), FieldText(t.field), t);
    hide TargetNamed;
    hide LaneText;
    hide FieldText;
  }

  lemma PatchMapStep(items: seq<Json>)
    requires PatchesOk(items) && items != []
    ensures var n := |items| - 1;
            && PatchesOk(items[..n]) && PatchTarget(items[n]).Some?
            && PatchMap(items) == PatchMap(items[..n])[PatchTarget(items[n]).value := items[n].members[PatchStatement]]
            && forall i | 0 <= i < n :: items[..n][i] == items[i] && PatchTarget(items[i]) != PatchTarget(items[n])
  {
    hide PatchTarget;
    assert PatchOk(items[|items| - 1]);
  }

  /** What stands at a target was put there by a patch of it. */
  lemma {:induction false} PatchAt(items: seq<Json>, t: Target) returns (i: nat)
    requires PatchesOk(items) && t in PatchMap(items)
    ensures i < |items| && PatchOk(items[i]) && PatchTarget(items[i]) == Some(t)
    ensures PatchMap(items)[t] == items[i].members[PatchStatement]
  {
    var n := |items| - 1;
    PatchMapStep(items);
    i := n;
    assert PatchOk(items[n]);
    hide PatchTarget;
    hide PatchesOk;
    hide PatchOk;
    if PatchTarget(items[n]) != Some(t) {
      i := PatchAt(items[..n], t);
    }
  }

  /** And every patch stands at its target. */
  lemma {:induction false} PatchStands(items: seq<Json>, i: nat)
    requires PatchesOk(items) && i < |items|
    ensures PatchOk(items[i]) && PatchTarget(items[i]).Some? && PatchTarget(items[i]).value in PatchMap(items)
    ensures PatchMap(items)[PatchTarget(items[i]).value] == items[i].members[PatchStatement]
  {
    var n := |items| - 1;
    PatchMapStep(items);
    assert PatchOk(items[n]);
    hide PatchTarget;
    hide PatchesOk;
    hide PatchOk;
    hide PatchMap;
    if i < n {
      PatchStands(items[..n], i);
    }
  }

  function StatementsOf(raw: map<Target, Json>): map<Target, Statement> {
    map t | t in raw :: StatementOf(raw[t])
  }

  predicate AllShaped(raw: map<Target, Json>) {
    forall t | t in raw :: StatementShaped(raw[t])
  }

  /** The patches themselves, without what surrounds them. */
  ghost predicate HoldsPatches(items: seq<Json>, patches: map<Target, Statement>) {
    && (forall i | 0 <= i < |items| :: PatchSays(items[i], patches))
    && (forall i, k, t | 0 <= i < k < |items| && PatchFor(items[i], t) :: !PatchFor(items[k], t))
    && (forall t | t in patches :: exists i :: 0 <= i < |items| && PatchFor(items[i], t))
  }

  lemma SaidPatchIsOk(item: Json, patches: map<Target, Statement>) returns (t: Target)
    requires PatchSays(item, patches)
    ensures PatchOk(item) && PatchTarget(item) == Some(t) && PatchFor(item, t)
    ensures t in patches && StatementShaped(item.members[PatchStatement]) && StatementOf(item.members[PatchStatement]) == patches[t]
  {
    t :| PatchFor(item, t) && t in patches && Says(item.members[PatchStatement], patches[t]);
    SaysIff(item.members[PatchStatement], patches[t]);
    PatchForIsOk(item, t);
    hide PatchFor;
    hide Says;
    hide StatementOf;
  }

  lemma HeldPatchesAreOk(items: seq<Json>, patches: map<Target, Statement>)
    requires HoldsPatches(items, patches)
    ensures PatchesOk(items)
  {
    hide PatchSays;
    hide PatchFor;
    hide PatchTarget;
    hide PatchOk;
    forall i | 0 <= i < |items| ensures PatchOk(items[i]) {
      var t := SaidPatchIsOk(items[i], patches);
    }
    forall i, k | 0 <= i < k < |items| ensures PatchTarget(items[i]) != PatchTarget(items[k]) {
      var t := SaidPatchIsOk(items[i], patches);
      var u := SaidPatchIsOk(items[k], patches);
    }
  }

  lemma PatchIn(items: seq<Json>, i: nat, t: Target)
    requires PatchesOk(items) && i < |items| && PatchFor(items[i], t)
    ensures t in PatchMap(items)
  {
    PatchForIff(items[i], t);
    PatchStands(items, i);
    hide PatchMap;
    hide PatchFor;
  }

  lemma HeldPatchAt(items: seq<Json>, patches: map<Target, Statement>, t: Target)
    requires HoldsPatches(items, patches) && PatchesOk(items) && t in PatchMap(items)
    ensures t in patches && StatementShaped(PatchMap(items)[t]) && StatementOf(PatchMap(items)[t]) == patches[t]
  {
    hide *;
    var i := PatchAt(items, t);
    assert PatchSays(items[i], patches) by { HeldPatchSays(items, patches, i); }
    var u := SaidPatchIsOk(items[i], patches);
  }

  lemma HeldPatchSays(items: seq<Json>, patches: map<Target, Statement>, i: nat)
    requires HoldsPatches(items, patches) && i < |items|
    ensures PatchSays(items[i], patches)
  {
    hide PatchSays;
    hide PatchFor;
  }

  lemma HeldPatchesAre(items: seq<Json>, patches: map<Target, Statement>)
    requires HoldsPatches(items, patches)
    ensures PatchesOk(items) && AllShaped(PatchMap(items)) && patches == StatementsOf(PatchMap(items))
  {
    hide *;
    HeldPatchesAreOk(items, patches);
    var raw := PatchMap(items);
    forall t | t in raw ensures t in patches && StatementShaped(raw[t]) && StatementOf(raw[t]) == patches[t] {
      HeldPatchAt(items, patches, t);
    }
    forall t | t in patches ensures t in raw {
      HeldTarget(items, patches, t);
    }
    ReadAsSaid(raw, patches);
  }

  lemma HeldTarget(items: seq<Json>, patches: map<Target, Statement>, t: Target)
    requires HoldsPatches(items, patches) && PatchesOk(items) && t in patches
    ensures t in PatchMap(items)
  {
    hide PatchSays;
    hide PatchFor;
    hide PatchesOk;
    hide PatchMap;
    var i :| 0 <= i < |items| && PatchFor(items[i], t);
    PatchIn(items, i, t);
  }

  lemma ReadAsSaid(raw: map<Target, Json>, patches: map<Target, Statement>)
    requires forall t :: t in raw <==> t in patches
    requires forall t | t in raw :: StatementShaped(raw[t]) && StatementOf(raw[t]) == patches[t]
    ensures AllShaped(raw) && patches == StatementsOf(raw)
  {
    hide StatementShaped;
    hide StatementOf;
  }

  lemma OkPatchSays(items: seq<Json>, i: nat)
    requires PatchesOk(items) && AllShaped(PatchMap(items)) && i < |items|
    ensures PatchSays(items[i], StatementsOf(PatchMap(items)))
  {
    PatchStands(items, i);
    var t := PatchTarget(items[i]).value;
    PatchForIff(items[i], t);
    assert PatchOk(items[i]);
    hide PatchTarget;
    hide PatchMap;
    hide PatchFor;
    hide PatchesOk;
    SaysIff(items[i].members[PatchStatement], StatementOf(items[i].members[PatchStatement]));
    hide StatementShaped;
    hide StatementOf;
    hide Says;
    var raw := PatchMap(items);
    assert StatementShaped(raw[t]) && StatementsOf(raw)[t] == StatementOf(raw[t]);
    assert PatchFor(items[i], t) && t in StatementsOf(raw) && Says(items[i].members[PatchStatement], StatementsOf(raw)[t]);
  }

  lemma OnePatchEach(items: seq<Json>, i: nat, k: nat, t: Target)
    requires PatchesOk(items) && i < k < |items| && PatchFor(items[i], t)
    ensures !PatchFor(items[k], t)
  {
    PatchForIff(items[i], t);
    PatchForIff(items[k], t);
    hide PatchFor;
    hide PatchTarget;
    hide PatchOk;
  }

  lemma PatchHasItem(items: seq<Json>, t: Target)
    requires PatchesOk(items) && t in PatchMap(items)
    ensures exists i :: 0 <= i < |items| && PatchFor(items[i], t)
  {
    var i := PatchAt(items, t);
    PatchForIff(items[i], t);
    hide PatchFor;
    hide PatchTarget;
    hide PatchMap;
  }

  lemma OkPatchesAreHeld(items: seq<Json>)
    requires PatchesOk(items) && AllShaped(PatchMap(items))
    ensures HoldsPatches(items, StatementsOf(PatchMap(items)))
  {
    hide PatchSays;
    hide PatchFor;
    hide PatchMap;
    hide StatementOf;
    hide PatchesOk;
    hide AllShaped;
    forall i | 0 <= i < |items| ensures PatchSays(items[i], StatementsOf(PatchMap(items))) {
      OkPatchSays(items, i);
    }
    forall i, k, t | 0 <= i < k < |items| && PatchFor(items[i], t) ensures !PatchFor(items[k], t) {
      OnePatchEach(items, i, k, t);
    }
    forall t | t in StatementsOf(PatchMap(items)) ensures exists i :: 0 <= i < |items| && PatchFor(items[i], t) {
      PatchHasItem(items, t);
    }
  }

  /** A stored repair can be read exactly if the preview holds one, statements included, and it is the one it holds. */
  lemma RepairMeans(preview: Preview, patches: map<Target, Statement>)
    ensures HoldsRepair(preview, patches) <==>
              RepairOk(preview) && AllShaped(PatchesOf(preview)) && patches == StatementsOf(PatchesOf(preview))
  {
    hide PatchSays;
    hide PatchFor;
    hide StatementOf;
    hide StatementShaped;
    hide Strip;
    if !HasRepair(preview) {
      NoRepairNoPatches(preview);
    } else {
      var patchList := Get(Members(preview[MachineRepair]), Patches);
      hide PatchesOk;
      hide PatchMap;
      if patchList.List? {
        if HoldsPatches(patchList.items, patches) {
          HeldPatchesAre(patchList.items, patches);
        }
        if PatchesOk(patchList.items) && AllShaped(PatchMap(patchList.items)) {
          OkPatchesAreHeld(patchList.items);
        }
      }
      hide AllShaped;
      hide StatementsOf;
    }
  }

  // ---- the three layers

  /** The generator's statements with the patches in place of those they target. */
  function Patchwork(base: Payload, patches: map<Target, Statement>): (p: Payload)
    requires Full(base.options)
    ensures Full(p.options)
  {
    base.(options := map t | t in Targets() :: if t in patches then patches[t] else base.options[t])
  }

  /**
   * The layers of an effective payload, one by one: a sound payload of the generator, the patches of a repair with
   * which it stays sound, and the human edits with which the whole is sound once more.
   */
  ghost predicate Layers(rules: Rules, sources: Sources, preview: Preview, base: Payload, patches: map<Target, Statement>,
    edits: map<Target, string>, p: Payload)
  {
    && SaysPayload(RawPayload(preview), base) && Sound(rules, sources, base)
    && HoldsRepair(preview, patches) && Sound(rules, sources, Patchwork(base, patches))
    && HoldsEdits(preview, edits)
    && Full(p.options) && p == WithEdits(Patchwork(base, patches), edits) && Sound(rules, sources, p)
  }

  lemma PatchworkIs(preview: Preview)
    ensures Patchwork(Base(preview), StatementsOf(PatchesOf(preview))) == Patched(preview)
  {
    hide PatchesOf;
    hide StatementOf;
    hide RawPayload;
    assert Patchwork(Base(preview), StatementsOf(PatchesOf(preview))).options == Patched(preview).options;
  }

  lemma PatchesHoldIff(rules: Rules, sources: Sources, preview: Preview)
    requires GoodPayload(rules, sources, Base(preview))
    ensures PatchesHold(rules, sources, preview) <==> AllShaped(PatchesOf(preview)) && Sound(rules, sources, Patched(preview))
  {
    SoundIff(rules, sources, Patched(preview));
    SoundIff(rules, sources, Base(preview));
    var raw := PatchesOf(preview);
    forall t: Target
      ensures Patched(preview).options[t] == if t in raw then StatementOf(raw[t]) else Base(preview).options[t]
      ensures StatementHolds(rules, sources, Base(preview).options[t])
    {
      assert t in Targets();
    }
    assert VersionsOk(Patched(preview)) == VersionsOk(Base(preview)) && Full(Patched(preview).options);
    hide PatchesOf;
    hide StatementOf;
    hide StatementShaped;
    hide StatementHolds;
    hide Distinguishable;
    hide RawPayload;
    hide Sound;
    hide Base;
    hide Patched;
    hide GoodPayload;
  }

  lemma GoodIsSound(rules: Rules, sources: Sources, p: Payload)
    ensures GoodPayload(rules, sources, p) ==> Sound(rules, sources, p)
    ensures Sound(rules, sources, p) && CleanPayload(p) ==> GoodPayload(rules, sources, p)
  {
    SoundIff(rules, sources, p);
    hide Sound;
    hide StatementHolds;
    hide CleanStatement;
    hide Distinguishable;
    assert forall t: Target :: t in Targets();
  }

  lemma LayeredIsClean(rules: Rules, sources: Sources, preview: Preview)
    requires PayloadOk(rules, sources, RawPayload(preview)) && PatchesHold(rules, sources, preview)
    ensures CleanPayload(Layered(preview)) && GoodPayload(rules, sources, Base(preview))
  {
    RepairedIs(rules, sources, preview);
    hide PayloadOk;
    hide RawPayload;
    hide PatchesHold;
    hide Patched;
    hide EditsOf;
    hide GoodPayload;
    hide CleanPayload;
    hide Repaired;
    GoodIsClean(rules, sources, Patched(preview));
    EditsAreClean(preview);
    EditedIsClean(Patched(preview), EditsOf(preview));
  }

  lemma BuildableLayers(rules: Rules, sources: Sources, preview: Preview)
    requires Buildable(rules, sources, preview)
    ensures Layers(rules, sources, preview, Base(preview), StatementsOf(PatchesOf(preview)), EditsOf(preview), Layered(preview))
  {
    hide PayloadOk;
    hide RawPayload;
    hide PatchesHold;
    hide EditsOk;
    hide RepairOk;
    hide GoodPayload;
    hide PatchesOf;
    hide EditsOf;
    hide HoldsRepair;
    hide HoldsEdits;
    hide SaysPayload;
    hide Sound;
    LayeredIsClean(rules, sources, preview);
    ValidIs(rules, sources, preview);
    PayloadMeans(rules, sources, RawPayload(preview), Base(preview));
    hide Validate;
    PatchesHoldIff(rules, sources, preview);
    RepairMeans(preview, StatementsOf(PatchesOf(preview)));
    EditsMean(preview, EditsOf(preview));
    PatchworkIs(preview);
    GoodIsSound(rules, sources, Layered(preview));
    hide StatementsOf;
    hide AllShaped;
    hide Patchwork;
    hide Patched;
    hide WithEdits;
    hide CleanPayload;
  }

  lemma ValidIs(rules: Rules, sources: Sources, preview: Preview)
    ensures PayloadOk(rules, sources, RawPayload(preview)) <==> Validate(rules, sources, RawPayload(preview)) == Valid(Base(preview))
    ensures Validate(rules, sources, RawPayload(preview)).Valid? ==> Validate(rules, sources, RawPayload(preview)) == Valid(Base(preview))
  {
    hide PayloadOk;
    hide PayloadOf;
    hide RawPayload;
  }

  lemma LayersAreBuildable(rules: Rules, sources: Sources, preview: Preview, base: Payload, patches: map<Target, Statement>,
      edits: map<Target, string>, p: Payload)
    requires Layers(rules, sources, preview, base, patches, edits, p)
    ensures Buildable(rules, sources, preview) && p == Layered(preview)
  {
    hide PayloadOk;
    hide RawPayload;
    hide PatchesHold;
    hide EditsOk;
    hide RepairOk;
    hide GoodPayload;
    hide PatchesOf;
    hide EditsOf;
    hide HoldsRepair;
    hide HoldsEdits;
    hide SaysPayload;
    hide Sound;
    PayloadMeans(rules, sources, RawPayload(preview), base);
    ValidIs(rules, sources, preview);
    hide Validate;
    assert base == Base(preview) && PayloadOk(rules, sources, RawPayload(preview));
    hide Base;
    RepairMeans(preview, patches);
    EditsMean(preview, edits);
    PatchworkIs(preview);
    hide StatementsOf;
    hide AllShaped;
    hide Patchwork;
    BaseIsGood(rules, sources, preview);
    PatchesHoldIff(rules, sources, preview);
    hide Patched;
    LayeredIsClean(rules, sources, preview);
    GoodIsSound(rules, sources, p);
    hide WithEdits;
    hide CleanPayload;
  }

  lemma BaseIsGood(rules: Rules, sources: Sources, preview: Preview)
    requires PayloadOk(rules, sources, RawPayload(preview))
    ensures GoodPayload(rules, sources, Base(preview))
  {
    AcceptedIsGood(rules, sources, RawPayload(preview));
    hide PayloadOk;
    hide RawPayload;
    hide GoodPayload;
    hide PayloadOf;
  }

  /**
   * What an effective payload is. It can be built exactly if the preview holds the three layers, and then it is
   * the generator's payload with the patched statements and the edited texts in place.
   */
  lemma EffectiveMeans(rules: Rules, sources: Sources, preview: Preview, p: Payload)
    ensures Build(rules, sources, preview) == Built(p) <==>
              exists base, patches, edits :: Layers(rules, sources, preview, base, patches, edits, p)
  {
    hide Layers;
    hide Buildable;
    hide Layered;
    hide Build;
    hide GoodPayload;
    BuildLayers(rules, sources, preview);
    if Buildable(rules, sources, preview) {
      BuildableLayers(rules, sources, preview);
    }
    if exists base, patches, edits :: Layers(rules, sources, preview, base, patches, edits, p) {
      var base, patches, edits :| Layers(rules, sources, preview, base, patches, edits, p);
      LayersAreBuildable(rules, sources, preview, base, patches, edits, p);
    }
  }

  /** Which layer a refusal blames: the repair if the generator's payload is sound, the edits if they are readable too. */
  lemma RefusalMeans(rules: Rules, sources: Sources, preview: Preview)
    requires Build(rules, sources, preview).Refused?
    ensures var e := Build(rules, sources, preview).error;
            var generated := exists base :: SaysPayload(RawPayload(preview), base) && Sound(rules, sources, base);
            var repaired := exists base, patches :: SaysPayload(RawPayload(preview), base) && HoldsRepair(preview, patches)
                              && Full(base.options) && Sound(rules, sources, Patchwork(base, patches));
            && (e == InvalidPreviewRepair <==> generated && !repaired)
            && (e == InvalidPreviewEdit <==> generated && repaired && exists edits :: HoldsEdits(preview, edits))
  {
    hide PayloadOk;
    hide RawPayload;
    hide HoldsEdits;
    hide HoldsRepair;
    hide SaysPayload;
    hide Sound;
    GeneratedIff(rules, sources, preview);
    if PayloadOk(rules, sources, RawPayload(preview)) {
      RepairedIff(rules, sources, preview);
      RepairedIs(rules, sources, preview);
    }
    EditsReadIff(preview);
    RefusalIs(rules, sources, preview);
    hide Build;
    hide GoodPayload;
    hide Repaired;
    hide PatchesHold;
    hide RepairOk;
    hide EditsOk;
    hide Patchwork;
  }

  lemma RefusalIs(rules: Rules, sources: Sources, preview: Preview)
    requires Build(rules, sources, preview).Refused?
    ensures var e := Build(rules, sources, preview).error;
            var repaired := RepairOk(preview) && PatchesHold(rules, sources, preview);
            && (e == InvalidPreviewRepair <==> PayloadOk(rules, sources, RawPayload(preview)) && !repaired)
            && (e == InvalidPreviewEdit <==> PayloadOk(rules, sources, RawPayload(preview)) && repaired && EditsOk(preview))
  {
    ValidIs(rules, sources, preview);
    if PayloadOk(rules, sources, RawPayload(preview)) {
      RepairedIs(rules, sources, preview);
    }
    hide PayloadOk;
    hide RawPayload;
    hide RepairOk;
    hide EditsOk;
    hide PatchesHold;
    hide GoodPayload;
    hide Repaired;
    hide Render;
    hide EditsOf;
    hide Base;
    hide Patched;
    hide WithEdits;
    hide Validate;
  }

  lemma GeneratedIff(rules: Rules, sources: Sources, preview: Preview)
    ensures PayloadOk(rules, sources, RawPayload(preview)) <==> exists base :: SaysPayload(RawPayload(preview), base) && Sound(rules, sources, base)
    ensures PayloadOk(rules, sources, RawPayload(preview)) ==>
              SaysPayload(RawPayload(preview), Base(preview)) && forall base | SaysPayload(RawPayload(preview), base) :: base == Base(preview)
  {
    hide PayloadOk;
    hide RawPayload;
    hide SaysPayload;
    hide Sound;
    ValidIs(rules, sources, preview);
    forall base: Payload
      ensures SaysPayload(RawPayload(preview), base) && Sound(rules, sources, base) <==> Validate(rules, sources, RawPayload(preview)) == Valid(base)
    {
      PayloadMeans(rules, sources, RawPayload(preview), base);
    }
    hide Validate;
    if PayloadOk(rules, sources, RawPayload(preview)) {
      forall base | SaysPayload(RawPayload(preview), base) ensures base == Base(preview) {
        SaidIsOne(RawPayload(preview), base, Base(preview));
      }
    }
    hide Base;
  }

  lemma SaidIsOne(j: Json, p: Payload, q: Payload)
    requires SaysPayload(j, p) && SaysPayload(j, q)
    ensures p == q
  {
    forall t: Target ensures p.options[t] == q.options[t] {
      SaysIff(Statements(j, t), p.options[t]);
      SaysIff(Statements(j, t), q.options[t]);
      hide Says;
      hide StatementOf;
      hide Statements;
    }
    hide Says;
    hide Statements;
    SamePayload(p, q);
  }

  lemma RepairedIff(rules: Rules, sources: Sources, preview: Preview)
    requires PayloadOk(rules, sources, RawPayload(preview))
    ensures RepairOk(preview) && PatchesHold(rules, sources, preview) <==>
              exists base, patches :: SaysPayload(RawPayload(preview), base) && HoldsRepair(preview, patches)
                && Full(base.options) && Sound(rules, sources, Patchwork(base, patches))
  {
    hide PayloadOk;
    hide RawPayload;
    hide SaysPayload;
    hide Sound;
    hide HoldsRepair;
    hide RepairOk;
    hide PatchesHold;
    GeneratedIff(rules, sources, preview);
    BaseIsGood(rules, sources, preview);
    PatchesHoldIff(rules, sources, preview);
    PatchworkIs(preview);
    assert Full(Base(preview).options);
    hide Base;
    hide Patched;
    hide Patchwork;
    hide GoodPayload;
    forall patches: map<Target, Statement>
      ensures HoldsRepair(preview, patches) <==>
                RepairOk(preview) && AllShaped(PatchesOf(preview)) && patches == StatementsOf(PatchesOf(preview))
    {
      RepairMeans(preview, patches);
    }
    hide AllShaped;
    hide StatementsOf;
    hide PatchesOf;
  }

  lemma EditsReadIff(preview: Preview)
    ensures EditsOk(preview) <==> exists edits :: HoldsEdits(preview, edits)
  {
    EditsMean(preview, EditsOf(preview));
    forall edits | HoldsEdits(preview, edits) ensures EditsOk(preview) {
      EditsMean(preview, edits);
    }
    hide EditsOk;
    hide HoldsEdits;
    hide EditsOf;
  }
}
