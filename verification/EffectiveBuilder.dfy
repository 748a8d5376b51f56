/** Building the effective payload step by step, and reading the stored layers. */
module EffectiveBuilder {
  import opened Options
  import opened Texts
  import opened Payloads
  import opened Effective
  import opened Validator

  // ---- the stored edits

  /** The edits of one lane, unless a field is unknown or a text is empty. */
  method NormalizeLaneEdits(j: Json) returns (r: Option<map<Field, string>>)
    ensures r.Some? <==> LaneEditsOk(j)
    ensures r.Some? ==> forall f: Field :: f in r.value <==> Part(f) in Members(j)
    ensures r.Some? ==> forall f | f in r.value :: Part(f) in Members(j) && r.value[f] == CleanText(Members(j)[Part(f)])
  {
    hide TextOk;
    hide CleanText;
    if !j.Obj? || exists n | n in j.members :: !n.Part? {
      return None;
    }
    var m, rest, lane: map<Field, string> := j.members, j.members.Keys, map[];
    while rest != {}
      invariant rest <= m.Keys
      invariant forall n | n in m && n !in rest :: TextOk(m[n])
      invariant forall f: Field :: f in lane <==> Part(f) in m && Part(f) !in rest
      invariant forall f | f in lane :: Part(f) in m && lane[f] == CleanText(m[Part(f)])
      decreases |rest|
    {
      var n :| n in rest;
      rest := rest - {n};
      if !TextOk(m[n]) {
        return None;
      }
      lane := lane[n.field := CleanText(m[n])];
    }
    return Some(lane);
  }

  /** `normalize_solution_generation_edits` */
  method NormalizeEdits(preview: Preview) returns (r: Option<map<Target, string>>)
    ensures r == if EditsOk(preview) then Some(EditsOf(preview)) else None
  {
    hide LaneEditsOk;
    hide CleanText;
    hide WithLane;
    var edits := if Edits in preview then preview[Edits] else Obj(map[]);
    if !edits.Obj? || exists n | n in edits.members :: !n.Of? {
      return None;
    }
    var m, rest := edits.members, edits.members.Keys;
    var normalized: map<Target, string> := map[];
    while rest != {}
      invariant rest <= m.Keys && forall n | n in m && n !in rest :: LaneEditsOk(m[n])
      invariant forall t: Target :: t in normalized <==> Of(t.lane) in m && Of(t.lane) !in rest && Part(t.field) in Members(m[Of(t.lane)])
      invariant forall t | t in normalized :: normalized[t] == CleanText(EditJson(preview, t))
      decreases |rest|
    {
      var n :| n in rest;
      rest := rest - {n};
      var lane := NormalizeLaneEdits(m[n]);
      if lane.None? {
        return None;
      }
      normalized := WithLane(normalized, n.lane, lane.value);
    }
    EditsRead(preview, normalized);
    return Some(normalized);
  }

  lemma EditsRead(preview: Preview, normalized: map<Target, string>)
    requires EditsOk(preview)
    requires var m := Members(if Edits in preview then preview[Edits] else Obj(map[]));
             forall t: Target :: t in normalized <==> Of(t.lane) in m && Part(t.field) in Members(m[Of(t.lane)])
    requires forall t | t in normalized :: normalized[t] == CleanText(EditJson(preview, t))
    ensures normalized == EditsOf(preview)
  {
    hide CleanText;
    forall t ensures TextOk(EditJson(preview, t)) <==> t in normalized {
      EditPresent(preview, t);
    }
    hide EditJson;
    hide TextOk;
    hide EditsOk;
  }

  lemma EditPresent(preview: Preview, t: Target)
    requires EditsOk(preview)
    ensures var m := Members(if Edits in preview then preview[Edits] else Obj(map[]));
            TextOk(EditJson(preview, t)) <==> Of(t.lane) in m && Part(t.field) in Members(m[Of(t.lane)])
  {
    hide Strip;
  }

  // ---- the stored repair

  /** The loop over the stored patches: shape, known targets, no target twice. */
  method NormalizePatches(items: seq<Json>) returns (r: Option<seq<RawPatch>>)
    ensures r.Some? <==> PatchesOk(items)
    ensures r.Some? ==> |r.value| == |items| && forall i | 0 <= i < |items| ::
              Some(r.value[i].target) == PatchTarget(items[i]) && r.value[i].statement == Get(Members(items[i]), PatchStatement)
  {
    hide PatchTarget;
    hide PatchNames;
    var patches: seq<RawPatch>, seen: set<Target> := [], {};
    for n := 0 to |items|
      invariant |patches| == n && forall i | 0 <= i < n :: PatchOk(items[i])
      invariant forall i | 0 <= i < n ::
          Some(patches[i].target) == PatchTarget(items[i]) && patches[i].statement == Get(Members(items[i]), PatchStatement)
      invariant forall i, k | 0 <= i < k < n :: PatchTarget(items[i]) != PatchTarget(items[k])
      invariant forall t :: t in seen <==> exists i | 0 <= i < n :: PatchTarget(items[i]) == Some(t)
    {
      if !PatchOk(items[n]) || PatchTarget(items[n]).value in seen {
        return None;
      }
      var target := PatchTarget(items[n]).value;
      seen := seen + {target};
      patches := patches + [RawPatch(target, Get(Members(items[n]), PatchStatement))];
    }
    return Some(patches);
  }

  /** Every patch replaces one whole statement. */
  method OverlayPatches(patches: seq<RawPatch>, items: seq<Json>) returns (raw: map<Target, Json>)
    requires |patches| == |items| && forall i | 0 <= i < |items| ::
               Some(patches[i].target) == PatchTarget(items[i]) && patches[i].statement == Get(Members(items[i]), PatchStatement)
    ensures raw == PatchMap(items)
  {
    hide PatchTarget;
    raw := map[];
    for n := 0 to |patches|
      invariant raw == PatchMap(items[..n])
    {
      assert items[..n + 1][..n] == items[..n];
      raw := raw[patches[n].target := patches[n].statement];
    }
    assert items[..|items|] == items;
  }

  /** `normalize_solution_generation_machine_repair`, and the statements it puts in place. */
  method NormalizeMachineRepair(preview: Preview) returns (ok: bool, raw: map<Target, Json>)
    ensures ok <==> RepairOk(preview)
    ensures ok ==> raw == PatchesOf(preview)
  {
    hide PatchesOk;
    hide PatchMap;
    hide TextOk;
    var j := Get(preview, MachineRepair);
    if j.Null? {
      return true, map[];
    }
    if !j.Obj? || j.members.Keys != MachineRepairNames() {
      return false, map[];
    }
    var m := j.members;
    if !TextOk(Get(m, QualityRunId)) || !TextOk(Get(m, InputHash))
       || Get(m, PromptVersion) != Str(RepairPromptVersion()) || Get(m, SchemaVersion) != Str(RepairSchemaVersion())
       || !Get(m, Patches).List? || Get(m, Patches).items == [] {
      return false, map[];
    }
    var patches := NormalizePatches(Get(m, Patches).items);
    if patches.None? {
      return false, map[];
    }
    raw := OverlayPatches(patches.value, Get(m, Patches).items);
    ok := true;
  }

  // ---- the three layers

  /** Every edit overwrites one text. */
  method OverlayEdits(p: Payload, edits: map<Target, string>) returns (q: Payload)
    requires Full(p.options)
    ensures q == WithEdits(p, edits)
  {
    q := p;
    var rest := edits.Keys;
    while rest != {}
      invariant rest <= edits.Keys && Full(q.options) && q == p.(options := q.options)
      invariant forall t | t in Targets() ::
          q.options[t] == if t in edits && t !in rest then p.options[t].(text := edits[t]) else p.options[t]
      decreases |rest|
    {
      var t :| t in rest;
      rest := rest - {t};
      q := q.(options := q.options[t := q.options[t].(text := edits[t])]);
    }
    assert q.options == WithEdits(p, edits).options;
  }

  /** `build_validated_effective_solution_payload` */
  method BuildEffective(rules: Rules, sources: Sources, preview: Preview) returns (r: Effective)
    requires KeepsInk(rules)
    ensures r == Build(rules, sources, preview)
  {
    hide KeepsInk;
    hide PayloadOk;
    hide PayloadOf;
    hide Render;
    hide RawPayload;
    hide RepairOk;
    hide PatchesOf;
    hide EditsOk;
    hide EditsOf;
    hide WithEdits;
    var base, _ := ValidatePayload(rules, sources, RawPayload(preview));
    if base.Invalid? {
      return Refused(InvalidPreview);
    }
    assert Full(base.payload.options) by { ValidIsFull(rules, sources, RawPayload(preview)); }
    var readable, raw := NormalizeMachineRepair(preview);
    if !readable {
      return Refused(InvalidPreviewRepair);
    }
    var repaired := base;
    if HasRepair(preview) {
      var overlaid, _ := ValidatePayload(rules, sources, Render(base.payload, raw));
      repaired := overlaid;
      if repaired.Invalid? {
        return Refused(InvalidPreviewRepair);
      }
      ValidIsFull(rules, sources, Render(base.payload, raw));
    }
    var edits := NormalizeEdits(preview);
    if edits.None? {
      return Refused(InvalidPreview);
    }
    var edited := OverlayEdits(repaired.payload, edits.value);
    var final, _ := ValidatePayload(rules, sources, Render(edited, map[]));
    return if final.Valid? then Built(final.payload) else Refused(InvalidPreviewEdit);
  }

  lemma ValidIsFull(rules: Rules, sources: Sources, j: Json)
    ensures Validate(rules, sources, j).Valid? ==> Full(Validate(rules, sources, j).payload.options)
  {
    hide PayloadOk;
    hide OptionsOf;
  }
}
