/** Taking over the texts of a filled-in form into a stored preview. */
module PreviewEdits {
  import opened Options
  import opened Texts
  import opened Payloads
  import opened Effective
  import opened EditRoundTrip

  predicate DiffersAt(preview: Preview, edits: Submission, t: Target) {
    Submitted(edits, t) && Strip(SubmittedText(edits, t)) != OriginalText(preview, t)
  }

  lemma ChangedIsDifferent(preview: Preview, edits: Submission, normalized: map<Target, string>)
    requires forall t :: t in normalized <==> DiffersAt(preview, edits, t)
    requires forall t | t in normalized :: Submitted(edits, t) && normalized[t] == Strip(SubmittedText(edits, t))
    ensures normalized == Changed(preview, edits)
  {
    hide Submitted;
    hide SubmittedText;
    hide OriginalText;
    hide Strip;
  }

  /** `normalized_edits` of the form, which submits a text for every lane and field. */
  method FormEdits(preview: Preview, form: Submission) returns (edits: map<Target, string>)
    requires forall t | t in Targets() :: Submitted(form, t)
    ensures edits == Changed(preview, form)
  {
    hide SubmittedText;
    hide OriginalText;
    hide Strip;
    hide Submitted;
    hide Lanes;
    hide OptionFields;
    var lanes, fields := Lanes(), OptionFields();
    edits := map[];
    for l := 0 to |lanes|
      invariant forall t :: t in edits <==> t.lane in lanes[..l] && DiffersAt(preview, form, t)
      invariant forall t | t in edits :: edits[t] == Strip(SubmittedText(form, t))
    {
      for f := 0 to |fields|
        invariant forall t ::
            t in edits <==> (t.lane in lanes[..l] || (t.lane == lanes[l] && t.field in fields[..f])) && DiffersAt(preview, form, t)
        invariant forall t | t in edits :: edits[t] == Strip(SubmittedText(form, t))
      {
        var t := Target(lanes[l], fields[f]);
        assert t in Targets();
        var value := Strip(SubmittedText(form, t));
        if value != OriginalText(preview, t) {
          edits := edits[t := value];
        }
      }
      assert fields[..|fields|] == fields && lanes[..l + 1] == lanes[..l] + [lanes[l]];
    }
    assert lanes[..|lanes|] == lanes;
    ChangedIsDifferent(preview, form, edits);
  }

  /** The edits of one lane that differ from the generator's texts, unless one is empty or unknown. */
  method NormalizeLane(preview: Preview, l: Lane, texts: map<Name, string>) returns (r: Option<map<Field, string>>)
    ensures r.Some? <==> LaneSubmittable(texts)
    ensures r.Some? ==> forall f: Field ::
              f in r.value <==> Part(f) in texts && Strip(texts[Part(f)]) != OriginalText(preview, Target(l, f))
    ensures r.Some? ==> forall f | f in r.value :: Part(f) in texts && r.value[f] == Strip(texts[Part(f)])
  {
    hide OriginalText;
    hide Strip;
    if exists m | m in texts :: !m.Part? {
      return None;
    }
    var rest, lane: map<Field, string> := texts.Keys, map[];
    while rest != {}
      invariant rest <= texts.Keys
      invariant forall m | m in texts && m !in rest :: Strip(texts[m]) != ""
      invariant forall f: Field :: f in lane <==>
                  Part(f) in texts && Part(f) !in rest && Strip(texts[Part(f)]) != OriginalText(preview, Target(l, f))
      invariant forall f | f in lane :: Part(f) in texts && lane[f] == Strip(texts[Part(f)])
      decreases |rest|
    {
      var m :| m in rest;
      rest := rest - {m};
      var text := Strip(texts[m]);
      if text == "" {
        return None;
      }
      if text != OriginalText(preview, Target(l, m.field)) {
        lane := lane[m.field := text];
      }
    }
    return Some(lane);
  }

  /** `_normalize_edits` */
  method NormalizeEdits(preview: Preview, edits: Submission) returns (r: Option<map<Target, string>>)
    ensures r == if Submittable(edits) then Some(Changed(preview, edits)) else None
  {
    hide OriginalText;
    hide Strip;
    hide WithLane;
    hide LaneSubmittable;
    if exists n | n in edits :: !n.Of? {
      return None;
    }
    var rest, normalized: map<Target, string> := edits.Keys, map[];
    while rest != {}
      invariant rest <= edits.Keys && forall n | n in edits && n !in rest :: LaneSubmittable(edits[n])
      invariant forall t :: t in normalized <==> DiffersAt(preview, edits, t) && Of(t.lane) !in rest
      invariant forall t | t in normalized :: normalized[t] == Strip(SubmittedText(edits, t))
      decreases |rest|
    {
      var n :| n in rest;
      rest := rest - {n};
      var lane := NormalizeLane(preview, n.lane, edits[n]);
      if lane.None? {
        return None;
      }
      normalized := WithLane(normalized, n.lane, lane.value);
    }
    ChangedIsDifferent(preview, edits, normalized);
    return Some(normalized);
  }

  /** A generation run, as far as its preview can be edited. */
  class GenerationRun {
    var success: bool
    var preview: Preview

    /** `update_solution_generation_preview_edits`; `editable` is what the preview state allows. */
    method UpdateEdits(editable: bool, edits: Submission) returns (saved: bool)
      modifies this`preview
      ensures saved <==> success && old(preview) != map[] && editable && Submittable(edits)
      ensures preview == if saved then WithStoredEdits(old(preview), Changed(old(preview), edits)) else old(preview)
    {
      hide Changed;
      hide Submittable;
      if !success || preview == map[] || !editable {
        return false;
      }
      var normalized := NormalizeEdits(preview, edits);
      if normalized.None? {
        return false;
      }
      preview := preview[Edits := EditsJson(normalized.value)];
      return true;
    }
  }
}
