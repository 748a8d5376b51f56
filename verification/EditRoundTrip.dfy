/** Saving human edits of a preview, and what of them is effective afterwards. */
module EditRoundTrip {
  import opened Texts
  import opened Payloads
  import opened PayloadProofs
  import opened Effective
  import opened EffectiveProofs

  /** The edits as submitted: texts under lane and field names. */
  type Submission = map<Name, map<Name, string>>

  predicate Submitted(edits: Submission, t: Target) {
    Of(t.lane) in edits && Part(t.field) in edits[Of(t.lane)]
  }

  function SubmittedText(edits: Submission, t: Target): string
    requires Submitted(edits, t)
  {
    edits[Of(t.lane)][Part(t.field)]
  }

  /** Only known lanes and fields, and no empty text. */
  predicate Submittable(edits: Submission) {
    forall n | n in edits :: n.Of? && LaneSubmittable(edits[n])
  }

  predicate LaneSubmittable(texts: map<Name, string>) {
    forall m | m in texts :: m.Part? && Strip(texts[m]) != ""
  }

  /** The generator's text at a target, as it is compared with. */
  function OriginalText(preview: Preview, t: Target): string {
    CleanText(Get(Members(RawStatement(RawPayload(preview), t)), Text))
  }

  /** `_normalize_edits`: only what differs from the generator's text is kept. */
  function Changed(preview: Preview, edits: Submission): map<Target, string> {
    map t | t in Targets() && Submitted(edits, t) && Strip(SubmittedText(edits, t)) != OriginalText(preview, t) ::
      Strip(SubmittedText(edits, t))
  }

  // ---- storing the edits

  predicate LaneEdited(edits: map<Target, string>, l: Lane) {
    exists f: Field :: Target(l, f) in edits
  }

  function LaneEditsJson(edits: map<Target, string>, l: Lane): Json {
    Obj(map n | n in FieldNames() && Target(l, n.field) in edits :: Str(edits[Target(l, n.field)]))
  }

  /** The nested object in which edits are stored; a lane without edits is left out. */
  function EditsJson(edits: map<Target, string>): Json {
    Obj(map n | n in LaneNames() && LaneEdited(edits, n.lane) :: LaneEditsJson(edits, n.lane))
  }

  function WithStoredEdits(preview: Preview, edits: map<Target, string>): Preview {
    preview[Edits := EditsJson(edits)]
  }

  /** `normalized_edits` of the form, in the form in which it hands them on. */
  function AsSubmission(edits: map<Target, string>): Submission {
    map n | n in LaneNames() && LaneEdited(edits, n.lane) ::
      map m | m in FieldNames() && Target(n.lane, m.field) in edits :: edits[Target(n.lane, m.field)]
  }

  /** Saving a filled-in form: the form drops unchanged texts, and the service does so again. */
  function Saved(preview: Preview, form: Submission): Preview {
    WithStoredEdits(preview, Changed(preview, AsSubmission(Changed(preview, form))))
  }

  lemma EditStored(preview: Preview, edits: map<Target, string>, t: Target)
    requires forall u | u in edits :: CleanString(edits[u])
    ensures EditJson(WithStoredEdits(preview, edits), t) == if t in edits then Str(edits[t]) else Null
  {
    hide CleanString;
    assert t in edits ==> LaneEdited(edits, t.lane);
    assert Of(t.lane) in LaneNames() && Part(t.field) in FieldNames();
    assert Target(t.lane, t.field) == t;
  }

  lemma EditsAre(preview: Preview, edits: map<Target, string>)
    requires forall t :: if t in edits then EditJson(preview, t) == Str(edits[t]) else EditJson(preview, t) == Null
    requires forall t | t in edits :: TextOk(Str(edits[t])) && CleanText(Str(edits[t])) == edits[t]
    ensures EditsOf(preview) == edits
  {
    hide EditJson;
    hide Strip;
  }

  lemma EditsReadBack(preview: Preview, edits: map<Target, string>)
    requires forall t | t in edits :: CleanString(edits[t])
    ensures EditsOf(WithStoredEdits(preview, edits)) == edits
  {
    hide *;
    var q := WithStoredEdits(preview, edits);
    forall t ensures if t in edits then EditJson(q, t) == Str(edits[t]) else EditJson(q, t) == Null {
      EditStored(preview, edits, t);
    }
    forall t | t in edits ensures TextOk(Str(edits[t])) && CleanText(Str(edits[t])) == edits[t] {
      CleanIsText(edits[t]);
    }
    EditsAre(q, edits);
  }

  lemma LaneEditsReadable(edits: map<Target, string>, l: Lane)
    requires forall t | t in edits :: CleanString(edits[t])
    ensures LaneEditsOk(LaneEditsJson(edits, l))
  {
    forall t | t in edits ensures TextOk(Str(edits[t])) {
      CleanIsText(edits[t]);
    }
    hide TextOk;
    hide CleanString;
  }

  lemma StoredEditsReadable(preview: Preview, edits: map<Target, string>)
    requires forall t | t in edits :: CleanString(edits[t])
    ensures EditsOk(WithStoredEdits(preview, edits))
  {
    forall l ensures LaneEditsOk(LaneEditsJson(edits, l)) {
      LaneEditsReadable(edits, l);
    }
    hide LaneEditsOk;
    hide LaneEditsJson;
    hide LaneEdited;
    hide CleanString;
  }

  lemma ChangedIsClean(preview: Preview, edits: Submission)
    requires Submittable(edits)
    ensures forall t | t in Changed(preview, edits) :: CleanString(Changed(preview, edits)[t])
  {
    forall t | t in Changed(preview, edits) ensures CleanString(Changed(preview, edits)[t]) {
      StripIdempotent(SubmittedText(edits, t));
      assert LaneSubmittable(edits[Of(t.lane)]);
    }
    hide OriginalText;
    hide Strip;
    hide Trimmed;
  }

  lemma SubmissionReadsBack(edits: map<Target, string>, t: Target)
    ensures Submitted(AsSubmission(edits), t) <==> t in edits
    ensures t in edits ==> SubmittedText(AsSubmission(edits), t) == edits[t]
  {
    assert t in edits ==> LaneEdited(edits, t.lane);
    assert Of(t.lane) in LaneNames() && Part(t.field) in FieldNames();
    assert Target(t.lane, t.field) == t;
  }

  lemma ChangedIs(preview: Preview, edits: Submission, changed: map<Target, string>)
    requires forall t :: Submitted(edits, t) <==> t in changed
    requires forall t | t in changed :: SubmittedText(edits, t) == changed[t]
    requires forall t | t in changed :: Strip(changed[t]) == changed[t] && changed[t] != OriginalText(preview, t)
    ensures Changed(preview, edits) == changed
  {
    hide Submitted;
    hide SubmittedText;
    hide Strip;
    hide OriginalText;
  }

  lemma ChangedAt(preview: Preview, edits: Submission, t: Target)
    ensures t in Changed(preview, edits) <==>
              Submitted(edits, t) && Strip(SubmittedText(edits, t)) != OriginalText(preview, t)
    ensures t in Changed(preview, edits) ==>
              && Changed(preview, edits)[t] == Strip(SubmittedText(edits, t)) != OriginalText(preview, t)
              && Strip(Changed(preview, edits)[t]) == Changed(preview, edits)[t]
  {
    assert t in Targets();
    if Submitted(edits, t) {
      StripIdempotent(SubmittedText(edits, t));
    }
    hide OriginalText;
    hide Strip;
  }

  /** Dropping unchanged texts twice is dropping them once. */
  lemma ChangedIsIdempotent(preview: Preview, edits: Submission)
    ensures Changed(preview, AsSubmission(Changed(preview, edits))) == Changed(preview, edits)
  {
    hide *;
    var once := Changed(preview, edits);
    forall t
      ensures Submitted(AsSubmission(once), t) <==> t in once
      ensures t in once ==> SubmittedText(AsSubmission(once), t) == once[t]
      ensures t in once ==> Strip(once[t]) == once[t] && once[t] != OriginalText(preview, t)
    {
      SubmissionReadsBack(once, t);
      ChangedAt(preview, edits, t);
    }
    ChangedIs(preview, AsSubmission(once), once);
  }

  // ---- the round trip

  /** The form is filled in at every lane and field. */
  predicate FilledIn(form: Submission) {
    Submittable(form) && forall t | t in Targets() :: Submitted(form, t)
  }

  /** Whether the text submitted at a target is the one in effect afterwards. */
  predicate Survives(preview: Preview, form: Submission, t: Target)
    requires Submitted(form, t)
  {
    || Strip(SubmittedText(form, t)) != OriginalText(preview, t)
    || t !in PatchesOf(preview)
    || StatementOf(PatchesOf(preview)[t]).text == OriginalText(preview, t)
  }

  lemma SavedReads(preview: Preview, form: Submission)
    requires Submittable(form)
    ensures EditsOf(Saved(preview, form)) == Changed(preview, form) && EditsOk(Saved(preview, form))
    ensures Patched(Saved(preview, form)) == Patched(preview)
  {
    hide *;
    ChangedIsClean(preview, form);
    ChangedIsIdempotent(preview, form);
    EditsReadBack(preview, Changed(preview, form));
    StoredEditsReadable(preview, Changed(preview, form));
    SavedIs(preview, form);
    SavedKeepsLayers(preview, Changed(preview, form));
  }

  lemma SavedIs(preview: Preview, form: Submission)
    ensures Saved(preview, form) == WithStoredEdits(preview, Changed(preview, AsSubmission(Changed(preview, form))))
  {
    hide Changed;
  }

  lemma SavedKeepsLayers(preview: Preview, edits: map<Target, string>)
    ensures Patched(WithStoredEdits(preview, edits)) == Patched(preview)
  {
    hide EditsJson;
    hide PatchesOf;
    SameBase(preview, WithStoredEdits(preview, edits));
    SameRepair(preview, WithStoredEdits(preview, edits));
    hide Base;
  }

  lemma UneditedText(preview: Preview, t: Target)
    ensures Patched(preview).options[t].text ==
              if t in PatchesOf(preview) then StatementOf(PatchesOf(preview)[t]).text else OriginalText(preview, t)
  {
    hide PatchesOf;
    assert t in Targets();
    hide CleanText;
    hide CleanList;
    hide RawStatement;
    hide RawPayload;
  }

  lemma LayeredText(preview: Preview, t: Target)
    ensures Layered(preview).options[t].text ==
              if t in EditsOf(preview) then EditsOf(preview)[t] else Patched(preview).options[t].text
  {
    assert t in Targets();
    hide EditsOf;
    hide Patched;
  }

  /** The text in effect after a filled-in form is saved. */
  lemma EffectiveText(rules: Rules, sources: Sources, preview: Preview, form: Submission, p: Payload, t: Target)
    requires Submittable(form) && Build(rules, sources, Saved(preview, form)) == Built(p)
    ensures Full(p.options)
    ensures p.options[t].text ==
              if t in Changed(preview, form) then Changed(preview, form)[t]
              else if t in PatchesOf(preview) then StatementOf(PatchesOf(preview)[t]).text
              else OriginalText(preview, t)
  {
    hide *;
    BuildLayers(rules, sources, Saved(preview, form));
    SavedReads(preview, form);
    LayeredText(Saved(preview, form), t);
    UneditedText(preview, t);
  }

  /**
   * The edit round trip, target by target. After a filled-in form is saved, the effective text is the
   * submitted one, except exactly where a repaired text was set back to the generator's original:
   * the save drops such an edit as unchanged, and the repaired text stays in effect.
   */
  lemma EditsSurvive(rules: Rules, sources: Sources, preview: Preview, form: Submission, p: Payload, t: Target)
    requires FilledIn(form) && Build(rules, sources, Saved(preview, form)) == Built(p)
    ensures Full(p.options) && Submitted(form, t)
    ensures p.options[t].text == Strip(SubmittedText(form, t)) <==> Survives(preview, form, t)
    ensures !Survives(preview, form, t) ==> p.options[t].text == StatementOf(PatchesOf(preview)[t]).text
  {
    assert t in Targets();
    EffectiveText(rules, sources, preview, form, p, t);
    ChangedAt(preview, form, t);
    hide Build;
    hide Saved;
    hide Changed;
    hide PatchesOf;
    hide StatementOf;
    hide Strip;
    hide OriginalText;
    hide SubmittedText;
    hide Submittable;
  }

  /** For a preview without a machine repair, every submitted text is in effect. */
  lemma EditsSurviveUnrepaired(rules: Rules, sources: Sources, preview: Preview, form: Submission, p: Payload)
    requires FilledIn(form) && !HasRepair(preview) && Build(rules, sources, Saved(preview, form)) == Built(p)
    ensures Full(p.options)
    ensures forall t | t in Targets() :: Submitted(form, t) && p.options[t].text == Strip(SubmittedText(form, t))
  {
    NoRepairNoPatches(preview);
    EditsSurvive(rules, sources, preview, form, p, Target(Organizational, OptionName));
    hide Build;
    hide Saved;
    hide Strip;
    hide OriginalText;
    hide SubmittedText;
    hide Submittable;
    hide PatchesOf;
    forall t | t in Targets() ensures Submitted(form, t) && p.options[t].text == Strip(SubmittedText(form, t)) {
      EditsSurvive(rules, sources, preview, form, p, t);
    }
  }
}
