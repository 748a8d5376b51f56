/** Concrete previews for the two ways in which a repair and human edits get in each other's way. */
module Witnesses {
  import opened Options
  import opened Texts
  import opened Payloads
  import opened PayloadProofs
  import opened Effective
  import opened EffectiveProofs
  import opened EditRoundTrip
  import opened Repair
  import opened RepairProofs
  import opened RepairReplay

  // ---- three drafts, each saying nothing but its letter

  function Plain(): Rules { Rules((s: string) => {}, (s: string) => s) }

  function Letter(l: Lane): char {
    match l
    case Organizational => 'A'
    case RuleAutomation => 'B'
    case Assistant => 'C'
  }

  /** The letter at a target when the first two drafts are named otherwise. */
  function LetterAt(first: char, second: char, t: Target): char {
    if t.field == OptionName && t.lane == Organizational then first
    else if t.field == OptionName && t.lane == RuleAutomation then second
    else Letter(t.lane)
  }

  function Draft(c: char): Statement { Statement([c], [], ["x"], [], "low", "x") }

  function Drafts(first: char, second: char): (p: Payload)
    ensures Full(p.options)
  {
    Payload(GenerationSchemaVersion(), GenerationPromptVersion(), map t | t in Targets() :: Draft(LetterAt(first, second, t)))
  }

  function First(): Target { Target(Organizational, OptionName) }
  function Second(): Target { Target(RuleAutomation, OptionName) }

  predicate Apart(first: char, second: char) {
    first != second && first != 'C' && second != 'C' && !IsSpace(first) && !IsSpace(second)
  }

  lemma LetterSignature(c: char)
    requires !IsSpace(c)
    ensures Signature(Plain(), [c]) == [c]
  {
    assert [c][1..] == "";
    assert Word([c]) == [c] by { assert Word("") == ""; }
    assert DropLeft([c], IsSpace) == [c];
    assert [c][|Word([c])|..] == "";
    assert Squash("") == "";
  }

  lemma DraftIsGood(c: char)
    requires !IsSpace(c)
    ensures GoodStatement(Plain(), map[], Draft(c))
  {
    hide Supported;
  }

  lemma DraftAt(first: char, second: char, t: Target)
    ensures Drafts(first, second).options[t] == Draft(LetterAt(first, second, t))
  {
    assert t in Targets();
  }

  lemma LettersDiffer(first: char, second: char, a: Lane, b: Lane)
    requires Apart(first, second) && a != b
    ensures var options := Drafts(first, second).options;
            !SameName(Plain(), options, a, b) && !SameContent(Plain(), options, a, b)
  {
    hide Signature;
    hide Plain;
    hide Drafts;
    DraftAt(first, second, Target(a, OptionName));
    DraftAt(first, second, Target(b, OptionName));
    DraftAt(first, second, Target(a, Description));
    DraftAt(first, second, Target(b, Description));
    LetterSignature(LetterAt(first, second, Target(a, OptionName)));
    LetterSignature(LetterAt(first, second, Target(b, OptionName)));
    LetterSignature(Letter(a));
    LetterSignature(Letter(b));
    assert DistinctiveFields()[0] == Description && Description in DistinctiveFields();
  }

  lemma DraftsAreGood(first: char, second: char)
    requires Apart(first, second)
    ensures GoodPayload(Plain(), map[], Drafts(first, second))
  {
    var p := Drafts(first, second);
    assert VersionsOk(p);
    hide Drafts;
    hide GoodStatement;
    hide SameName;
    hide SameContent;
    hide Plain;
    hide Draft;
    forall t | t in Targets() ensures GoodStatement(Plain(), map[], p.options[t]) {
      DraftAt(first, second, t);
      DraftIsGood(LetterAt(first, second, t));
    }
    forall a: Lane, b: Lane | a != b ensures !SameName(Plain(), p.options, a, b) && !SameContent(Plain(), p.options, a, b) {
      LettersDiffer(first, second, a, b);
    }
  }

  // ---- the stored preview

  function Stored(p: Payload): Preview
    requires Full(p.options)
  {
    map[SchemaVersion := Str(p.schemaVersion), PromptVersion := Str(p.promptVersion),
        Options := Get(Members(Render(p, map[])), Options)]
  }

  /** The drafts of a payload with some edits saved over them. */
  function Edited(p: Payload, edits: map<Target, string>): Preview
    requires Full(p.options)
  {
    WithStoredEdits(Stored(p), edits)
  }

  lemma StoredReads(p: Payload)
    requires GoodPayload(Plain(), map[], p)
    ensures RawPayload(Stored(p)) == Render(p, map[]) && !HasRepair(Stored(p))
    ensures PayloadOk(Plain(), map[], RawPayload(Stored(p))) && Base(Stored(p)) == p
  {
    assert RawPayload(Stored(p)) == Render(p, map[]) && !HasRepair(Stored(p)) by {
      hide LaneJson;
      hide GoodPayload;
    }
    hide Stored;
    hide Plain;
    hide PayloadOk;
    hide PayloadOf;
    hide Render;
    GoodIsClean(Plain(), map[], p);
    CleanReadsBack(Plain(), map[], p);
  }

  lemma EditedKeeps(p: Payload, edits: map<Target, string>)
    requires Full(p.options)
    ensures Base(Edited(p, edits)) == Base(Stored(p)) && RawPayload(Edited(p, edits)) == RawPayload(Stored(p))
    ensures HasRepair(Edited(p, edits)) == HasRepair(Stored(p))
  {
    hide EditsJson;
    hide Stored;
    SameBase(Stored(p), Edited(p, edits));
    SameRepair(Stored(p), Edited(p, edits));
    hide Base;
  }

  lemma EditedReads(p: Payload, edits: map<Target, string>)
    requires GoodPayload(Plain(), map[], p) && forall t | t in edits :: CleanString(edits[t])
    ensures Full(p.options)
    ensures var preview := Edited(p, edits);
            && PayloadOk(Plain(), map[], RawPayload(preview)) && Base(preview) == p && Patched(preview) == p
            && !HasRepair(preview) && EditsOf(preview) == edits && EditsOk(preview)
            && Layered(preview) == WithEdits(p, edits)
  {
    assert Full(p.options);
    var preview := Edited(p, edits);
    StoredReads(p);
    EditedKeeps(p, edits);
    EditsReadBack(Stored(p), edits);
    StoredEditsReadable(Stored(p), edits);
    NoRepairIsBase(preview);
    hide Stored;
    hide WithStoredEdits;
    hide PayloadOk;
    hide PayloadOf;
    hide RawPayload;
    hide Base;
    hide Patched;
    hide EditsOf;
    hide EditsOk;
    hide WithEdits;
    hide HasRepair;
    hide Render;
    hide GoodPayload;
  }

  lemma BuildableIs(rules: Rules, sources: Sources, preview: Preview)
    requires PayloadOk(rules, sources, RawPayload(preview)) && RepairOk(preview) && PatchesHold(rules, sources, preview)
    requires EditsOk(preview) && GoodPayload(rules, sources, Layered(preview))
    ensures Build(rules, sources, preview) == Built(Layered(preview)) && Buildable(rules, sources, preview)
  {
    BuildLayers(rules, sources, preview);
    hide Build;
    hide PayloadOk;
    hide RawPayload;
    hide RepairOk;
    hide PatchesHold;
    hide EditsOk;
    hide GoodPayload;
    hide Layered;
  }

  /** Edited drafts that are good have an effective payload. */
  lemma EditedBuilds(p: Payload, edits: map<Target, string>)
    requires GoodPayload(Plain(), map[], p) && forall t | t in edits :: CleanString(edits[t])
    requires Full(p.options) && GoodPayload(Plain(), map[], WithEdits(p, edits))
    ensures Build(Plain(), map[], Edited(p, edits)) == Built(WithEdits(p, edits))
  {
    var preview := Edited(p, edits);
    hide GoodPayload;
    hide Distinguishable;
    hide Edited;
    hide PayloadOk;
    hide RawPayload;
    hide Build;
    hide EditsOk;
    hide EditsOf;
    hide Patched;
    hide Layered;
    hide PatchesOf;
    hide StatementOk;
    hide WithEdits;
    hide Plain;
    EditedReads(p, edits);
    NoRepairNoPatches(preview);
    GoodIsDistinguishable(Plain(), map[], p);
    BuildableIs(Plain(), map[], preview);
  }

  // ---- patching the second name

  function Patches(c: char): seq<Patch> { [Patch(Second(), Draft(c))] }

  lemma PatchedDrafts(first: char, second: char, c: char)
    requires !IsSpace(c)
    ensures WithPatches(Drafts(first, second), Patches(c)) == Drafts(first, c)
  {
    var p, q := Drafts(first, second), Drafts(first, c);
    assert p.(options := q.options) == q;
    hide RawRepairOf;
    hide RepairJson;
    hide StatementOf;
    hide StatementJson;
    hide Drafts;
    forall t | t in Targets() ensures WithPatches(p, Patches(c)).options[t] == q.options[t] {
      PatchesPutInPlace(Patches(c), [Second()], t);
      DraftAt(first, second, t);
      DraftAt(first, c, t);
      if t == Second() {
        assert Patches(c)[0].target == t;
        DraftIsGood(c);
        StatementFixpoint(Plain(), map[], Draft(c));
      }
    }
    hide Plain;
    assert WithPatches(p, Patches(c)).options == q.options;
  }

  lemma OutputAccepted(first: char, second: char, c: char)
    requires Apart(first, second) && Apart(first, c)
    ensures ValidateRepair(Plain(), map[], [Second()], Drafts(first, second), RepairJson(Patches(c))) == Some(Patches(c))
  {
    assert !IsSpace(c);
    assert PatchesMatch(Patches(c), [Second()]) && TargetsDiffer(Patches(c));
    assert |Patches(c)| == 1 && Patches(c)[0].statement == Draft(c);
    hide *;
    DraftsAreGood(first, second);
    DraftsAreGood(first, c);
    PatchedDrafts(first, second, c);
    GoodIsDistinguishable(Plain(), map[], Drafts(first, c));
    DraftIsGood(c);
    GoodPatchesAccepted(Plain(), map[], Drafts(first, second), Patches(c), [Second()]);
  }

  lemma AcceptedByParts(preview: Preview, before: Payload, t: Target, j: Json, patches: seq<Patch>)
    requires !HasRepair(preview) && Build(Plain(), map[], preview) == Built(before) && Full(before.options)
    requires t !in EditsOf(preview) && ValidateRepair(Plain(), map[], [t], before, j) == Some(patches)
    ensures RepairAccepted(Plain(), map[], preview, before, [t], j, patches)
  {
    hide HasRepair;
    hide Build;
    hide EditsOf;
    hide ValidateRepair;
    hide Plain;
  }

  lemma PatchesAccepted(p: Payload, edits: map<Target, string>, first: char, second: char, c: char)
    requires GoodPayload(Plain(), map[], p) && forall t | t in edits :: CleanString(edits[t])
    requires Second() !in edits && Apart(first, second) && Apart(first, c)
    requires Full(p.options) && WithEdits(p, edits) == Drafts(first, second)
    ensures RepairAccepted(Plain(), map[], Edited(p, edits), Drafts(first, second), [Second()],
              RepairJson(Patches(c)), Patches(c))
  {
    hide *;
    DraftsAreGood(first, second);
    OutputAccepted(first, second, c);
    EditedReads(p, edits);
    EditedBuilds(p, edits);
    AcceptedByParts(Edited(p, edits), Drafts(first, second), Second(), RepairJson(Patches(c)), Patches(c));
  }

  // ---- a repair that gives a draft the name another draft was renamed from

  function Renamed(): map<Target, string> { map[First() := "D"] }

  lemma RenamedDraft(t: Target)
    ensures WithEdits(Drafts('A', 'B'), Renamed()).options[t] == Drafts('D', 'B').options[t]
  {
    assert t in Targets();
    DraftAt('A', 'B', t);
    DraftAt('D', 'B', t);
    hide Drafts;
  }

  lemma RenamedDrafts()
    ensures WithEdits(Drafts('A', 'B'), Renamed()) == Drafts('D', 'B')
  {
    var p, q := WithEdits(Drafts('A', 'B'), Renamed()), Drafts('D', 'B');
    assert p.(options := q.options) == q;
    hide *;
    forall t ensures p.options[t] == q.options[t] {
      RenamedDraft(t);
    }
    SameOptions(p, q);
  }

  lemma SameOptions(p: Payload, q: Payload)
    requires Full(p.options) && Full(q.options) && forall t :: p.options[t] == q.options[t]
    ensures p.options == q.options
  {
  }

  lemma VisibleTexts()
    ensures TextOk(Str("r")) && TextOk(Str("h"))
  {
    hide Strip;
    CleanIsText("r");
    CleanIsText("h");
  }

  /**
   * Three drafts named A, B and C. A person renames A to D, and the repair renames B to A: the output
   * is accepted for the effective names D, A and C, and cannot be activated, because the bare names
   * would be A, A and C.
   */
  lemma FreedNameExample()
    ensures RepairAccepted(Plain(), map[], Edited(Drafts('A', 'B'), Renamed()), Drafts('D', 'B'), [Second()],
              RepairJson(Patches('A')), Patches('A'))
    ensures Build(Plain(), map[], Activated(Edited(Drafts('A', 'B'), Renamed()), "r", "h", Patches('A'))).Refused?
  {
    var preview, targets, j := Edited(Drafts('A', 'B'), Renamed()), [Second()], RepairJson(Patches('A'));
    assert Patches('A')[0].statement.text == "A";
    assert Second() !in Renamed() && First() !in targets;
    RenamedDrafts();
    VisibleTexts();
    DraftAt('A', 'B', First());
    assert Drafts('A', 'B').options[First()].text == "A";
    hide *;
    ApartLetters();
    DraftsAreGood('A', 'B');
    PatchesAccepted(Drafts('A', 'B'), Renamed(), 'D', 'B', 'A');
    EditedReads(Drafts('A', 'B'), Renamed());
    AcceptedPatch(preview, 'D', 'B', 'A');
    NamesOfTargets();
    FreedNameIsRefused(Plain(), map[], preview, Drafts('D', 'B'), targets, j, Patches('A'), "r", "h",
      Organizational, RuleAutomation);
  }

  lemma ApartLetters()
    ensures Apart('A', 'B') && Apart('D', 'B') && Apart('D', 'A') && Apart('A', 'E')
    ensures forall t | t in Renamed() :: CleanString(Renamed()[t])
    ensures !IsSpace('E')
  {
  }

  lemma NamesOfTargets()
    ensures First() == Target(Organizational, OptionName) && Second() == Target(RuleAutomation, OptionName)
  {
  }

  lemma AcceptedPatch(preview: Preview, first: char, second: char, c: char)
    requires RepairAccepted(Plain(), map[], preview, Drafts(first, second), [Second()], RepairJson(Patches(c)), Patches(c))
    ensures Replaced(Drafts(first, second), [Second()], RepairJson(Patches(c))).options[Second()].text == [c]
  {
    AcceptedIs(Plain(), map[], preview, Drafts(first, second), [Second()], RepairJson(Patches(c)), Patches(c));
    hide RepairAccepted;
    hide Replaced;
    hide Drafts;
    hide Plain;
    hide GoodPayload;
    hide Base;
    hide Patched;
    hide Layered;
    hide RepairJson;
    var q := Replaced(Drafts(first, second), [Second()], RepairJson(Patches(c)));
    assert PatchesFor(q, [Second()])[0].statement == q.options[Second()];
    assert Patches(c)[0].statement.text == [c];
  }

  // ---- an edit that sets a repaired text back

  /** The form as it is filled in with the generator's own texts. */
  function OriginalForm(): Submission {
    AsSubmission(map t | t in Targets() :: [Letter(t.lane)])
  }

  lemma OriginalFormReads(t: Target)
    ensures Submitted(OriginalForm(), t) && SubmittedText(OriginalForm(), t) == [Letter(t.lane)]
    ensures Strip([Letter(t.lane)]) == [Letter(t.lane)]
  {
    assert t in Targets();
    SubmissionReadsBack(map t | t in Targets() :: [Letter(t.lane)], t);
    TrimmedIsStripped([Letter(t.lane)]);
    hide AsSubmission;
  }

  lemma OriginalFormKeys(n: Name, m: Name)
    requires n in OriginalForm() && m in OriginalForm()[n]
    ensures n.Of? && m.Part? && OriginalForm()[n][m] == [Letter(n.lane)]
  {
    assert Target(n.lane, m.field) in Targets();
  }

  lemma OriginalFormFilledIn()
    ensures FilledIn(OriginalForm())
  {
    var form := OriginalForm();
    assert forall n | n in form :: n.Of?;
    forall n, m | n in form && m in form[n] ensures m.Part? && Strip(form[n][m]) != "" {
      OriginalFormKeys(n, m);
      OriginalFormReads(Target(n.lane, OptionName));
    }
    forall t | t in Targets() ensures Submitted(form, t) {
      OriginalFormReads(t);
    }
    hide OriginalForm;
    hide Strip;
    hide Submitted;
    assert forall n | n in form :: LaneSubmittable(form[n]);
  }

  lemma OriginalIsBase(preview: Preview, t: Target)
    ensures OriginalText(preview, t) == Base(preview).options[t].text
  {
    assert t in Targets();
    hide RawStatement;
    hide RawPayload;
    hide CleanText;
    hide CleanList;
  }

  lemma DraftText(t: Target)
    ensures Drafts('A', 'B').options[t].text == [Letter(t.lane)]
  {
    DraftAt('A', 'B', t);
    hide Drafts;
  }

  lemma OriginalFormAt(preview: Preview, t: Target)
    requires Base(preview) == Drafts('A', 'B')
    ensures t !in Changed(preview, OriginalForm())
  {
    hide *;
    OriginalFormReads(t);
    OriginalIsBase(preview, t);
    DraftText(t);
    ChangedAt(preview, OriginalForm(), t);
  }

  /** Saving the generator's own texts saves no edit at all. */
  lemma OriginalFormChangesNothing(preview: Preview)
    requires Base(preview) == Drafts('A', 'B')
    ensures Changed(preview, OriginalForm()) == map[]
  {
    hide *;
    forall t ensures t !in Changed(preview, OriginalForm()) {
      OriginalFormAt(preview, t);
    }
  }

  /** The drafts A, B and C, the second renamed to E by a repair. */
  function RepairedPreview(): Preview {
    Activated(Edited(Drafts('A', 'B'), map[]), "r", "h", Patches('E'))
  }

  lemma NoEdits(p: Payload)
    requires Full(p.options)
    ensures WithEdits(p, map[]) == p
  {
    assert WithEdits(p, map[]).options == p.options;
  }

  lemma RepairedBuilds()
    ensures Build(Plain(), map[], RepairedPreview()).Built?
    ensures Build(Plain(), map[], RepairedPreview()).payload.options[Second()].text == "E"
    ensures Base(RepairedPreview()) == Drafts('A', 'B') && EditsOf(RepairedPreview()) == map[]
  {
    var base := Edited(Drafts('A', 'B'), map[]);
    assert RepairedPreview() == Activated(base, "r", "h", Patches('E'));
    assert Patches('E') != [] && TargetsDiffer(Patches('E'));
    hide *;
    VisibleTexts();
    ApartLetters();
    DraftsAreGood('A', 'B');
    NoEdits(Drafts('A', 'B'));
    PatchesAccepted(Drafts('A', 'B'), map[], 'A', 'B', 'E');
    EditedReads(Drafts('A', 'B'), map[]);
    AcceptedPatch(base, 'A', 'B', 'E');
    UneditedRepairActivates(Plain(), map[], base, Drafts('A', 'B'), [Second()], RepairJson(Patches('E')), Patches('E'), "r", "h");
    FramedBuilds(base, Drafts('A', 'B'), [Second()], RepairJson(Patches('E')), RepairedPreview());
    ActivationReads(base, "r", "h", Patches('E'));
  }

  lemma FramedBuilds(preview: Preview, before: Payload, targets: seq<Target>, j: Json, after: Preview)
    requires Full(before.options) && Framed(Plain(), map[], preview, before, targets, j, after)
    ensures Build(Plain(), map[], after) == Built(Replaced(before, targets, j))
  {
    hide Build;
    hide Replaced;
    hide EditsOf;
    hide Plain;
  }

  lemma SavedBuildable(preview: Preview, form: Submission)
    requires Buildable(Plain(), map[], preview) && Submittable(form)
    requires EditsOf(preview) == map[] && Changed(preview, form) == map[]
    ensures Build(Plain(), map[], Saved(preview, form)) == Built(Layered(preview))
  {
    var after := Saved(preview, form);
    SavedReads(preview, form);
    SavedIs(preview, form);
    SavedLayers(preview, Changed(preview, AsSubmission(Changed(preview, form))));
    hide Saved;
    hide Changed;
    hide AsSubmission;
    hide Submittable;
    hide Plain;
    hide PayloadOk;
    hide RawPayload;
    hide RepairOk;
    hide PatchesOf;
    hide Patched;
    hide EditsOf;
    hide EditsOk;
    hide GoodPayload;
    hide StatementOk;
    hide Distinguishable;
    hide WithEdits;
    assert Layered(after) == Layered(preview);
    hide Layered;
    BuildableIs(Plain(), map[], after);
    hide Build;
  }

  lemma SavedLayers(preview: Preview, edits: map<Target, string>)
    ensures var after := WithStoredEdits(preview, edits);
            RawPayload(after) == RawPayload(preview) && RepairOk(after) == RepairOk(preview) && PatchesOf(after) == PatchesOf(preview)
  {
    hide EditsJson;
    SameBase(preview, WithStoredEdits(preview, edits));
    SameRepair(preview, WithStoredEdits(preview, edits));
    hide RawPayload;
    hide RepairOk;
    hide PatchesOf;
  }

  /**
   * The second of the drafts A, B and C was renamed to E by a repair. A person who sets it back to B and
   * saves sees E again: the edit is dropped as unchanged.
   */
  lemma ResetEditExample()
    ensures FilledIn(OriginalForm()) && Submitted(OriginalForm(), Second())
    ensures SubmittedText(OriginalForm(), Second()) == "B"
    ensures Build(Plain(), map[], Saved(RepairedPreview(), OriginalForm())).Built?
    ensures Build(Plain(), map[], Saved(RepairedPreview(), OriginalForm())).payload.options[Second()].text == "E"
    ensures !Survives(RepairedPreview(), OriginalForm(), Second())
  {
    var preview, form := RepairedPreview(), OriginalForm();
    assert [Letter(Second().lane)] == "B";
    OriginalFormReads(Second());
    OriginalFormFilledIn();
    assert Submittable(form);
    hide *;
    RepairedBuilds();
    OriginalFormChangesNothing(preview);
    BuildLayers(Plain(), map[], preview);
    SavedBuildable(preview, form);
    EditsSurvive(Plain(), map[], preview, form, Layered(preview), Second());
  }
}
