/** The effective payload of a preview: generator output, then the machine repair, then the human edits. */
module Effective {
  import opened Options
  import opened Payloads

  /** The stored preview, a JSON object. */
  type Preview = map<Name, Json>

  datatype EffectiveError = InvalidPreview | InvalidPreviewRepair | InvalidPreviewEdit

  datatype Effective = Built(payload: Payload) | Refused(error: EffectiveError)

  function RepairSchemaVersion(): string { "1.0" }
  function RepairPromptVersion(): string { "1.0" }

  function MachineRepairNames(): set<Name> { {QualityRunId, InputHash, PromptVersion, SchemaVersion, Patches} }
  function PatchNames(): set<Name> { {PatchOption, PatchField, PatchStatement} }

  // ---- lanes and fields by their text

  function LaneText(l: Lane): string {
    match l
    case Organizational => "organizational"
    case RuleAutomation => "rule_automation"
    case Assistant => "assistant"
  }

  function FieldText(f: Field): string {
    match f
    case OptionName => "name"
    case Description => "description"
    case ExpectedValue => "expected_value"
    case BottleneckCoverage => "bottleneck_coverage"
    case DataRequirements => "data_requirements"
    case ApplicationImpact => "application_impact"
    case IntegrationImpact => "integration_impact"
    case TechnologyConstraints => "technology_constraints"
    case Risks => "risks"
    case ArchitectureFit => "architecture_fit"
  }

  function LaneNamed(s: string): Option<Lane> {
    if s == "organizational" then Some(Organizational)
    else if s == "rule_automation" then Some(RuleAutomation)
    else if s == "assistant" then Some(Assistant)
    else None
  }

  function FieldNamed(s: string): Option<Field> {
    if s == "name" then Some(OptionName)
    else if s == "description" then Some(Description)
    else if s == "expected_value" then Some(ExpectedValue)
    else if s == "bottleneck_coverage" then Some(BottleneckCoverage)
    else if s == "data_requirements" then Some(DataRequirements)
    else if s == "application_impact" then Some(ApplicationImpact)
    else if s == "integration_impact" then Some(IntegrationImpact)
    else if s == "technology_constraints" then Some(TechnologyConstraints)
    else if s == "risks" then Some(Risks)
    else if s == "architecture_fit" then Some(ArchitectureFit)
    else None
  }

  lemma LaneReadsBack(l: Lane)
    ensures LaneNamed(LaneText(l)) == Some(l)
  {
    assert LaneText(Organizational)[0] == 'o' && LaneText(RuleAutomation)[0] == 'r' && LaneText(Assistant)[0] == 'a';
  }

  lemma FieldReadsBack(f: Field)
    ensures FieldNamed(FieldText(f)) == Some(f)
  {
    var s := FieldText(f);
    assert s[0] == match f case OptionName => 'n' case Description => 'd' case ExpectedValue => 'e'
                           case BottleneckCoverage => 'b' case DataRequirements => 'd' case ApplicationImpact => 'a'
                           case IntegrationImpact => 'i' case TechnologyConstraints => 't' case Risks => 'r'
                           case ArchitectureFit => 'a';
  }

  function TargetNamed(option: string, field: string): Option<Target> {
    var lane, field := LaneNamed(option), FieldNamed(field);
    if lane.Some? && field.Some? then Some(Target(lane.value, field.value)) else None
  }

  lemma TargetReadsBack(t: Target)
    ensures TargetNamed(LaneText(t.lane), FieldText(t.field)) == Some(t)
  {
    LaneReadsBack(t.lane);
    FieldReadsBack(t.field);
    hide LaneNamed;
    hide FieldNamed;
    hide LaneText;
    hide FieldText;
  }

  // ---- the human edits

  function EditJson(preview: Preview, t: Target): Json {
    Get(Members(Get(Members(Get(preview, Edits)), Of(t.lane))), Part(t.field))
  }

  predicate LaneEditsOk(j: Json) {
    j.Obj? && forall n | n in j.members :: n.Part? && TextOk(j.members[n])
  }

  /** The stored edits are readable: known lanes and fields, non-empty texts. */
  predicate EditsOk(preview: Preview) {
    Edits in preview ==> EditsObjectOk(preview[Edits])
  }

  predicate EditsObjectOk(j: Json) {
    j.Obj? && forall n | n in j.members :: n.Of? && LaneEditsOk(j.members[n])
  }

  /** `normalize_solution_generation_edits`, by target. */
  function EditsOf(preview: Preview): map<Target, string> {
    map t | t in Targets() && TextOk(EditJson(preview, t)) :: CleanText(EditJson(preview, t))
  }

  /** The edits with those of one lane added. */
  function WithLane(edits: map<Target, string>, l: Lane, lane: map<Field, string>): (r: map<Target, string>)
    ensures forall t :: t in r <==> t in edits || (t.lane == l && t.field in lane)
    ensures forall t | t in r :: r[t] == if t.lane == l && t.field in lane then lane[t.field] else edits[t]
  {
    edits + map t | t in Targets() && t.lane == l && t.field in lane :: lane[t.field]
  }

  // ---- the machine repair

  datatype RawPatch = RawPatch(target: Target, statement: Json)

  function PatchTarget(j: Json): Option<Target> {
    var option, field := Get(Members(j), PatchOption), Get(Members(j), PatchField);
    if option.Str? && field.Str? then TargetNamed(option.s, field.s) else None
  }

  predicate PatchOk(j: Json) {
    j.Obj? && j.members.Keys == PatchNames() && PatchTarget(j).Some? && Get(j.members, PatchStatement).Obj?
  }

  predicate PatchesOk(items: seq<Json>) {
    && (forall i | 0 <= i < |items| :: PatchOk(items[i]))
    && (forall i, j | 0 <= i < j < |items| :: PatchTarget(items[i]) != PatchTarget(items[j]))
  }

  predicate HasRepair(preview: Preview) { !Get(preview, MachineRepair).Null? }

  predicate RepairOk(preview: Preview) {
    var j := Get(preview, MachineRepair);
    HasRepair(preview) ==> j.Obj? && RepairObjectOk(j.members)
  }

  predicate RepairObjectOk(m: map<Name, Json>) {
    && m.Keys == MachineRepairNames()
    && TextOk(Get(m, QualityRunId)) && TextOk(Get(m, InputHash))
    && Get(m, PromptVersion) == Str(RepairPromptVersion()) && Get(m, SchemaVersion) == Str(RepairSchemaVersion())
    && Get(m, Patches).List? && Get(m, Patches).items != [] && PatchesOk(Get(m, Patches).items)
  }

  /** The raw statement each patch puts in place of another. */
  function PatchMap(items: seq<Json>): map<Target, Json> {
    if items == [] then map[]
    else
      var front, last := PatchMap(items[..|items| - 1]), items[|items| - 1];
      if PatchTarget(last).Some? then front[PatchTarget(last).value := Get(Members(last), PatchStatement)] else front
  }

  function PatchesOf(preview: Preview): map<Target, Json> {
    var patches := Get(Members(Get(preview, MachineRepair)), Patches);
    if patches.List? then PatchMap(patches.items) else map[]
  }

  // ---- building

  function RawPayload(preview: Preview): Json {
    Obj(map[SchemaVersion := Get(preview, SchemaVersion), PromptVersion := Get(preview, PromptVersion),
            Options := Get(preview, Options)])
  }

  function WithEdits(p: Payload, edits: map<Target, string>): (q: Payload)
    requires Full(p.options)
    ensures Full(q.options)
  {
    p.(options := map t | t in Targets() :: if t in edits then p.options[t].(text := edits[t]) else p.options[t])
  }

  function Repaired(rules: Rules, sources: Sources, base: Payload, preview: Preview): Validation
    requires Full(base.options)
  {
    if HasRepair(preview) then Validate(rules, sources, Render(base, PatchesOf(preview))) else Valid(base)
  }

  /** `build_validated_effective_solution_payload` */
  function Build(rules: Rules, sources: Sources, preview: Preview): (r: Effective)
    ensures r.Built? ==> Full(r.payload.options)
  {
    match Validate(rules, sources, RawPayload(preview))
    case Invalid => Refused(InvalidPreview)
    case Valid(base) =>
      if !RepairOk(preview) then Refused(InvalidPreviewRepair)
      else match Repaired(rules, sources, base, preview)
        case Invalid => Refused(InvalidPreviewRepair)
        case Valid(repaired) =>
          if !EditsOk(preview) then Refused(InvalidPreview)
          else match Validate(rules, sources, Render(WithEdits(repaired, EditsOf(preview)), map[]))
            case Invalid => Refused(InvalidPreviewEdit)
            case Valid(p) => Built(p)
  }
}
