/** The generated solution payload: its JSON form, its normalised form, and what the validator demands. */
module Payloads {
  import opened Texts

  datatype Lane = Organizational | RuleAutomation | Assistant

  datatype Field =
    | OptionName | Description | ExpectedValue | BottleneckCoverage | DataRequirements | ApplicationImpact
    | IntegrationImpact | TechnologyConstraints | Risks | ArchitectureFit

  datatype Target = Target(lane: Lane, field: Field)

  /** The member names the code looks up, one constructor each; every other name is `Other`. */
  datatype Name =
    | SchemaVersion | PromptVersion | Options | Of(lane: Lane) | Part(field: Field)
    | Text | SourceIds | Assumptions | OpenEvidence | Uncertainty | Level | Reason
    | Edits | MachineRepair | QualityRunId | InputHash | Patches | PatchOption | PatchField | PatchStatement
    | Other(name: string)

  datatype Json =
    | Null | Bool(b: bool) | Num(n: real) | Str(s: string) | List(items: seq<Json>) | Obj(members: map<Name, Json>)

  datatype Statement = Statement(
    text: string, sourceIds: seq<string>, assumptions: seq<string>, openEvidence: seq<string>,
    level: string, reason: string)

  datatype Payload = Payload(schemaVersion: string, promptVersion: string, options: map<Target, Statement>)

  datatype Token = Token(value: real, percent: bool)

  /** The two text functions that are not spelled out here: number extraction and `str.lower`. */
  datatype Rules = Rules(tokens: string -> set<Token>, lower: string -> string)

  type Sources = map<string, string>

  function Lanes(): (lanes: seq<Lane>)
    ensures forall l :: l in lanes
  {
    var lanes := [Organizational, RuleAutomation, Assistant];
    EveryLane(lanes);
    lanes
  }

  lemma EveryLane(lanes: seq<Lane>)
    requires lanes == [Organizational, RuleAutomation, Assistant]
    ensures forall l :: l in lanes
  {
    forall l: Lane ensures l in lanes {
      assert l == lanes[0] || l == lanes[1] || l == lanes[2];
    }
  }

  function OptionFields(): (fields: seq<Field>)
    ensures forall f :: f in fields
  {
    var fields := [OptionName, Description, ExpectedValue, BottleneckCoverage, DataRequirements, ApplicationImpact,
                   IntegrationImpact, TechnologyConstraints, Risks, ArchitectureFit];
    EveryField(fields);
    fields
  }

  lemma EveryField(fields: seq<Field>)
    requires fields == [OptionName, Description, ExpectedValue, BottleneckCoverage, DataRequirements, ApplicationImpact,
                        IntegrationImpact, TechnologyConstraints, Risks, ArchitectureFit]
    ensures forall f :: f in fields
  {
    forall f: Field ensures f in fields {
      assert exists i | 0 <= i < 10 :: fields[i] == f by {
        assert fields[0] == f || fields[1] == f || fields[2] == f || fields[3] == f || fields[4] == f
            || fields[5] == f || fields[6] == f || fields[7] == f || fields[8] == f || fields[9] == f;
      }
    }
  }

  /** The fields two solution drafts are compared by. */
  function DistinctiveFields(): seq<Field> {
    [Description, ExpectedValue, BottleneckCoverage, IntegrationImpact, Risks, ArchitectureFit]
  }

  function Targets(): (ts: set<Target>)
    ensures forall t :: t in ts
  {
    var ts := set l: Lane, f: Field | true :: Target(l, f);
    EveryTarget(ts);
    ts
  }

  lemma EveryTarget(ts: set<Target>)
    requires ts == set l: Lane, f: Field | true :: Target(l, f)
    ensures forall t :: t in ts
  {
    forall t: Target ensures t in ts {
      assert t == Target(t.lane, t.field);
    }
  }

  function GenerationSchemaVersion(): string { "1.0" }
  function GenerationPromptVersion(): string { "1.2" }
  predicate KnownLevel(level: string) { level == "low" || level == "medium" || level == "high" }

  function RootNames(): set<Name> { {SchemaVersion, PromptVersion, Options} }
  function LaneNames(): set<Name> { set l: Lane | true :: Of(l) }
  function FieldNames(): set<Name> { set f: Field | true :: Part(f) }
  function StatementNames(): set<Name> { {Text, SourceIds, Assumptions, OpenEvidence, Uncertainty} }
  function UncertaintyNames(): set<Name> { {Level, Reason} }

  // ---- reading JSON

  function Members(j: Json): map<Name, Json> {
    if j.Obj? then j.members else map[]
  }

  function Get(m: map<Name, Json>, n: Name): Json {
    if n in m then m[n] else Null
  }

  predicate TextOk(j: Json) { j.Str? && Strip(j.s) != "" }

  function CleanText(j: Json): string {
    if TextOk(j) then Strip(j.s) else ""
  }

  predicate ListOk(j: Json) { j.List? && forall i | 0 <= i < |j.items| :: TextOk(j.items[i]) }

  /** The non-empty texts of a list, stripped. */
  function CleanItems(items: seq<Json>): seq<string> {
    if items == [] then []
    else
      var front, last := CleanItems(items[..|items| - 1]), CleanText(items[|items| - 1]);
      if last == "" then front else front + [last]
  }

  function CleanList(j: Json): seq<string> {
    if j.List? then CleanItems(j.items) else []
  }

  // ---- one statement

  function StatementOf(j: Json): Statement {
    var m := Members(j);
    var u := Members(Get(m, Uncertainty));
    Statement(CleanText(Get(m, Text)), CleanList(Get(m, SourceIds)), CleanList(Get(m, Assumptions)),
      CleanList(Get(m, OpenEvidence)), CleanText(Get(u, Level)), CleanText(Get(u, Reason)))
  }

  predicate NoDuplicates(xs: seq<string>) {
    forall i, j | 0 <= i < j < |xs| :: xs[i] != xs[j]
  }

  function SourceValue(sources: Sources, id: string): string {
    if id in sources then sources[id] else ""
  }

  /** The numbers that occur in the cited sources. */
  function Supported(rules: Rules, sources: Sources, ids: seq<string>): set<Token> {
    set i, t | 0 <= i < |ids| && t in rules.tokens(SourceValue(sources, ids[i])) :: t
  }

  predicate Grounded(rules: Rules, sources: Sources, st: Statement) {
    rules.tokens(st.text) <= Supported(rules, sources, st.sourceIds)
  }

  /** The value checks of `_validate_statement`, on the normalised values. */
  predicate StatementHolds(rules: Rules, sources: Sources, st: Statement) {
    && NoDuplicates(st.sourceIds) && (forall id | id in st.sourceIds :: id in sources)
    && KnownLevel(st.level)
    && (st.sourceIds != [] || st.assumptions != [] || st.openEvidence != [])
    && Grounded(rules, sources, st)
  }

  /** The shape a statement object must have. */
  predicate StatementShaped(j: Json) {
    var m := Members(j);
    var u := Get(m, Uncertainty);
    && j.Obj? && m.Keys == StatementNames()
    && TextOk(Get(m, Text)) && ListOk(Get(m, SourceIds)) && ListOk(Get(m, Assumptions)) && ListOk(Get(m, OpenEvidence))
    && u.Obj? && u.members.Keys == UncertaintyNames()
    && TextOk(Get(u.members, Level)) && TextOk(Get(u.members, Reason))
  }

  predicate StatementOk(rules: Rules, sources: Sources, j: Json) {
    StatementShaped(j) && StatementHolds(rules, sources, StatementOf(j))
  }

  function StatementJson(st: Statement): Json {
    Obj(map[Text := Str(st.text), SourceIds := ListJson(st.sourceIds), Assumptions := ListJson(st.assumptions),
            OpenEvidence := ListJson(st.openEvidence),
            Uncertainty := Obj(map[Level := Str(st.level), Reason := Str(st.reason)])])
  }

  function ListJson(xs: seq<string>): Json {
    List(seq(|xs|, i requires 0 <= i < |xs| => Str(xs[i])))
  }

  // ---- the three drafts

  /** The longest prefix without white space. */
  function Word(s: string): string {
    if s == "" || IsSpace(s[0]) then "" else [s[0]] + Word(s[1..])
  }

  lemma DropLeftShrinks(s: string, p: char -> bool)
    ensures |DropLeft(s, p)| <= |s|
  {
  }

  lemma WordWithin(s: string)
    ensures |Word(s)| <= |s| && (s != "" && !IsSpace(s[0]) ==> |Word(s)| > 0)
  {
  }

  lemma DropLeftStops(s: string, p: char -> bool)
    ensures DropLeft(s, p) != "" ==> !p(DropLeft(s, p)[0])
  {
  }

  /** `" ".join(s.split())` */
  function Squash(s: string): string
    decreases |s|
  {
    DropLeftShrinks(s, IsSpace);
    DropLeftStops(s, IsSpace);
    var t := DropLeft(s, IsSpace);
    WordWithin(t);
    if t == "" then ""
    else
      var rest := Squash(t[|Word(t)|..]);
      if rest == "" then Word(t) else Word(t) + " " + rest
  }

  /** The form in which two texts are compared. */
  function Signature(rules: Rules, text: string): string {
    Squash(rules.lower(text))
  }

  ghost predicate KeepsInk(rules: Rules) {
    forall s :: HasInk(s) ==> HasInk(rules.lower(s))
  }

  predicate Full(options: map<Target, Statement>) {
    options.Keys == Targets()
  }

  predicate SameName(rules: Rules, options: map<Target, Statement>, a: Lane, b: Lane)
    requires Full(options)
  {
    Signature(rules, options[Target(a, OptionName)].text) == Signature(rules, options[Target(b, OptionName)].text)
  }

  predicate SameContent(rules: Rules, options: map<Target, Statement>, a: Lane, b: Lane)
    requires Full(options)
  {
    forall f | f in DistinctiveFields() ::
      Signature(rules, options[Target(a, f)].text) == Signature(rules, options[Target(b, f)].text)
  }

  /** No two drafts share their name, and no two say the same. */
  predicate Distinguishable(rules: Rules, options: map<Target, Statement>)
    requires Full(options)
  {
    forall a: Lane, b: Lane | a != b :: !SameName(rules, options, a, b) && !SameContent(rules, options, a, b)
  }

  function RawStatement(j: Json, t: Target): Json {
    Get(Members(Get(Members(Get(Members(j), Options)), Of(t.lane))), Part(t.field))
  }

  function OptionsOf(j: Json): (options: map<Target, Statement>)
    ensures Full(options)
  {
    map t | t in Targets() :: StatementOf(RawStatement(j, t))
  }

  function PayloadOf(j: Json): Payload {
    Payload(CleanText(Get(Members(j), SchemaVersion)), CleanText(Get(Members(j), PromptVersion)), OptionsOf(j))
  }

  predicate PayloadShaped(j: Json) {
    var options := Get(Members(j), Options);
    && j.Obj? && j.members.Keys == RootNames()
    && options.Obj? && options.members.Keys == LaneNames()
    && forall l: Lane :: Get(options.members, Of(l)).Obj? && Get(options.members, Of(l)).members.Keys == FieldNames()
  }

  predicate VersionsOk(p: Payload) {
    p.schemaVersion == GenerationSchemaVersion() && p.promptVersion == GenerationPromptVersion()
  }

  /** A payload the validator accepts. */
  predicate PayloadOk(rules: Rules, sources: Sources, j: Json) {
    && PayloadShaped(j) && VersionsOk(PayloadOf(j))
    && (forall t | t in Targets() :: StatementOk(rules, sources, RawStatement(j, t)))
    && Distinguishable(rules, OptionsOf(j))
  }

  datatype Validation = Valid(payload: Payload) | Invalid

  /** `validate_solution_generation_payload`, up to the wording of its errors. */
  function Validate(rules: Rules, sources: Sources, j: Json): Validation {
    if PayloadOk(rules, sources, j) then Valid(PayloadOf(j)) else Invalid
  }

  // ---- writing JSON

  /** The payload as a JSON object, some of its statements replaced by raw ones. */
  function Render(p: Payload, raw: map<Target, Json>): Json
    requires Full(p.options)
  {
    Obj(map[SchemaVersion := Str(p.schemaVersion), PromptVersion := Str(p.promptVersion),
            Options := Obj(map n | n in LaneNames() :: LaneJson(p, raw, n.lane))])
  }

  function LaneJson(p: Payload, raw: map<Target, Json>, l: Lane): Json
    requires Full(p.options)
  {
    Obj(map n | n in FieldNames() :: RenderedStatement(p, raw, Target(l, n.field)))
  }

  function RenderedStatement(p: Payload, raw: map<Target, Json>, t: Target): Json
    requires Full(p.options)
  {
    if t in raw then raw[t] else StatementJson(p.options[t])
  }

  // ---- what a valid payload guarantees

  predicate CleanString(s: string) { s != "" && Trimmed(s) }

  predicate CleanStrings(xs: seq<string>) {
    forall i | 0 <= i < |xs| :: CleanString(xs[i])
  }

  /** All texts of the statement are stripped and not empty. */
  predicate CleanStatement(st: Statement) {
    && CleanString(st.text) && CleanStrings(st.sourceIds) && CleanStrings(st.assumptions) && CleanStrings(st.openEvidence)
    && CleanString(st.level) && CleanString(st.reason)
  }

  /** Everything a statement of a valid payload is known to be. */
  predicate GoodStatement(rules: Rules, sources: Sources, st: Statement) {
    CleanStatement(st) && StatementHolds(rules, sources, st)
  }

  predicate CleanPayload(p: Payload) {
    Full(p.options) && VersionsOk(p) && forall t | t in Targets() :: CleanStatement(p.options[t])
  }

  predicate GoodPayload(rules: Rules, sources: Sources, p: Payload) {
    && Full(p.options) && VersionsOk(p)
    && (forall t | t in Targets() :: GoodStatement(rules, sources, p.options[t]))
    && Distinguishable(rules, p.options)
  }
}
