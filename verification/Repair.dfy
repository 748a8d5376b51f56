/** The targeted repair: its scope, the check of its output, and its activation in the preview. */
module Repair {
  import opened Options
  import opened Payloads
  import opened Effective

  // ---- the scope

  /** A finding of the critic, with the field it is about and the fields it relates to. */
  datatype Finding = Finding(id: string, repairable: bool, target: Option<Target>, related: seq<Target>)

  datatype ScopeError = NoRepairableFindings | NoTargets

  datatype Scope = Scope(findingIds: seq<string>, targets: seq<Target>) | NoScope(error: ScopeError)

  predicate Concerns(f: Finding, t: Target) {
    f.repairable && (f.target == Some(t) || t in f.related)
  }

  predicate InScope(findings: seq<Finding>, t: Target) {
    exists i | 0 <= i < |findings| :: Concerns(findings[i], t)
  }

  function RepairableIds(findings: seq<Finding>): seq<string> {
    if findings == [] then []
    else
      var front, last := RepairableIds(findings[..|findings| - 1]), findings[|findings| - 1];
      if last.repairable then front + [last.id] else front
  }

  function LaneRank(l: Lane): nat {
    match l
    case Organizational => 0
    case RuleAutomation => 1
    case Assistant => 2
  }

  function FieldRank(f: Field): nat {
    match f
    case OptionName => 0
    case Description => 1
    case ExpectedValue => 2
    case BottleneckCoverage => 3
    case DataRequirements => 4
    case ApplicationImpact => 5
    case IntegrationImpact => 6
    case TechnologyConstraints => 7
    case Risks => 8
    case ArchitectureFit => 9
  }

  /** The ranks are the places in which lanes and fields are listed. */
  lemma RanksFollowLists()
    ensures forall i | 0 <= i < |Lanes()| :: LaneRank(Lanes()[i]) == i
    ensures forall i | 0 <= i < |OptionFields()| :: FieldRank(OptionFields()[i]) == i
  {
  }

  /** The key targets are sorted by. */
  function Rank(t: Target): nat { 10 * LaneRank(t.lane) + FieldRank(t.field) }

  predicate Ordered(ts: seq<Target>) {
    forall i, j | 0 <= i < j < |ts| :: Rank(ts[i]) < Rank(ts[j])
  }

  predicate ScopeFits(findings: seq<Finding>, scope: Scope) {
    match scope
    case Scope(ids, targets) =>
      && ids == RepairableIds(findings) && ids != [] && targets != []
      && Ordered(targets) && forall t | t in Targets() :: t in targets <==> InScope(findings, t)
    case NoScope(NoRepairableFindings) => RepairableIds(findings) == []
    case NoScope(NoTargets) => RepairableIds(findings) != [] && forall t | t in Targets() :: !InScope(findings, t)
  }

  /** `_repair_scope` */
  method RepairScope(findings: seq<Finding>) returns (scope: Scope)
    ensures ScopeFits(findings, scope)
  {
    var ids: seq<string>, targets: set<Target> := [], {};
    for n := 0 to |findings|
      invariant ids == RepairableIds(findings[..n])
      invariant forall t :: t in targets <==> InScope(findings[..n], t)
    {
      var f := findings[n];
      assert findings[..n + 1] == findings[..n] + [f];
      assert forall t :: InScope(findings[..n + 1], t) <==> InScope(findings[..n], t) || Concerns(f, t) by {
        ScopeGrows(findings[..n], f);
      }
      if f.repairable {
        ids := ids + [f.id];
        if f.target.Some? {
          targets := targets + {f.target.value};
        }
        targets := targets + set t | t in f.related;
      }
    }
    assert findings[..|findings|] == findings;
    if ids == [] {
      return NoScope(NoRepairableFindings);
    }
    if targets == {} {
      return NoScope(NoTargets);
    }
    var sorted := Sort(targets);
    return Scope(ids, sorted);
  }

  lemma ScopeGrows(findings: seq<Finding>, f: Finding)
    ensures forall t :: InScope(findings + [f], t) <==> InScope(findings, t) || Concerns(f, t)
  {
    hide Concerns;
    var more := findings + [f];
    assert more[|findings|] == f;
    assert forall i | 0 <= i < |findings| :: more[i] == findings[i];
  }

  lemma RankDiffers(a: Target, b: Target)
    requires Rank(a) == Rank(b)
    ensures a == b
  {
  }

  /** Sorting a set of targets, smallest first. */
  method Sort(targets: set<Target>) returns (sorted: seq<Target>)
    ensures Ordered(sorted) && forall t :: t in sorted <==> t in targets
    ensures targets != {} ==> sorted != []
  {
    hide Rank;
    sorted := [];
    var rest := targets;
    while rest != {}
      invariant rest <= targets && Ordered(sorted)
      invariant forall t :: t in sorted <==> t in targets - rest
      invariant forall s, t | s in sorted && t in rest :: Rank(s) < Rank(t)
      decreases |rest|
    {
      var least := Least(rest);
      forall t | t in rest && t != least ensures Rank(least) < Rank(t) {
        if Rank(least) == Rank(t) {
          RankDiffers(least, t);
        }
      }
      sorted := sorted + [least];
      rest := rest - {least};
    }
    if targets != {} {
      var t :| t in targets;
      assert t in sorted;
    }
  }

  method Least(targets: set<Target>) returns (least: Target)
    requires targets != {}
    ensures least in targets && forall t | t in targets :: Rank(least) <= Rank(t)
  {
    hide Rank;
    least :| least in targets;
    var rest := targets - {least};
    while rest != {}
      invariant rest <= targets && least in targets
      invariant forall t | t in targets - rest :: Rank(least) <= Rank(t)
      decreases |rest|
    {
      var t :| t in rest;
      rest := rest - {t};
      if Rank(t) < Rank(least) {
        least := t;
      }
    }
  }

  // ---- the output of the repair

  function RepairRootNames(): set<Name> { {SchemaVersion, PromptVersion, Patches} }

  function RepairTarget(j: Json): Option<Target> {
    TargetNamed(CleanText(Get(Members(j), PatchOption)), CleanText(Get(Members(j), PatchField)))
  }

  predicate RepairPatchOk(j: Json, targets: seq<Target>) {
    && j.Obj? && j.members.Keys == PatchNames()
    && RepairTarget(j).Some? && RepairTarget(j).value in targets && Get(j.members, PatchStatement).Obj?
  }

  /** Exactly one patch for each target of the plan, and the right versions. */
  predicate RepairShaped(j: Json, targets: seq<Target>) {
    && j.Obj? && j.members.Keys == RepairRootNames()
    && CleanText(Get(j.members, SchemaVersion)) == RepairSchemaVersion()
    && CleanText(Get(j.members, PromptVersion)) == RepairPromptVersion()
    && Get(j.members, Patches).List?
    && var items := Get(j.members, Patches).items;
       && |items| == |targets|
       && (forall i | 0 <= i < |items| :: RepairPatchOk(items[i], targets))
       && (forall i, k | 0 <= i < k < |items| :: RepairTarget(items[i]) != RepairTarget(items[k]))
       && (forall t | t in targets :: exists i | 0 <= i < |items| :: RepairTarget(items[i]) == Some(t))
  }

  function RawRepair(items: seq<Json>): map<Target, Json> {
    if items == [] then map[]
    else
      var front, last := RawRepair(items[..|items| - 1]), items[|items| - 1];
      if RepairTarget(last).Some? then front[RepairTarget(last).value := Get(Members(last), PatchStatement)] else front
  }

  function RawRepairOf(j: Json): map<Target, Json> {
    var patches := Get(Members(j), Patches);
    if patches.List? then RawRepair(patches.items) else map[]
  }

  datatype Patch = Patch(target: Target, statement: Statement)

  function PatchesFor(p: Payload, targets: seq<Target>): seq<Patch>
    requires Full(p.options)
  {
    seq(|targets|, i requires 0 <= i < |targets| => Patch(targets[i], p.options[targets[i]]))
  }

  /** `validate_solution_repair_payload`: the normalised patches, in the order of the plan. */
  function ValidateRepair(rules: Rules, sources: Sources, targets: seq<Target>, p: Payload, j: Json): Option<seq<Patch>>
    requires Full(p.options)
  {
    if !RepairShaped(j, targets) then None
    else match Validate(rules, sources, Render(p, RawRepairOf(j)))
      case Invalid => None
      case Valid(candidate) => Some(PatchesFor(candidate, targets))
  }

  // ---- activation

  function PatchJson(p: Patch): Json {
    Obj(map[PatchOption := Str(LaneText(p.target.lane)), PatchField := Str(FieldText(p.target.field)),
            PatchStatement := StatementJson(p.statement)])
  }

  function PatchList(patches: seq<Patch>): seq<Json> {
    seq(|patches|, i requires 0 <= i < |patches| => PatchJson(patches[i]))
  }

  function StoredRepair(run: string, hash: string, patches: seq<Patch>): Json {
    Obj(map[QualityRunId := Str(run), InputHash := Str(hash), PromptVersion := Str(RepairPromptVersion()),
            SchemaVersion := Str(RepairSchemaVersion()), Patches := List(PatchList(patches))])
  }

  function Activated(preview: Preview, run: string, hash: string, patches: seq<Patch>): Preview {
    preview[MachineRepair := StoredRepair(run, hash, patches)]
  }

  /** The repair output as it is handed to the activation: the normalised patches. */
  function RepairJson(patches: seq<Patch>): Json {
    Obj(map[SchemaVersion := Str(RepairSchemaVersion()), PromptVersion := Str(RepairPromptVersion()),
            Patches := List(PatchList(patches))])
  }
}
