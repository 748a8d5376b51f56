/** Checking the output of a repair: one patch for each target of the plan, and a valid payload. */
module RepairOutput {
  import opened Options
  import opened Payloads
  import opened PayloadProofs
  import opened Effective
  import opened Repair
  import opened Validator

  predicate PatchReadable(j: Json) {
    j.Obj? && j.members.Keys == PatchNames() && RepairTarget(j).Some?
  }

  lemma NamelessTarget(option: string, field: string)
    requires option == "" || field == ""
    ensures TargetNamed(option, field) == None
  {
    assert LaneNamed("") == None by { assert |""| == 0; }
    assert FieldNamed("") == None by { assert |""| == 0; }
    hide LaneNamed;
    hide FieldNamed;
  }

  /** Reads which field a patch is for. */
  method ReadPatchTarget(j: Json, path: seq<Step>, log: ErrorLog) returns (target: Option<Target>)
    modifies log
    ensures target == RepairTarget(j) && Reports(log, PatchReadable(j))
  {
    hide CleanText;
    hide TextOk;
    hide LaneNamed;
    hide FieldNamed;
    var m := AsDict(j, path, log);
    ExactFields(m, PatchNames(), path, log);
    TextIsClean(Get(m, PatchOption));
    TextIsClean(Get(m, PatchField));
    var option := NonemptyText(Get(m, PatchOption), path + [Member(PatchOption)], log);
    var field := NonemptyText(Get(m, PatchField), path + [Member(PatchField)], log);
    if option == "" || field == "" {
      NamelessTarget(option, field);
    }
    if option != "" && LaneNamed(option).None? {
      log.Append(path + [Member(PatchOption)], UnknownOption(option));
    }
    if field != "" && FieldNamed(field).None? {
      log.Append(path + [Member(PatchField)], UnknownField(field));
    }
    return TargetNamed(option, field);
  }

  predicate OncePerTarget(items: seq<Json>, targets: seq<Target>) {
    && (forall i | 0 <= i < |items| :: RepairPatchOk(items[i], targets))
    && (forall i, k | 0 <= i < k < |items| :: RepairTarget(items[i]) != RepairTarget(items[k]))
  }

  /** The loop over the patches. While nothing is wrong, what is seen are the targets read so far. */
  method ReadPatches(items: seq<Json>, targets: seq<Target>, log: ErrorLog) returns (seen: set<Target>, raw: map<Target, Json>)
    modifies log
    ensures Reports(log, OncePerTarget(items, targets))
    ensures OncePerTarget(items, targets) ==>
              raw == RawRepair(items) && forall t :: t in seen <==> exists i | 0 <= i < |items| :: RepairTarget(items[i]) == Some(t)
  {
    hide RepairTarget;
    hide RepairPatchOk;
    seen, raw := {}, map[];
    for n := 0 to |items|
      invariant Reports(log, OncePerTarget(items[..n], targets))
      invariant OncePerTarget(items[..n], targets) ==>
          raw == RawRepair(items[..n]) && forall t :: t in seen <==> exists i | 0 <= i < n :: RepairTarget(items[i]) == Some(t)
    {
      assert items[..n + 1][..n] == items[..n] && items[..n + 1] == items[..n] + [items[n]];
      OneMorePatch(items[..n], items[n], targets);
      var path := [Member(Patches), Index(n)];
      var target := ReadPatchTarget(items[n], path, log);
      ReadablePatch(items[n], targets);
      if target.Some? {
        if target.value in seen {
          log.Append(path, DuplicateTarget(target.value));
        } else {
          seen := seen + {target.value};
          var statement := Get(Members(items[n]), PatchStatement);
          if target.value !in targets {
            log.Append(path, UnplannedTarget(target.value));
          } else if !statement.Obj? {
            log.Append(path + [Member(PatchStatement)], ObjectExpected);
          } else {
            raw := raw[target.value := statement];
          }
        }
      }
    }
    assert items[..|items|] == items;
  }

  lemma ReadablePatch(j: Json, targets: seq<Target>)
    ensures RepairPatchOk(j, targets) <==>
              PatchReadable(j) && RepairTarget(j).value in targets && Get(Members(j), PatchStatement).Obj?
  {
    hide RepairTarget;
  }

  lemma OneMorePatch(items: seq<Json>, j: Json, targets: seq<Target>)
    ensures OncePerTarget(items + [j], targets) <==>
              && OncePerTarget(items, targets) && RepairPatchOk(j, targets)
              && forall i | 0 <= i < |items| :: RepairTarget(items[i]) != RepairTarget(j)
  {
    hide RepairPatchOk;
    hide RepairTarget;
    var more := items + [j];
    assert more[|items|] == j && forall i | 0 <= i < |items| :: more[i] == items[i];
  }

  /** Every target of the plan has been seen. */
  method CheckMissing(targets: seq<Target>, seen: set<Target>, log: ErrorLog)
    modifies log
    ensures Reports(log, forall t | t in targets :: t in seen)
  {
    for n := 0 to |targets|
      invariant Reports(log, forall i | 0 <= i < n :: targets[i] in seen)
    {
      if targets[n] !in seen {
        log.Append([Member(Patches)], MissingTarget(targets[n]));
      }
    }
  }

  predicate RepairRootOk(j: Json) {
    && j.Obj? && j.members.Keys == RepairRootNames()
    && CleanText(Get(j.members, SchemaVersion)) == RepairSchemaVersion()
    && CleanText(Get(j.members, PromptVersion)) == RepairPromptVersion()
    && Get(j.members, Patches).List?
  }

  method ReadRepairRoot(j: Json, log: ErrorLog) returns (items: seq<Json>)
    modifies log
    ensures var patches := Get(Members(j), Patches); items == if patches.List? then patches.items else []
    ensures Reports(log, RepairRootOk(j))
  {
    hide CleanText;
    var root := AsDict(j, [], log);
    ExactFields(root, RepairRootNames(), [], log);
    var _ := CheckVersion(Get(root, SchemaVersion), RepairSchemaVersion(), [Member(SchemaVersion)], log);
    var _ := CheckVersion(Get(root, PromptVersion), RepairPromptVersion(), [Member(PromptVersion)], log);
    items := AsList(Get(root, Patches), [Member(Patches)], log);
  }

  /** All targets hit once by as many patches as there are targets. */
  predicate HitsAll(items: seq<Json>, targets: seq<Target>) {
    && OncePerTarget(items, targets) && |items| == |targets|
    && forall t | t in targets :: exists i | 0 <= i < |items| :: RepairTarget(items[i]) == Some(t)
  }

  method CheckPatches(items: seq<Json>, targets: seq<Target>, log: ErrorLog) returns (raw: map<Target, Json>)
    modifies log
    ensures Reports(log, HitsAll(items, targets)) && (HitsAll(items, targets) ==> raw == RawRepair(items))
  {
    hide RepairTarget;
    hide OncePerTarget;
    var seen;
    seen, raw := ReadPatches(items, targets, log);
    CheckMissing(targets, seen, log);
    if |items| != |targets| {
      log.Append([Member(Patches)], WrongPatchCount);
    }
  }

  lemma RepairShapedIs(j: Json, targets: seq<Target>)
    requires Get(Members(j), Patches).List?
    ensures RepairShaped(j, targets) <==> RepairRootOk(j) && HitsAll(Get(Members(j), Patches).items, targets)
  {
    hide CleanText;
    hide RepairPatchOk;
    hide RepairTarget;
  }

  /** `validate_solution_repair_payload`: the normalised patches of the plan, or the errors found. */
  method ValidateRepairPayload(rules: Rules, sources: Sources, targets: seq<Target>, p: Payload, j: Json)
    returns (r: Option<seq<Patch>>, errors: seq<Issue>)
    requires KeepsInk(rules) && Full(p.options)
    ensures r == ValidateRepair(rules, sources, targets, p, j)
    ensures r.None? <==> errors != []
  {
    hide KeepsInk;
    hide RepairRootOk;
    hide RepairShaped;
    hide HitsAll;
    hide RawRepair;
    hide PayloadOk;
    hide OptionsOf;
    hide Render;
    var log := new ErrorLog();
    var items := ReadRepairRoot(j, log);
    if Get(Members(j), Patches).List? {
      RepairShapedIs(j, targets);
    } else {
      NoPatchList(j, targets);
    }
    var raw := CheckPatches(items, targets, log);
    if log.issues != [] {
      return None, log.issues;
    }
    var candidate, found := ValidatePayload(rules, sources, Render(p, raw));
    if candidate.Invalid? {
      return None, found;
    }
    return Some(PatchesFor(candidate.payload, targets)), [];
  }

  lemma NoPatchList(j: Json, targets: seq<Target>)
    requires !Get(Members(j), Patches).List?
    ensures !RepairShaped(j, targets) && !RepairRootOk(j)
  {
  }
}
