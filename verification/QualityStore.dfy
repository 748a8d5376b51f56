/** The rows of one generation run's quality control, and the transactions on them. */
module QualityStore {
  import opened Options
  import opened Answers
  import opened Payloads
  import opened Effective
  import opened EffectiveBuilder
  import opened Repair
  import opened RepairOutput
  import opened QualityModel
  import opened QualityCourse

  // ---- a plan is determined by the rows

  lemma LastIsGreatest(ts: seq<Target>, t: Target)
    requires Ordered(ts) && t in ts
    ensures Rank(t) <= Rank(ts[|ts| - 1])
  {
    hide Rank;
  }

  lemma {:induction false} OrderIsUnique(a: seq<Target>, b: seq<Target>)
    requires Ordered(a) && Ordered(b) && forall t :: t in a <==> t in b
    ensures a == b
  {
    assert b != [] ==> b[0] in b;
    if a != [] {
      var m, n := |a| - 1, |b| - 1;
      assert a[m] in b;
      assert b[n] in a;
      LastIsGreatest(a, b[n]);
      LastIsGreatest(b, a[m]);
      RankDiffers(a[m], b[n]);
      hide Rank;
      forall t ensures t in a[..m] <==> t in b[..n] {
        assert t in a <==> t in a[..m] || t == a[m];
        assert t in b <==> t in b[..n] || t == b[n];
      }
      OrderIsUnique(a[..m], b[..n]);
    }
  }

  lemma ScopeIsUnique(findings: seq<Finding>, ids: seq<string>, targets: seq<Target>, scope: Scope)
    requires ScopeFits(findings, Scope(ids, targets)) && ScopeFits(findings, scope)
    ensures scope == Scope(ids, targets)
  {
    hide InScope;
    hide RepairableIds;
    assert targets[0] in Targets() && targets[0] in targets;
    match scope
    case Scope(_, others) =>
      hide Ordered;
      forall t ensures t in targets <==> t in others {
        assert t in Targets();
      }
      OrderIsUnique(targets, others);
    case NoScope(NoTargets) =>
    case NoScope(NoRepairableFindings) =>
  }

  /** How an activation ends. */
  datatype Outcome = Done | Declined | Raised

  class QualityStore {
    const config: Config
    var g: Generation
    var runs: seq<QualityRun>

    /** The first run of a step type, found by going through the runs. */
    method FindRun(step: StepType) returns (r: Option<nat>)
      ensures r == Find(runs, step)
    {
      for n := 0 to |runs|
        invariant Find(runs[..n], step).None?
      {
        assert runs[..n + 1][..n] == runs[..n];
        if runs[n].step == step {
          FindStays(runs, step, n + 1);
          return Some(n);
        }
      }
      assert runs[..|runs|] == runs;
      return None;
    }

    lemma {:induction false} FindStays(rows: seq<QualityRun>, step: StepType, n: nat)
      requires n <= |rows| && Find(rows[..n], step).Some?
      ensures Find(rows, step) == Find(rows[..n], step)
    {
      if n < |rows| {
        assert rows[..|rows| - 1][..n] == rows[..n];
        FindStays(rows[..|rows| - 1], step, n);
      } else {
        assert rows[..n] == rows;
      }
    }

    /** `reserve_solution_quality_step`: one run for each step type, whoever asks first. */
    method ReserveStep(step: StepType, input: Snapshot) returns (run: nat, created: bool)
      modifies this`runs
      ensures runs == Reserve(old(runs), step, input)
      ensures created <==> Find(old(runs), step).None?
      ensures run < |runs| && runs[run].step == step && (!created ==> Find(old(runs), step) == Some(run))
      ensures created ==> run == old(|runs|)
    {
      var existing := FindRun(step);
      if existing.Some? {
        return existing.value, false;
      }
      runs := runs + [QualityRun(step, Running, input, NoResult)];
      return |runs| - 1, true;
    }

    /** `mark_solution_quality_step_success`, which raises for a finished run and for values its columns do not take. */
    method MarkSuccess(run: nat, result: Result, storable: bool, model: ModelName, figures: Figures) returns (marked: bool)
      requires run < |runs|
      modifies this`runs
      ensures marked <==> NameFits(model) && ColumnsHold(figures) && storable && old(runs)[run].status == Running
      ensures runs == if marked then Finish(old(runs), run, Success, result) else old(runs)
    {
      if !NameFits(model) || runs[run].status != Running || !ColumnsHold(figures) || !storable {
        return false;
      }
      runs := runs[run := runs[run].(status := Success, result := result)];
      return true;
    }

    /** `mark_solution_quality_step_failed`, which raises for a finished run and for a name its column does not take. */
    method MarkFailed(run: nat, model: ModelName) returns (marked: bool)
      requires run < |runs|
      modifies this`runs
      ensures marked <==> NameFits(model) && old(runs)[run].status == Running
      ensures runs == if marked then Finish(old(runs), run, Failed, NoResult) else old(runs)
    {
      if !NameFits(model) || runs[run].status != Running {
        return false;
      }
      runs := runs[run := runs[run].(status := Failed, result := NoResult)];
      return true;
    }

    /** `_success_quality_step`: the usage is read, then the run is marked. */
    method Succeed(run: nat, result: Result, terms: Terms) returns (marked: bool)
      requires run < |runs|
      modifies this`runs
      ensures marked <==> Marks(terms) && old(runs)[run].status == Running
      ensures runs == if marked then Finish(old(runs), run, Success, result) else old(runs)
    {
      var figures := ReadUsage(terms.usage);
      if figures.Raises? {
        return false;
      }
      marked := MarkSuccess(run, result, terms.storable, terms.model, figures.value);
    }

    /** `build_solution_quality_snapshot` */
    method TakeSnapshot(c: Context, preview: Preview) returns (s: Option<Snapshot>)
      requires KeepsInk(config.rules)
      ensures s == SnapshotOf(config.rules, c, preview)
    {
      hide Build;
      var effective := BuildEffective(config.rules, c.facts, preview);
      match effective
      case Refused(_) => s := None;
      case Built(p) => s := Some(Snapshot(c.process, c.version, c.hash, p));
    }

    /** No target of the plan carries a human edit. */
    method EditedTarget(targets: seq<Target>) returns (conflict: bool)
      requires EditsOk(g.preview)
      ensures conflict <==> exists t | t in targets :: t in EditsOf(g.preview)
    {
      hide EditsOf;
      hide EditsOk;
      var edits := NormalizeEdits(g.preview);
      for n := 0 to |targets|
        invariant forall i | 0 <= i < n :: targets[i] !in EditsOf(g.preview)
      {
        if targets[n] in edits.value {
          return true;
        }
      }
      return false;
    }

    /** `build_solution_repair_plan`, which reads only. */
    method BuildPlan(w: World) returns (plan: Option<Plan>)
      requires KeepsInk(config.rules)
      ensures plan.Some? ==> PlanFits(config, g, runs, w, plan.value)
      ensures plan.None? ==> forall p :: !PlanFits(config, g, runs, w, p)
    {
      hide SnapshotOf;
      hide ScopeFits;
      hide EditsOf;
      hide KeepsInk;
      var found := FindRun(InitialCritic);
      if !g.success || g.preview == map[] || found.None? {
        return None;
      }
      var critic := runs[found.value];
      if critic.status != Success || !critic.result.Findings? || !w.contractsCurrent
         || w.current.version != g.version || w.current.hash != g.hash {
        return None;
      }
      var snapshot := TakeSnapshot(w.current, g.preview);
      if snapshot.None? || snapshot.value != critic.input || !w.criticReproducible {
        return None;
      }
      var scope := RepairScope(critic.result.findings);
      if scope.NoScope? {
        assert forall ids, ts :: !ScopeFits(critic.result.findings, Scope(ids, ts)) by {
          forall ids, ts | ScopeFits(critic.result.findings, Scope(ids, ts)) ensures false {
            ScopeIsUnique(critic.result.findings, ids, ts, scope);
          }
        }
        return None;
      }
      SnapshotNeedsEdits(config.rules, w.current, g.preview);
      var conflict := EditedTarget(scope.targets);
      plan := Some(Plan(snapshot.value, scope.findingIds, scope.targets));
      forall p | PlanFits(config, g, runs, w, p) ensures p == plan.value {
        ScopeIsUnique(critic.result.findings, p.findingIds, p.targets, scope);
      }
      if conflict {
        plan := None;
      }
    }

    lemma SnapshotNeedsEdits(rules: Rules, c: Context, preview: Preview)
      ensures SnapshotOf(rules, c, preview).Some? ==> EditsOk(preview)
    {
      hide PayloadOk;
      hide RepairOk;
      hide EditsOk;
      hide Repaired;
      hide WithEdits;
    }

    lemma PlanIsUnique(w: World, p: Plan, q: Plan)
      requires PlanFits(config, g, runs, w, p) && PlanFits(config, g, runs, w, q)
      ensures p == q
    {
      hide SnapshotOf;
      hide ScopeFits;
      hide EditsOf;
      var findings := runs[Find(runs, InitialCritic).value].result.findings;
      ScopeIsUnique(findings, p.findingIds, p.targets, Scope(q.findingIds, q.targets));
    }

    /** `reserve_solution_repair_attempt`: the only attempt there is, for the plan of this moment. */
    method ReserveRepair(w: World) returns (r: Option<(nat, Plan)>)
      requires KeepsInk(config.rules)
      modifies this`runs
      ensures r.Some? <==> Find(old(runs), RepairStep).None? && exists p :: PlanFits(config, g, old(runs), w, p)
      ensures r.Some? ==> PlanFits(config, g, old(runs), w, r.value.1) && r.value.0 == |old(runs)|
                          && runs == Reserve(old(runs), RepairStep, r.value.1.snapshot)
      ensures r.None? ==> runs == old(runs)
    {
      hide PlanFits;
      hide Find;
      hide KeepsInk;
      var existing := FindRun(RepairStep);
      if existing.Some? {
        return None;
      }
      var plan := BuildPlan(w);
      if plan.None? {
        return None;
      }
      ghost var before := runs;
      var run, created := ReserveStep(RepairStep, plan.value.snapshot);
      assert created && PlanFits(config, g, before, w, plan.value);
      return Some((run, plan.value));
    }

    /**
     * `_activate_repair`: the repaired preview and the successful run together, or neither. A refusal is
     * handled by the caller, an answer the run cannot be marked with raises.
     */
    method ActivateRepair(w: World, run: nat, plan: Plan, j: Json, terms: Terms) returns (outcome: Outcome)
      requires KeepsInk(config.rules)
      modifies this
      ensures outcome == (if Activate(config, old(g), old(runs), w, run, plan, j).Refusal? then Declined
                          else if Marks(terms) then Done else Raised)
      ensures outcome.Done? ==>
                var a := Activate(config, old(g), old(runs), w, run, plan, j);
                && g == old(g).(preview := a.preview) && run < |old(runs)|
                && runs == Finish(old(runs), run, Success, RepairDone(a.patches, plan.findingIds, plan.snapshot, a.output))
      ensures !outcome.Done? ==> g == old(g) && runs == old(runs)
    {
      hide PlanFits;
      hide KeepsInk;
      hide Build;
      hide SnapshotOf;
      hide ValidateRepair;
      hide Activated;
      if run >= |runs| || runs[run].step != RepairStep || runs[run].status != Running {
        return Declined;
      }
      var current := BuildPlan(w);
      if current.None? || current.value != plan || runs[run].input != plan.snapshot {
        if PlanFits(config, g, runs, w, plan) {
          PlanIsUnique(w, plan, current.value);
        }
        return Declined;
      }
      var effective := BuildEffective(config.rules, w.current.facts, g.preview);
      if effective.Refused? {
        return Declined;
      }
      var patches, _ := ValidateRepairPayload(config.rules, w.current.facts, plan.targets, effective.payload, j);
      if patches.None? {
        return Declined;
      }
      var candidate := Activated(g.preview, config.runText(run), config.digest(plan.snapshot), patches.value);
      var output := TakeSnapshot(w.current, candidate);
      if output.None? {
        return Declined;
      }
      var saved := g;
      g := g.(preview := candidate);
      hide Marks;
      var marked := Succeed(run, RepairDone(patches.value, plan.findingIds, plan.snapshot, output.value), terms);
      if !marked {
        g := saved;
        return Raised;
      }
      return Done;
    }

    // ---- whole calls, when nothing happens in between

    lemma EmptyNameFits()
      ensures NameFits(Some(""))
    {
    }

    /** `_run_solution_critic`: reserve, check what was expected, ask, and finish the run either way. */
    method RunCritic(step: StepType, expected: Option<Snapshot>, w: World) returns (run: Option<nat>)
      requires KeepsInk(config.rules)
      modifies this`runs
      ensures match ReadSnapshot(config, g)
              case None => run == None && runs == old(runs)
              case Some(snapshot) =>
                if Find(old(runs), step).Some? then run == Find(old(runs), step) && runs == old(runs)
                else run == Some(|old(runs)|) && runs == old(runs) + [Judged(w, snapshot, expected, step)]
      ensures ReadSnapshot(config, g).Some? ==>
                RunsTo(config, w, g, old(runs), HasRead(step, ReadSnapshot(config, g).value, expected), g, runs)
    {
      hide SnapshotOf;
      hide Find;
      hide KeepsInk;
      hide RunsTo;
      if ReadSnapshot(config, g).Some? {
        CriticRuns(config, w, g, runs, step, ReadSnapshot(config, g).value, expected);
      }
      if !g.success || g.preview == map[] || g.persisted.None? {
        return None;
      }
      var snapshot := TakeSnapshot(g.persisted.value.(version := g.version, hash := g.hash), g.preview);
      if snapshot.None? {
        return None;
      }
      var reserved, created := ReserveStep(step, snapshot.value);
      if !created {
        return Some(reserved);
      }
      run := Some(reserved);
      if (expected.Some? && snapshot != expected) || !w.mayCall || w.answer.NoAnswer? {
        EmptyNameFits();
        var _ := MarkFailed(reserved, Some(""));
      } else if w.answer.reply.CriticReply? {
        var _ := Succeed(reserved, Findings(w.answer.reply.findings), w.answer.terms);
      } else if w.answer.reply.Unusable? || w.answer.reply.RepairReply? {
        var _ := MarkFailed(reserved, w.answer.terms.model);
      }
    }

    /** `run_initial_solution_critic` */
    method RunInitialCritic(w: World) returns (run: Option<nat>)
      requires KeepsInk(config.rules)
      modifies this`runs
      ensures RunsTo(config, w, g, old(runs), Triggered(InitialCritic), g, runs)
    {
      hide ReadSnapshot;
      hide KeepsInk;
      hide Judged;
      hide Find;
      hide RunsTo;
      InitialRuns(config, w, g, runs);
      run := RunCritic(InitialCritic, None, w);
    }

    /** `run_final_solution_critic` */
    method RunFinalCritic(w: World) returns (run: Option<nat>)
      requires KeepsInk(config.rules)
      modifies this`runs
      ensures var output := BoundOutput(config, g, old(runs));
              && (output.None? || ReadSnapshot(config, g).None? ==> run == None && runs == old(runs))
              && (output.Some? && ReadSnapshot(config, g).Some? && Find(old(runs), FinalCritic).None? ==>
                    runs == old(runs) + [Judged(w, ReadSnapshot(config, g).value, output, FinalCritic)])
      ensures Find(old(runs), FinalCritic).Some? ==> runs == old(runs)
      ensures RunsTo(config, w, g, old(runs), Triggered(FinalCritic), g, runs)
    {
      hide ReadSnapshot;
      hide KeepsInk;
      hide RepairedBy;
      hide Judged;
      hide RunsTo;
      FinalRuns(config, w, g, runs);
      var repair := FindRun(RepairStep);
      hide Find;
      if repair.None? || runs[repair.value].status != Success || !RepairedBy(config, g.preview, repair.value)
         || !runs[repair.value].result.RepairDone? {
        return None;
      }
      run := RunCritic(FinalCritic, Some(runs[repair.value].result.output), w);
    }

    lemma PlanStays(w: World, rows: seq<QualityRun>, r: QualityRun, plan: Plan)
      requires PlanFits(config, g, rows, w, plan)
      ensures PlanFits(config, g, rows + [r], w, plan)
    {
      assert (rows + [r])[..|rows|] == rows;
      FindStays(rows + [r], InitialCritic, |rows|);
      hide Find;
      hide SnapshotOf;
      hide ScopeFits;
      hide EditsOf;
    }

    /** The answer to a repair: checked, activated, and the run marked, as far as nothing raises. */
    method TakeRepairAnswer(w: World, run: nat, plan: Plan, before: Payload)
      requires KeepsInk(config.rules) && w.mayCall && w.answer.Answered?
      requires run == |runs| - 1 && runs[run].status == Running && PlanFits(config, g, runs, w, plan)
      requires Build(config.rules, w.current.facts, g.preview) == Built(before)
      modifies this
      ensures |runs| == run + 1 && runs[..run] == old(runs)[..run]
      ensures (g, runs[run]) == Mended(config, w, old(g), old(runs), plan)
    {
      hide PlanFits;
      hide KeepsInk;
      hide Build;
      hide ValidateRepair;
      hide NameFits;
      hide Marks;
      hide Activate;
      var Answered(terms, reply) := w.answer;
      if reply.Unreadable? {
        return;
      }
      if !reply.RepairReply? {
        var _ := MarkFailed(run, terms.model);
        return;
      }
      var patches, _ := ValidateRepairPayload(config.rules, w.current.facts, plan.targets, before, reply.payload);
      if patches.None? {
        var _ := MarkFailed(run, terms.model);
        return;
      }
      var outcome := ActivateRepair(w, run, plan, RepairJson(patches.value), terms);
      if outcome.Declined? {
        var _ := MarkFailed(run, terms.model);
      }
    }

    /** Without an answer the repair has failed. */
    lemma MendedFails(w: World, rows: seq<QualityRun>, plan: Plan)
      requires rows != [] && (!w.mayCall || w.answer.NoAnswer?)
      ensures Mended(config, w, g, rows, plan) == (g, rows[|rows| - 1].(status := Failed, result := NoResult))
    {
      hide Build;
      hide ValidateRepair;
      hide Activate;
      hide NameFits;
      hide Marks;
    }

    /** What `Mended` makes of the rows, told from the answer. */
    lemma MendedTells(w: World, rows: seq<QualityRun>, plan: Plan)
      requires rows != [] && rows[|rows| - 1].status == Running && rows[|rows| - 1].input == plan.snapshot
      ensures var run, m := |rows| - 1, Mended(config, w, g, rows, plan);
              && m.1.step == rows[run].step && m.1.input == plan.snapshot
              && (m.1.status != Success ==> m.0 == g)
              && (m.1.status == Success ==>
                    && m.1.result.RepairDone?
                    && m.0 == g.(preview := Activated(g.preview, config.runText(run), config.digest(plan.snapshot), m.1.result.patches)))
              && (m.1.status == Running ==> w.mayCall && w.answer.Answered? && (w.answer.reply.Unreadable? || !Marks(w.answer.terms)))
              && (w.mayCall && w.answer.Answered? && (w.answer.reply.Unreadable? || !NameFits(w.answer.terms.model)) ==>
                    Build(config.rules, w.current.facts, g.preview).Refused? || m.1.status == Running)
              && (m.1.status == Success ==> w.mayCall && w.answer.Answered? && w.answer.reply.RepairReply? && Marks(w.answer.terms))
    {
      hide Build;
      hide ValidateRepair;
      hide PatchesNow;
      hide StillPlanned;
      hide SnapshotOf;
      hide Activated;
      hide NameFits;
      if w.answer.Answered? {
        MarksNeedName(w.answer.terms);
      }
      hide Marks;
    }

    /**
     * `run_targeted_solution_repair`: at most one run, which ends failed with the preview as it was,
     * or successful with the preview repaired by exactly the recorded patches. It is left running,
     * with the preview as it was, only if the answer cannot be read or the run cannot be marked with it,
     * and always if it cannot be read or the model's name does not fit.
     */
    method RunTargetedRepair(w: World) returns (run: Option<nat>)
      requires KeepsInk(config.rules)
      modifies this
      ensures run.None? ==> g == old(g) && runs == old(runs)
      ensures run.Some? ==>
                && Find(old(runs), RepairStep).None? && run.value == |old(runs)| && |runs| == |old(runs)| + 1
                && runs[..run.value] == old(runs) && runs[run.value].step == RepairStep
                && (runs[run.value].status != Success ==> g == old(g))
                && (runs[run.value].status == Success ==>
                      && runs[run.value].result.RepairDone?
                      && g == old(g).(preview := Activated(old(g).preview, config.runText(run.value),
                                        config.digest(runs[run.value].input), runs[run.value].result.patches)))
                && (runs[run.value].status == Running ==>
                      w.mayCall && w.answer.Answered? && (w.answer.reply.Unreadable? || !Marks(w.answer.terms)))
                && (w.mayCall && w.answer.Answered? && (w.answer.reply.Unreadable? || !NameFits(w.answer.terms.model)) ==>
                      runs[run.value].status == Running)
                && (runs[run.value].status == Success ==>
                      w.mayCall && w.answer.Answered? && w.answer.reply.RepairReply? && Marks(w.answer.terms))
      ensures RunsTo(config, w, old(g), old(runs), RepairAsked, g, runs)
    {
      hide RunsTo;
      hide PlanFits;
      hide Find;
      hide KeepsInk;
      hide Build;
      hide Activated;
      hide SnapshotOf;
      hide Marks;
      hide NameFits;
      hide Mended;
      ghost var before := runs;
      var reservation := ReserveRepair(w);
      if reservation.None? {
        RepairRefused(config, w, g, runs);
        return None;
      }
      var id, plan := reservation.value.0, reservation.value.1;
      var reserved := QualityRun(RepairStep, Running, plan.snapshot, NoResult);
      ghost var rows := before + [reserved];
      assert runs == rows;
      run := Some(id);
      PlanStays(w, before, reserved, plan);
      RepairRuns(config, w, g, before, plan);
      MendedTells(w, rows, plan);
      ghost var mended := Mended(config, w, g, rows, plan);
      var current := BuildPlan(w);
      PlanIsUnique(w, plan, current.value);
      PlanNeedsPayload(w, plan);
      var effective := BuildEffective(config.rules, w.current.facts, g.preview);
      if current != Some(plan) || effective.Refused? || !w.mayCall || w.answer.NoAnswer? {
        EmptyNameFits();
        MendedFails(w, rows, plan);
        var _ := MarkFailed(id, Some(""));
        assert runs == before + [reserved.(status := Failed)];
      } else {
        TakeRepairAnswer(w, id, plan, effective.payload);
        assert rows[..id] == before;
        assert runs == before + [mended.1];
      }
    }

    lemma MarksNeedName(terms: Terms)
      ensures Marks(terms) ==> NameFits(terms.model)
    {
    }

    lemma PlanNeedsPayload(w: World, plan: Plan)
      requires PlanFits(config, g, runs, w, plan)
      ensures Build(config.rules, w.current.facts, g.preview).Built?
    {
      hide Build;
      hide ScopeFits;
      hide EditsOf;
      hide Find;
    }
  }
}
