/** Where the runs of the pipeline come from: what was read, planned and allowed at the moment each was made. */
module QualityOrigins {
  import opened Options
  import opened Answers
  import opened Payloads
  import opened Effective
  import opened EditRoundTrip
  import opened Repair
  import opened QualityModel
  import opened QualityPipeline
  import opened QualityResults

  // ---- what a step may rest on

  /** The snapshot is of the preview as it stands, in its stored source context. */
  ghost predicate ReadsPreview(cfg: Config, g: Generation, s: Snapshot) {
    && g.success && g.preview != map[] && g.persisted.Some?
    && s.process == g.persisted.value.process && s.version == g.version && s.hash == g.hash
    && Build(cfg.rules, g.persisted.value.facts, g.preview) == Built(s.payload)
  }

  /** The sources are those the generation started from, and the snapshot is of the preview as it stands in them. */
  ghost predicate ReadsSources(cfg: Config, g: Generation, w: World, s: Snapshot) {
    && g.success && g.preview != map[]
    && w.contractsCurrent && w.current.version == g.version && w.current.hash == g.hash
    && s.process == w.current.process && s.version == g.version && s.hash == g.hash
    && Build(cfg.rules, w.current.facts, g.preview) == Built(s.payload)
  }

  /** Some repairable finding is about the target, or relates it. */
  predicate AskedFor(findings: seq<Finding>, t: Target) {
    exists i | 0 <= i < |findings| ::
      findings[i].repairable && (findings[i].target == Some(t) || t in findings[i].related)
  }

  /** The plan is what a successful critic of the very same snapshot asks for, and touches no human edit. */
  ghost predicate Planned(cfg: Config, g: Generation, runs: seq<QualityRun>, w: World, plan: Plan) {
    && ReadsSources(cfg, g, w, plan.snapshot) && w.criticReproducible
    && plan.targets != [] && plan.findingIds != [] && Ordered(plan.targets)
    && (forall t | t in plan.targets :: t !in EditsOf(g.preview))
    && exists c | 0 <= c < |runs| ::
         && runs[c].step == InitialCritic && runs[c].status == Success && runs[c].input == plan.snapshot
         && runs[c].result.Findings?
         && (forall t: Target :: t in plan.targets <==> AskedFor(runs[c].result.findings, t))
         && plan.findingIds == RepairableIds(runs[c].result.findings)
         && (forall id :: id in plan.findingIds <==>
               exists i | 0 <= i < |runs[c].result.findings| ::
                 runs[c].result.findings[i].repairable && runs[c].result.findings[i].id == id)
  }

  lemma SnapshotMeans(rules: Rules, c: Context, preview: Preview, s: Snapshot)
    ensures SnapshotOf(rules, c, preview) == Some(s) <==>
              s.process == c.process && s.version == c.version && s.hash == c.hash && Build(rules, c.facts, preview) == Built(s.payload)
  {
    hide Build;
  }

  lemma ReadMeans(cfg: Config, g: Generation, s: Snapshot)
    ensures ReadSnapshot(cfg, g) == Some(s) <==> ReadsPreview(cfg, g, s)
  {
    hide Build;
    hide SnapshotOf;
    if g.persisted.Some? {
      SnapshotMeans(cfg.rules, g.persisted.value.(version := g.version, hash := g.hash), g.preview, s);
    }
  }

  lemma ScopeMeans(findings: seq<Finding>, t: Target)
    ensures InScope(findings, t) <==> AskedFor(findings, t)
  {
    if InScope(findings, t) {
      var i :| 0 <= i < |findings| && Concerns(findings[i], t);
    }
    if AskedFor(findings, t) {
      var i :| 0 <= i < |findings| && findings[i].repairable && (findings[i].target == Some(t) || t in findings[i].related);
      assert Concerns(findings[i], t);
    }
  }

  lemma {:induction false} IdsMean(findings: seq<Finding>)
    ensures forall id :: id in RepairableIds(findings) <==>
              exists i | 0 <= i < |findings| :: findings[i].repairable && findings[i].id == id
  {
    if findings != [] {
      var n := |findings| - 1;
      IdsMean(findings[..n]);
      forall id
        ensures id in RepairableIds(findings) <==> exists i | 0 <= i < |findings| :: findings[i].repairable && findings[i].id == id
      {
        if id in RepairableIds(findings[..n]) {
          var i :| 0 <= i < n && findings[..n][i].repairable && findings[..n][i].id == id;
          assert findings[i].repairable && findings[i].id == id;
        }
        if exists i | 0 <= i < |findings| :: findings[i].repairable && findings[i].id == id {
          var i :| 0 <= i < |findings| && findings[i].repairable && findings[i].id == id;
          if i < n {
            assert findings[..n][i] == findings[i];
          }
        }
      }
    }
  }

  lemma PlanMeans(cfg: Config, g: Generation, runs: seq<QualityRun>, w: World, plan: Plan)
    requires PlanFits(cfg, g, runs, w, plan)
    ensures Planned(cfg, g, runs, w, plan)
  {
    hide SnapshotOf;
    hide Build;
    hide EditsOf;
    hide InScope;
    hide AskedFor;
    hide RepairableIds;
    SnapshotMeans(cfg.rules, w.current, g.preview, plan.snapshot);
    var c := Find(runs, InitialCritic).value;
    hide Find;
    IdsMean(runs[c].result.findings);
    hide Ordered;
    forall t: Target ensures t in plan.targets <==> AskedFor(runs[c].result.findings, t) {
      assert t in Targets();
      ScopeMeans(runs[c].result.findings, t);
    }
  }

  /** And whatever is planned so can be reserved: a plan fits exactly then. */
  lemma PlanFitsIff(cfg: Config, g: Generation, runs: seq<QualityRun>, w: World, plan: Plan)
    requires StepsUnique(runs)
    ensures PlanFits(cfg, g, runs, w, plan) <==> Planned(cfg, g, runs, w, plan)
  {
    hide SnapshotOf;
    hide Build;
    hide EditsOf;
    hide RepairableIds;
    hide Ordered;
    if PlanFits(cfg, g, runs, w, plan) {
      PlanMeans(cfg, g, runs, w, plan);
    }
    if Planned(cfg, g, runs, w, plan) {
      SnapshotMeans(cfg.rules, w.current, g.preview, plan.snapshot);
      var c :| 0 <= c < |runs|
        && runs[c].step == InitialCritic && runs[c].status == Success && runs[c].input == plan.snapshot && runs[c].result.Findings?
        && (forall t: Target :: t in plan.targets <==> AskedFor(runs[c].result.findings, t))
        && plan.findingIds == RepairableIds(runs[c].result.findings);
      FindIs(runs, InitialCritic, c);
      hide Find;
      hide InScope;
      hide AskedFor;
      forall t ensures InScope(runs[c].result.findings, t) <==> AskedFor(runs[c].result.findings, t) {
        ScopeMeans(runs[c].result.findings, t);
      }
    }
  }

  // ---- the moment a run is made

  predicate CreatedAt(x: System, x': System, r: nat) {
    |x.runs| <= r < |x'.runs|
  }

  /** The run was made by a call that had read its snapshot. */
  predicate MadeByCritic(x: System, e: Event, run: QualityRun) {
    && e.Advance? && e.thread in x.threads && x.threads[e.thread].HasRead?
    && x.threads[e.thread].step == run.step && x.threads[e.thread].snapshot == run.input
  }

  /** The run was made for a plan of that moment. */
  ghost predicate MadeByPlan(cfg: Config, x: System, e: Event, run: QualityRun) {
    && e.Advance? && e.thread in x.threads && x.threads[e.thread].RepairAsked? && run.step == RepairStep
    && exists plan: Plan :: plan.snapshot == run.input && Planned(cfg, x.g, x.runs, e.w, plan)
  }

  lemma CriticMakes(cfg: Config, w: World, x: System, c: nat, x': System, r: nat)
    requires Advances(cfg, w, x, c, x') && CreatedAt(x, x', r)
    requires var t := x.threads[c]; t.Triggered? || t.Expecting? || t.HasRead? || t.Reserved? || t.Calling? || t.Failing?
    ensures MadeByCritic(x, Advance(c, w), x'.runs[r])
  {
    hide Find;
    hide ReadSnapshot;
    hide RepairedBy;
    hide Marks;
    hide NameFits;
  }

  lemma RepairMakes(cfg: Config, w: World, x: System, c: nat, x': System, r: nat)
    requires Advances(cfg, w, x, c, x') && CreatedAt(x, x', r)
    requires var t := x.threads[c]; t.RepairAsked? || t.RepairReserved? || t.RepairCalling?
    ensures MadeByPlan(cfg, x, Advance(c, w), x'.runs[r])
  {
    hide Find;
    hide PlanFits;
    hide Planned;
    hide Build;
    hide RepairUsable;
    hide NameFits;
    if x.threads[c].RepairAsked? {
      var plan :| PlanFits(cfg, x.g, x.runs, w, plan)
        && x' == Moved(x.(runs := Reserve(x.runs, RepairStep, plan.snapshot)), c, RepairReserved(|x.runs|, plan));
      PlanMeans(cfg, x.g, x.runs, w, plan);
    }
  }

  lemma ActivationMakesNone(cfg: Config, w: World, x: System, c: nat, x': System, r: nat)
    requires c in x.threads && x.threads[c].RepairAnswered? && RepairActivates(cfg, w, x, c, x.threads[c], x')
    ensures !CreatedAt(x, x', r)
  {
    hide Activate;
    hide Marks;
    hide NameFits;
  }

  lemma MakingStep(cfg: Config, x: System, e: Event, x': System, r: nat)
    requires Step(cfg, x, e, x') && CreatedAt(x, x', r)
    ensures MadeByCritic(x, e, x'.runs[r]) || MadeByPlan(cfg, x, e, x'.runs[r])
  {
    hide Changed;
    hide WithStoredEdits;
    hide Submittable;
    hide CriticReads;
    hide FinalChecks;
    hide CriticReserves;
    hide CriticCalls;
    hide CriticAnswers;
    hide RepairReserves;
    hide RepairCalls;
    hide RepairAnswers;
    hide RepairActivates;
    hide StepFails;
    hide MadeByCritic;
    hide MadeByPlan;
    if e.Advance? {
      assert e == Advance(e.thread, e.w);
      var t := x.threads[e.thread];
      if t.RepairAsked? || t.RepairReserved? || t.RepairCalling? {
        RepairMakes(cfg, e.w, x, e.thread, x', r);
      } else if t.RepairAnswered? {
        ActivationMakesNone(cfg, e.w, x, e.thread, x', r);
      } else if !t.Ended? && !t.Aborted? {
        CriticMakes(cfg, e.w, x, e.thread, x', r);
      }
    }
  }

  /** Every run was made at some moment, and has kept its step and what it judges since. */
  lemma {:induction false} RunHasMoment(cfg: Config, trace: seq<System>, events: seq<Event>, k: nat, r: nat) returns (j: nat)
    requires Run(cfg, trace, events) && k <= |events| && r < |trace[k].runs|
    ensures j < k && CreatedAt(trace[j], trace[j + 1], r)
    ensures trace[j + 1].runs[r].step == trace[k].runs[r].step && trace[j + 1].runs[r].input == trace[k].runs[r].input
  {
    hide Sound;
    hide Step;
    hide StepsUnique;
    j := 0;
    if k > 0 {
      TraceIsSound(cfg, trace, events, k - 1);
      FinishedIsFinal(cfg, trace[k - 1], events[k - 1], trace[k]);
      j := k - 1;
      if !CreatedAt(trace[k - 1], trace[k], r) {
        j := RunHasMoment(cfg, trace, events, k - 1, r);
      }
    }
  }

  // ---- the moment a critic reads

  /** The call reads the preview as it stands. */
  ghost predicate ReadBy(cfg: Config, x: System, e: Event, c: nat, snapshot: Snapshot) {
    && e.Advance? && e.thread == c && c in x.threads && (x.threads[c].Triggered? || x.threads[c].Expecting?)
    && ReadsPreview(cfg, x.g, snapshot)
  }

  lemma ReadingMoves(cfg: Config, w: World, x: System, c: nat, x': System)
    requires Advances(cfg, w, x, c, x') && (x.threads[c].Triggered? || x.threads[c].Expecting?)
    requires c in x'.threads && x'.threads[c].HasRead?
    ensures ReadSnapshot(cfg, x.g) == Some(x'.threads[c].snapshot)
  {
    hide Find;
    hide ReadSnapshot;
    hide RepairedBy;
  }

  lemma OtherMovesReadNothing(cfg: Config, w: World, x: System, c: nat, x': System)
    requires Advances(cfg, w, x, c, x') && !x.threads[c].Triggered? && !x.threads[c].Expecting?
    requires !x.threads[c].RepairAnswered?
    ensures c in x'.threads ==> !x'.threads[c].HasRead? || x' == x
  {
    hide Find;
    hide PlanFits;
    hide Build;
    hide RepairUsable;
    hide Finish;
    hide Reserve;
    hide Marks;
    hide NameFits;
  }

  lemma ReadByStep(cfg: Config, x: System, e: Event, x': System, c: nat)
    requires Step(cfg, x, e, x') && c in x'.threads && x'.threads[c].HasRead?
    ensures (c in x.threads && x.threads[c] == x'.threads[c]) || ReadBy(cfg, x, e, c, x'.threads[c].snapshot)
  {
    hide Changed;
    hide WithStoredEdits;
    hide Submittable;
    hide AnswerAllows;
    hide ReadsPreview;
    if e.Advance? {
      OnlyCallerMoves(cfg, e.w, x, e.thread, x');
      hide CriticReads;
      hide FinalChecks;
      hide CriticReserves;
      hide CriticCalls;
      hide CriticAnswers;
      hide RepairReserves;
      hide RepairCalls;
      hide RepairAnswers;
      hide RepairActivates;
      hide StepFails;
      if e.thread == c {
        if x.threads[c].Triggered? || x.threads[c].Expecting? {
          ReadingMoves(cfg, e.w, x, c, x');
          ReadMeans(cfg, x.g, x'.threads[c].snapshot);
        } else if x.threads[c].RepairAnswered? {
          ActivationReadsNothing(cfg, e.w, x, c, x');
        } else {
          OtherMovesReadNothing(cfg, e.w, x, c, x');
        }
      }
    }
  }

  lemma ActivationReadsNothing(cfg: Config, w: World, x: System, c: nat, x': System)
    requires c in x.threads && x.threads[c].RepairAnswered? && RepairActivates(cfg, w, x, c, x.threads[c], x')
    ensures c in x'.threads ==> !x'.threads[c].HasRead?
  {
    hide Activate;
    hide Finish;
    hide Marks;
    hide NameFits;
  }

  lemma {:induction false} ReadHasMoment(cfg: Config, trace: seq<System>, events: seq<Event>, k: nat, c: nat) returns (j: nat)
    requires Run(cfg, trace, events) && k <= |events| && c in trace[k].threads && trace[k].threads[c].HasRead?
    ensures j < k && ReadBy(cfg, trace[j], events[j], c, trace[k].threads[c].snapshot)
  {
    hide Step;
    hide ReadBy;
    j := 0;
    if k > 0 {
      ReadByStep(cfg, trace[k - 1], events[k - 1], trace[k], c);
      j := k - 1;
      if !ReadBy(cfg, trace[k - 1], events[k - 1], c, trace[k].threads[c].snapshot) {
        j := ReadHasMoment(cfg, trace, events, k - 1, c);
      }
    }
  }

  /** What a critic run judges is the effective payload the preview had, with its version and hash, when the call read it. */
  lemma CriticJudgesPreview(cfg: Config, trace: seq<System>, events: seq<Event>, k: nat, r: nat)
    requires Run(cfg, trace, events) && k <= |events| && r < |trace[k].runs| && trace[k].runs[r].step != RepairStep
    ensures exists j | 0 <= j < k :: ReadsPreview(cfg, trace[j].g, trace[k].runs[r].input)
  {
    var n := RunHasMoment(cfg, trace, events, k, r);
    assert Step(cfg, trace[n], events[n], trace[n + 1]);
    MakingStep(cfg, trace[n], events[n], trace[n + 1], r);
    var c := events[n].thread;
    var j := ReadHasMoment(cfg, trace, events, n, c);
    hide Run;
    hide Step;
    hide ReadsPreview;
    hide Planned;
  }

  /** Every repair was planned from a critic of the very snapshot it is to repair, and that snapshot was current then. */
  lemma RepairWasPlanned(cfg: Config, trace: seq<System>, events: seq<Event>, k: nat, r: nat)
    requires Run(cfg, trace, events) && k <= |events| && r < |trace[k].runs| && trace[k].runs[r].step == RepairStep
    ensures exists j | 0 <= j < k :: MadeByPlan(cfg, trace[j], events[j], trace[k].runs[r])
  {
    var n := RunHasMoment(cfg, trace, events, k, r);
    assert Step(cfg, trace[n], events[n], trace[n + 1]);
    MakingStep(cfg, trace[n], events[n], trace[n + 1], r);
    TraceIsSound(cfg, trace, events, n);
    var made, now := trace[n + 1].runs[r], trace[k].runs[r];
    if MadeByCritic(trace[n], events[n], made) {
      ThreadAt(cfg, trace[n], events[n].thread);
    }
    hide Run;
    hide Step;
    hide Sound;
    hide Planned;
    hide RepairGave;
    PlanReads(cfg, trace[n], events[n], made, now);
    hide MadeByPlan;
  }

  lemma PlanReads(cfg: Config, x: System, e: Event, run: QualityRun, run': QualityRun)
    requires run.step == run'.step && run.input == run'.input
    ensures MadeByPlan(cfg, x, e, run) == MadeByPlan(cfg, x, e, run')
  {
    hide Planned;
  }

  // ---- the moment the provider is asked

  /** The call may ask the provider: the quota allows it, and what it is to judge or repair is still the expected one. */
  ghost predicate AllowedBy(cfg: Config, x: System, e: Event, r: nat) {
    && e.Advance? && e.thread in x.threads && e.w.mayCall && r < |x.runs|
    && match x.threads[e.thread]
       case Reserved(run, expected) => run == r && (expected == None || expected == Some(x.runs[r].input))
       case RepairReserved(run, plan) => run == r && Planned(cfg, x.g, x.runs, e.w, plan)
       case _ => false
  }

  lemma CriticAsks(cfg: Config, w: World, x: System, c: nat, x': System, r: nat)
    requires c in x.threads && x.threads[c].Reserved? && CriticCalls(w, x, c, x.threads[c].run, x.threads[c].expected, x')
    requires r in x'.called && r !in x.called
    ensures AllowedBy(cfg, x, Advance(c, w), r)
  {
  }

  lemma RepairAsks(cfg: Config, w: World, x: System, c: nat, x': System, r: nat)
    requires c in x.threads && x.threads[c].RepairReserved? && RepairCalls(cfg, w, x, c, x.threads[c].run, x.threads[c].plan, x')
    requires r in x'.called && r !in x.called && x.threads[c].run < |x.runs|
    ensures AllowedBy(cfg, x, Advance(c, w), r)
  {
    hide PlanFits;
    hide Planned;
    hide Build;
    if PlanFits(cfg, x.g, x.runs, w, x.threads[c].plan) {
      PlanMeans(cfg, x.g, x.runs, w, x.threads[c].plan);
    }
  }

  lemma AskingStep(cfg: Config, x: System, e: Event, x': System, r: nat)
    requires Sound(cfg, x) && Step(cfg, x, e, x') && r in x'.called && r !in x.called
    ensures AllowedBy(cfg, x, e, r)
  {
    hide Sound;
    hide Changed;
    hide WithStoredEdits;
    hide Submittable;
    hide AllowedBy;
    assert e.Advance?;
    assert e == Advance(e.thread, e.w);
    if !BeforeCall(x.threads[e.thread]) {
      hide Step;
      OtherwiseNoCall(cfg, e.w, x, e.thread, x');
    } else {
      ThreadAt(cfg, x, e.thread);
      hide CriticCalls;
      hide RepairCalls;
      hide RepairGave;
      if x.threads[e.thread].Reserved? {
        CriticAsks(cfg, e.w, x, e.thread, x', r);
      } else {
        RepairAsks(cfg, e.w, x, e.thread, x', r);
      }
    }
  }

  /** The provider was asked for a run only when the quota allowed it and the run was still what it was reserved for. */
  lemma {:induction false} CallsWereAllowed(cfg: Config, trace: seq<System>, events: seq<Event>, k: nat, r: nat)
    requires Run(cfg, trace, events) && k <= |events| && r in trace[k].called
    ensures exists j | 0 <= j < k :: AllowedBy(cfg, trace[j], events[j], r)
  {
    hide Step;
    hide Sound;
    hide AllowedBy;
    if k > 0 {
      if r in trace[k - 1].called {
        CallsWereAllowed(cfg, trace, events, k - 1, r);
      } else {
        TraceIsSound(cfg, trace, events, k - 1);
        AskingStep(cfg, trace[k - 1], events[k - 1], trace[k], r);
      }
    }
  }

  // ---- what triggers a critic

  /** The event stores a repaired preview. */
  predicate Activates(x: System, e: Event, x': System) {
    e.Advance? && e.thread in x.threads && x.threads[e.thread].RepairAnswered? && x'.runs != x.runs
  }

  /** How many triggers of a kind the event makes due. */
  function Owed(x: System, e: Event, x': System, step: StepType): nat {
    match step
    case InitialCritic =>
      if (e.SaveEdits? || e.Adopt? || Activates(x, e, x')) && x'.g.success && x'.g.preview != map[] && x'.g.persisted.Some? then 1 else 0
    case RepairStep => 0
    case FinalCritic => if Activates(x, e, x') then 1 else 0
  }

  function CountOwed(trace: seq<System>, events: seq<Event>, step: StepType): nat
    requires |trace| == |events| + 1
  {
    if events == [] then 0
    else
      var n := |events| - 1;
      CountOwed(trace[..n + 1], events[..n], step) + Owed(trace[n], events[n], trace[n + 1], step)
  }

  function CountFired(events: seq<Event>, step: StepType): nat {
    if events == [] then 0
    else
      var n := |events| - 1;
      CountFired(events[..n], step) + if events[n].Fire? && events[n].step == step then 1 else 0
  }

  lemma CallsOweNothing(cfg: Config, w: World, x: System, c: nat, x': System)
    requires Advances(cfg, w, x, c, x') && !x.threads[c].RepairAnswered?
    ensures x'.due == x.due
  {
    hide Find;
    hide PlanFits;
    hide Build;
    hide ReadSnapshot;
    hide RepairedBy;
    hide RepairUsable;
    hide Finish;
    hide Reserve;
    hide Marks;
    hide NameFits;
  }

  lemma ActivationOwes(cfg: Config, w: World, x: System, c: nat, x': System, step: StepType)
    requires c in x.threads && x.threads[c].RepairAnswered? && RepairActivates(cfg, w, x, c, x.threads[c], x')
    requires x.threads[c].run < |x.runs| && x.runs[x.threads[c].run].status == Running
    ensures x'.due[step] == x.due[step] + Owed(x, Advance(c, w), x', step)
  {
    hide Activate;
    hide Marks;
    hide NameFits;
  }

  lemma SavingOwes(cfg: Config, x: System, e: Event, x': System, step: StepType)
    requires Step(cfg, x, e, x') && !e.Advance?
    ensures x'.due[step] + (if e.Fire? && e.step == step then 1 else 0) == x.due[step] + Owed(x, e, x', step)
  {
    hide Changed;
    hide WithStoredEdits;
    hide Submittable;
  }

  lemma AnsweredRuns(cfg: Config, x: System, c: nat)
    requires Sound(cfg, x) && c in x.threads && x.threads[c].RepairAnswered?
    ensures x.threads[c].run < |x.runs| && x.runs[x.threads[c].run].status == Running
  {
    assert Owned(x.threads[c]) == Some(x.threads[c].run);
    hide ThreadFits;
    hide RunFits;
    hide RepairRecorded;
    hide StepsUnique;
  }

  lemma DueStep(cfg: Config, x: System, e: Event, x': System, step: StepType)
    requires Sound(cfg, x) && Step(cfg, x, e, x')
    ensures x'.due[step] + (if e.Fire? && e.step == step then 1 else 0) == x.due[step] + Owed(x, e, x', step)
  {
    hide Sound;
    if e.Advance? {
      assert e == Advance(e.thread, e.w);
      if x.threads[e.thread].RepairAnswered? {
        AnsweredRuns(cfg, x, e.thread);
        hide RepairActivates;
        ActivationOwes(cfg, e.w, x, e.thread, x', step);
      } else {
        CallsOweNothing(cfg, e.w, x, e.thread, x');
        hide Advances;
      }
    } else {
      SavingOwes(cfg, x, e, x', step);
      hide Step;
    }
  }

  /**
   * Triggers are neither lost nor made up. The triggers of a kind that have fired and those still due are together
   * one for each saving of a readable preview, and one at the start, for the initial critic; and one for each
   * activated repair for the final critic.
   */
  lemma {:induction false} TriggersAreKept(cfg: Config, trace: seq<System>, events: seq<Event>, step: StepType)
    requires Run(cfg, trace, events)
    ensures trace[|events|].due[step] + CountFired(events, step)
            == CountOwed(trace, events, step) + if step == InitialCritic then 1 else 0
    decreases |events|
  {
    hide Sound;
    hide Step;
    hide Owed;
    if events != [] {
      var n := |events| - 1;
      TriggersAreKept(cfg, trace[..n + 1], events[..n], step);
      TraceIsSound(cfg, trace, events, n);
      DueStep(cfg, trace[n], events[n], trace[n + 1], step);
    }
  }
}
