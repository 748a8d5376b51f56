/** The quality steps of a generation run: critic, one repair, final critic, bound by snapshots. */
module QualityModel {
  import opened Options
  import opened Answers
  import opened Payloads
  import opened Effective
  import opened EditRoundTrip
  import opened Repair

  datatype StepType = InitialCritic | RepairStep | FinalCritic

  datatype Status = Running | Success | Failed

  /** The source facts of a process, and the version and hash they are known by. */
  datatype Context = Context(process: string, version: nat, hash: string, facts: Sources)

  /** What a step judges. A SHA-256 digest of the snapshot is represented by the snapshot itself. */
  datatype Snapshot = Snapshot(process: string, version: nat, hash: string, payload: Payload)

  datatype Plan = Plan(snapshot: Snapshot, findingIds: seq<string>, targets: seq<Target>)

  datatype Result =
    | NoResult
    | Findings(findings: seq<Finding>)
    | RepairDone(patches: seq<Patch>, findingIds: seq<string>, input: Snapshot, output: Snapshot)

  datatype QualityRun = QualityRun(step: StepType, status: Status, input: Snapshot, result: Result)

  /** A generation run; `persisted` is the source context stored with its preview, if it is readable. */
  datatype Generation = Generation(success: bool, version: nat, hash: string, persisted: Option<Context>, preview: Preview)

  /** How ids and hashes are written into the preview. */
  datatype Config = Config(rules: Rules, runText: nat -> string, digest: Snapshot -> string)

  /**
   * What the text of an answer amounts to: unusable for a reason the call handles, unreadable if decoding
   * or checking it raises anything else, or a reply in the right form.
   */
  datatype Reply = Unusable | Unreadable | CriticReply(findings: seq<Finding>) | RepairReply(payload: Json)

  datatype Answer = NoAnswer | Answered(terms: Terms, reply: Reply)

  /** What one action reads besides the rows: the current sources, the contract versions, the quota, the provider. */
  datatype World = World(
    current: Context, contractsCurrent: bool, criticReproducible: bool, editable: bool, mayCall: bool, answer: Answer)

  function SnapshotOf(rules: Rules, c: Context, preview: Preview): Option<Snapshot> {
    match Build(rules, c.facts, preview)
    case Refused(_) => None
    case Built(p) => Some(Snapshot(c.process, c.version, c.hash, p))
  }

  /** The first run of a step type. */
  function Find(runs: seq<QualityRun>, step: StepType): (r: Option<nat>)
    ensures r.Some? ==> r.value < |runs| && runs[r.value].step == step
    ensures r.None? ==> forall i | 0 <= i < |runs| :: runs[i].step != step
  {
    if runs == [] then None
    else
      var front := Find(runs[..|runs| - 1], step);
      if front.Some? then front
      else if runs[|runs| - 1].step == step then Some(|runs| - 1) else None
  }

  /** `reserve_solution_quality_step` on the runs of one generation. */
  function Reserve(runs: seq<QualityRun>, step: StepType, input: Snapshot): seq<QualityRun> {
    if Find(runs, step).Some? then runs else runs + [QualityRun(step, Running, input, NoResult)]
  }

  /** `mark_solution_quality_step_success` and `_failed`: a run is finished only while it is running. */
  function Finish(runs: seq<QualityRun>, run: nat, status: Status, result: Result): seq<QualityRun>
    requires run < |runs|
  {
    if runs[run].status == Running then runs[run := runs[run].(status := status, result := result)] else runs
  }

  /** `build_solution_repair_plan`: the plan the rows and the current sources allow. */
  ghost predicate PlanFits(cfg: Config, g: Generation, runs: seq<QualityRun>, w: World, plan: Plan) {
    && g.success && g.preview != map[]
    && Find(runs, InitialCritic).Some?
    && var critic := runs[Find(runs, InitialCritic).value];
       && critic.status == Success && critic.result.Findings?
       && w.contractsCurrent && w.current.version == g.version && w.current.hash == g.hash
       && SnapshotOf(cfg.rules, w.current, g.preview) == Some(plan.snapshot) && plan.snapshot == critic.input
       && w.criticReproducible
       && ScopeFits(critic.result.findings, Scope(plan.findingIds, plan.targets))
       && forall t | t in plan.targets :: t !in EditsOf(g.preview)
  }

  /** The run is the repair in progress, and the plan it was reserved for is still the current one. */
  ghost predicate StillPlanned(cfg: Config, g: Generation, runs: seq<QualityRun>, w: World, run: nat, plan: Plan) {
    && run < |runs| && runs[run].step == RepairStep && runs[run].status == Running && runs[run].input == plan.snapshot
    && PlanFits(cfg, g, runs, w, plan)
  }

  /** The patches a repair output amounts to for the stored preview. */
  function PatchesNow(cfg: Config, g: Generation, w: World, plan: Plan, j: Json): Option<seq<Patch>> {
    match Build(cfg.rules, w.current.facts, g.preview)
    case Refused(_) => None
    case Built(before) => ValidateRepair(cfg.rules, w.current.facts, plan.targets, before, j)
  }

  datatype Activation = Refusal | Activation(preview: Preview, patches: seq<Patch>, output: Snapshot)

  /** `_activate_repair`: the repaired preview, unless a check fails and everything stays. */
  ghost function Activate(cfg: Config, g: Generation, runs: seq<QualityRun>, w: World, run: nat, plan: Plan, j: Json): Activation {
    if !StillPlanned(cfg, g, runs, w, run, plan) then Refusal
    else match PatchesNow(cfg, g, w, plan, j)
      case None => Refusal
      case Some(patches) =>
        var after := Activated(g.preview, cfg.runText(run), cfg.digest(plan.snapshot), patches);
        match SnapshotOf(cfg.rules, w.current, after)
        case None => Refusal
        case Some(output) => Activation(after, patches, output)
  }

  /** The preview names the run as the one that repaired it. */
  predicate RepairedBy(cfg: Config, preview: Preview, run: nat) {
    Get(Members(Get(preview, MachineRepair)), QualityRunId) == Str(cfg.runText(run))
  }

  // ---- the rows and the calls in flight

  /** A call of a service and how far it has come. */
  datatype Thread =
    | Triggered(step: StepType)
    | Expecting(output: Snapshot)
    | HasRead(step: StepType, snapshot: Snapshot, expected: Option<Snapshot>)
    | Reserved(run: nat, expected: Option<Snapshot>)
    | Calling(run: nat)
    | RepairAsked
    | RepairReserved(run: nat, plan: Plan)
    | RepairCalling(run: nat, plan: Plan, before: Payload, facts: Sources)
    | RepairAnswered(run: nat, plan: Plan, payload: Json, terms: Terms)
    | Failing(run: nat)
    | Aborted(run: nat)
    | Ended

  datatype System = System(
    g: Generation, runs: seq<QualityRun>, threads: map<nat, Thread>, due: multiset<StepType>, called: set<nat>)

  datatype Event =
    | SaveEdits(w: World, edits: Submission)
    | Adopt(w: World, adoption: Json)
    | Fire(thread: nat, step: StepType)
    | AskRepair(thread: nat)
    | Advance(thread: nat, w: World)

  function Moved(x: System, c: nat, t: Thread): System {
    x.(threads := x.threads[c := t])
  }

  /** `schedule_initial_solution_critic`: every save of a successful run with a readable context. */
  function WithInitialDue(x: System): System {
    if x.g.success && x.g.preview != map[] && x.g.persisted.Some? then x.(due := x.due + multiset{InitialCritic}) else x
  }

  /** `schedule_final_solution_critic`: a repair run saved as successful. */
  function WithFinalDue(x: System): System {
    x.(due := x.due + multiset{FinalCritic})
  }

  /** The snapshot a critic reads from the stored preview. */
  function ReadSnapshot(cfg: Config, g: Generation): Option<Snapshot> {
    if g.success && g.preview != map[] && g.persisted.Some?
    then SnapshotOf(cfg.rules, g.persisted.value.(version := g.version, hash := g.hash), g.preview) else None
  }

  // ---- the critic

  ghost predicate CriticReads(cfg: Config, x: System, c: nat, step: StepType, expected: Option<Snapshot>, x': System) {
    match ReadSnapshot(cfg, x.g)
    case None => x' == Moved(x, c, Ended)
    case Some(snapshot) => x' == Moved(x, c, HasRead(step, snapshot, expected))
  }

  /** `run_final_solution_critic`: a successful repair the preview is bound to. */
  ghost predicate FinalChecks(cfg: Config, x: System, c: nat, x': System) {
    var repair := Find(x.runs, RepairStep);
    if repair.Some? && x.runs[repair.value].status == Success && RepairedBy(cfg, x.g.preview, repair.value)
       && x.runs[repair.value].result.RepairDone?
    then x' == Moved(x, c, Expecting(x.runs[repair.value].result.output))
    else x' == Moved(x, c, Ended)
  }

  ghost predicate CriticReserves(x: System, c: nat, step: StepType, snapshot: Snapshot, expected: Option<Snapshot>, x': System) {
    if Find(x.runs, step).Some? then x' == Moved(x, c, Ended)
    else x' == Moved(x.(runs := Reserve(x.runs, step, snapshot)), c, Reserved(|x.runs|, expected))
  }

  /** A stale snapshot and a refused quota end the step before the provider is called. */
  ghost predicate CriticCalls(w: World, x: System, c: nat, run: nat, expected: Option<Snapshot>, x': System) {
    run < |x.runs| &&
    if (expected.Some? && x.runs[run].input != expected.value) || !w.mayCall then x' == Moved(x, c, Failing(run))
    else x' == Moved(x.(called := x.called + {run}), c, Calling(run))
  }

  /** A critic's answer that makes the reading or the marking raise. */
  predicate CriticStrands(terms: Terms, reply: Reply) {
    reply.Unreadable? || !NameFits(terms.model) || (reply.CriticReply? && !Marks(terms))
  }

  ghost predicate CriticAnswers(w: World, x: System, c: nat, run: nat, x': System) {
    run < |x.runs| &&
    match w.answer
    case NoAnswer => x' == Moved(x, c, Failing(run))
    case Answered(terms, reply) =>
      if reply.Unreadable? || (reply.CriticReply? && !Marks(terms)) then x' == Moved(x, c, Aborted(run))
      else if reply.CriticReply? then
        x' == Moved(x.(runs := Finish(x.runs, run, Success, Findings(reply.findings))), c, Ended)
      else x' == Moved(x, c, Unmarked(run, terms))
  }

  // ---- the repair

  ghost predicate RepairReserves(cfg: Config, w: World, x: System, c: nat, x': System) {
    if Find(x.runs, RepairStep).None? && exists plan :: PlanFits(cfg, x.g, x.runs, w, plan)
    then exists plan :: PlanFits(cfg, x.g, x.runs, w, plan)
           && x' == Moved(x.(runs := Reserve(x.runs, RepairStep, plan.snapshot)), c, RepairReserved(|x.runs|, plan))
    else x' == Moved(x, c, Ended)
  }

  ghost predicate RepairCalls(cfg: Config, w: World, x: System, c: nat, run: nat, plan: Plan, x': System) {
    if PlanFits(cfg, x.g, x.runs, w, plan) && Build(cfg.rules, w.current.facts, x.g.preview).Built? && w.mayCall then
      x' == Moved(x.(called := x.called + {run}), c,
              RepairCalling(run, plan, Build(cfg.rules, w.current.facts, x.g.preview).payload, w.current.facts))
    else x' == Moved(x, c, Failing(run))
  }

  /** The reply of a repair passes the check of its output. */
  predicate RepairUsable(cfg: Config, t: Thread, reply: Reply)
    requires t.RepairCalling?
  {
    && reply.RepairReply? && Full(t.before.options)
    && ValidateRepair(cfg.rules, t.facts, t.plan.targets, t.before, reply.payload).Some?
  }

  ghost predicate RepairAnswers(cfg: Config, w: World, x: System, c: nat, t: Thread, x': System)
    requires t.RepairCalling?
  {
    match w.answer
    case NoAnswer => x' == Moved(x, c, Failing(t.run))
    case Answered(terms, reply) =>
      if reply.Unreadable? then x' == Moved(x, c, Aborted(t.run))
      else if RepairUsable(cfg, t, reply)
      then x' == Moved(x, c, RepairAnswered(t.run, t.plan,
                   RepairJson(ValidateRepair(cfg.rules, t.facts, t.plan.targets, t.before, reply.payload).value), terms))
      else x' == Moved(x, c, Unmarked(t.run, terms))
  }

  /** A call that is to mark its run as failed: it will, unless the model's name makes the marking raise. */
  function Unmarked(run: nat, terms: Terms): Thread {
    if NameFits(terms.model) then Failing(run) else Aborted(run)
  }

  /** If the run cannot be marked as successful the activation is rolled back, and nothing marks it failed. */
  ghost predicate RepairActivates(cfg: Config, w: World, x: System, c: nat, t: Thread, x': System)
    requires t.RepairAnswered?
  {
    var run, plan := t.run, t.plan;
    match Activate(cfg, x.g, x.runs, w, run, plan, t.payload)
    case Refusal => x' == Moved(x, c, Unmarked(run, t.terms))
    case Activation(preview, patches, output) =>
      run < |x.runs| &&
      if !Marks(t.terms) then x' == Moved(x, c, Aborted(run)) else
      var g := x.g.(preview := preview);
      var runs := Finish(x.runs, run, Success, RepairDone(patches, plan.findingIds, plan.snapshot, output));
      x' == WithFinalDue(WithInitialDue(Moved(x.(g := g, runs := runs), c, Ended)))
  }

  ghost predicate StepFails(x: System, c: nat, run: nat, x': System) {
    run < |x.runs| && x' == Moved(x.(runs := Finish(x.runs, run, Failed, NoResult)), c, Ended)
  }

  // ---- one action

  ghost predicate Advances(cfg: Config, w: World, x: System, c: nat, x': System) {
    c in x.threads &&
    match x.threads[c]
    case Triggered(step) =>
      if step == FinalCritic then FinalChecks(cfg, x, c, x')
      else step == InitialCritic && CriticReads(cfg, x, c, step, None, x')
    case Expecting(output) => CriticReads(cfg, x, c, FinalCritic, Some(output), x')
    case HasRead(step, snapshot, expected) => CriticReserves(x, c, step, snapshot, expected, x')
    case Reserved(run, expected) => CriticCalls(w, x, c, run, expected, x')
    case Calling(run) => CriticAnswers(w, x, c, run, x')
    case RepairAsked => RepairReserves(cfg, w, x, c, x')
    case RepairReserved(run, plan) => RepairCalls(cfg, w, x, c, run, plan, x')
    case RepairCalling(_, _, _, _) => RepairAnswers(cfg, w, x, c, x.threads[c], x')
    case RepairAnswered(_, _, _, _) => RepairActivates(cfg, w, x, c, x.threads[c], x')
    case Failing(run) => StepFails(x, c, run, x')
    case Aborted(_) => x' == x
    case Ended => x' == x
  }

  ghost predicate Step(cfg: Config, x: System, e: Event, x': System) {
    match e
    case SaveEdits(w, edits) =>
      && x.g.success && x.g.preview != map[] && w.editable && Submittable(edits)
      && var preview := WithStoredEdits(x.g.preview, Changed(x.g.preview, edits));
         x' == WithInitialDue(x.(g := x.g.(preview := preview)))
    case Adopt(w, adoption) =>
      // taking over drafts notes so in the preview
      && x.g.success && x.g.preview != map[] && w.editable
      && x' == WithInitialDue(x.(g := x.g.(preview := x.g.preview[Other("adoption") := adoption])))
    case Fire(c, step) =>
      c !in x.threads && step in x.due
      && x' == Moved(x.(due := x.due - multiset{step}), c, Triggered(step))
    case AskRepair(c) => c !in x.threads && x' == Moved(x, c, RepairAsked)
    case Advance(c, w) => Advances(cfg, w, x, c, x')
  }

  /** A generation run that has just succeeded: its preview carries no repair and nothing has been judged. */
  ghost predicate Initial(x: System) {
    && x.runs == [] && x.threads == map[] && x.called == {} && !HasRepair(x.g.preview) && x.due == multiset{InitialCritic}
  }

  ghost predicate Run(cfg: Config, trace: seq<System>, events: seq<Event>) {
    && |trace| == |events| + 1 && Initial(trace[0])
    && forall k | 0 <= k < |events| :: Step(cfg, trace[k], events[k], trace[k + 1])
  }
}
