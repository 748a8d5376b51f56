/** The bounded quality pipeline: what holds over every sequence of saves, triggers, calls and repair requests. */
module QualityPipeline {
  import opened Options
  import opened Answers
  import opened Payloads
  import opened Effective
  import opened EditRoundTrip
  import opened Repair
  import opened QualityModel

  // ---- the invariant

  ghost predicate StepsUnique(runs: seq<QualityRun>) {
    forall i, k | 0 <= i < k < |runs| :: runs[i].step != runs[k].step
  }

  /** The initial critic has succeeded and found something repairable in what a repair may then be given. */
  ghost predicate CriticAllows(runs: seq<QualityRun>, input: Snapshot) {
    && Find(runs, InitialCritic).Some?
    && var critic := runs[Find(runs, InitialCritic).value];
       critic.status == Success && critic.result.Findings? && critic.input == input
       && exists t :: InScope(critic.result.findings, t)
  }

  /** The repair has succeeded with the given output. */
  ghost predicate RepairGave(runs: seq<QualityRun>, output: Snapshot) {
    && Find(runs, RepairStep).Some?
    && var repair := runs[Find(runs, RepairStep).value];
       repair.status == Success && repair.result.RepairDone? && repair.result.output == output
  }

  ghost predicate RunFits(runs: seq<QualityRun>, r: QualityRun) {
    match r.step
    case InitialCritic => r.status == Success ==> r.result.Findings?
    case RepairStep =>
      && CriticAllows(runs, r.input)
      && (r.status == Success ==> r.result.RepairDone? && r.result.input == r.input)
    case FinalCritic =>
      exists output :: RepairGave(runs, output) && (r.status == Success ==> r.input == output)
  }

  /** What a call in flight relies on. */
  ghost predicate ThreadFits(runs: seq<QualityRun>, t: Thread) {
    match t
    case Expecting(output) => RepairGave(runs, output)
    case HasRead(step, _, expected) => if step == FinalCritic then expected.Some? && RepairGave(runs, expected.value)
                                       else step == InitialCritic && expected == None
    case Reserved(r, expected) =>
      r < |runs| && (if runs[r].step == FinalCritic then expected.Some? && RepairGave(runs, expected.value)
                     else runs[r].step == InitialCritic && expected == None)
    case Calling(r) =>
      r < |runs| && runs[r].step != RepairStep && (runs[r].step == FinalCritic ==> RepairGave(runs, runs[r].input))
    case RepairReserved(r, plan) => r < |runs| && runs[r].step == RepairStep && runs[r].input == plan.snapshot
    case RepairCalling(r, plan, _, _) => r < |runs| && runs[r].step == RepairStep && runs[r].input == plan.snapshot
    case RepairAnswered(r, plan, _, _) => r < |runs| && runs[r].step == RepairStep && runs[r].input == plan.snapshot
    case Failing(r) => r < |runs|
    case Aborted(r) => r < |runs|
    case _ => true
  }

  /** The run a call has reserved and not finished; one whose marking raised has it for good. */
  function Owned(t: Thread): Option<nat> {
    match t
    case Reserved(r, _) => Some(r)
    case Calling(r) => Some(r)
    case RepairReserved(r, _) => Some(r)
    case RepairCalling(r, _, _, _) => Some(r)
    case RepairAnswered(r, _, _, _) => Some(r)
    case Failing(r) => Some(r)
    case Aborted(r) => Some(r)
    case _ => None
  }

  predicate BeforeCall(t: Thread) { t.Reserved? || t.RepairReserved? }

  /** A run is running exactly while one call owns it, and this call has asked the provider at most once for it. */
  ghost predicate OwnedProperly(x: System) {
    && (forall c | c in x.threads && Owned(x.threads[c]).Some? ::
          var r := Owned(x.threads[c]).value;
          r < |x.runs| && x.runs[r].status == Running && (BeforeCall(x.threads[c]) ==> r !in x.called))
    && (forall c, d | c in x.threads && d in x.threads && Owned(x.threads[c]).Some?
                      && Owned(x.threads[c]) == Owned(x.threads[d]) :: c == d)
    && (forall r | r in x.called :: r < |x.runs|)
    && (forall r | 0 <= r < |x.runs| && x.runs[r].status == Running :: HasOwner(x, r))
  }

  ghost predicate HasOwner(x: System, r: nat) {
    exists c :: c in x.threads && Owned(x.threads[c]) == Some(r)
  }

  ghost predicate RepairRecorded(cfg: Config, x: System) {
    && (HasRepair(x.g.preview) <==> exists output :: RepairGave(x.runs, output))
    && (HasRepair(x.g.preview) ==> Find(x.runs, RepairStep).Some? && RepairedBy(cfg, x.g.preview, Find(x.runs, RepairStep).value))
  }

  ghost predicate Sound(cfg: Config, x: System) {
    && StepsUnique(x.runs)
    && (forall i | 0 <= i < |x.runs| :: RunFits(x.runs, x.runs[i]))
    && (forall c | c in x.threads :: ThreadFits(x.runs, x.threads[c]))
    && OwnedProperly(x) && RepairRecorded(cfg, x)
  }

  // ---- runs only grow, and a finished run stays as it is

  ghost predicate Grows(runs: seq<QualityRun>, runs': seq<QualityRun>) {
    && |runs| <= |runs'| && StepsUnique(runs')
    && forall i | 0 <= i < |runs| ::
         runs'[i].step == runs[i].step && runs'[i].input == runs[i].input && (runs[i].status != Running ==> runs'[i] == runs[i])
  }

  lemma FindIs(runs: seq<QualityRun>, step: StepType, i: nat)
    requires StepsUnique(runs) && i < |runs| && runs[i].step == step
    ensures Find(runs, step) == Some(i)
  {
  }

  lemma FindGrows(runs: seq<QualityRun>, runs': seq<QualityRun>, step: StepType)
    requires Grows(runs, runs') && Find(runs, step).Some?
    ensures Find(runs', step) == Find(runs, step)
  {
    FindIs(runs', step, Find(runs, step).value);
    hide Find;
  }

  lemma AllowsGrows(runs: seq<QualityRun>, runs': seq<QualityRun>, input: Snapshot)
    requires Grows(runs, runs') && CriticAllows(runs, input)
    ensures CriticAllows(runs', input)
  {
    FindGrows(runs, runs', InitialCritic);
    hide Find;
    hide InScope;
  }

  lemma GaveGrows(runs: seq<QualityRun>, runs': seq<QualityRun>, output: Snapshot)
    requires Grows(runs, runs') && RepairGave(runs, output)
    ensures RepairGave(runs', output)
  {
    FindGrows(runs, runs', RepairStep);
    hide Find;
  }

  lemma ThreadGrows(runs: seq<QualityRun>, runs': seq<QualityRun>, t: Thread)
    requires Grows(runs, runs') && ThreadFits(runs, t)
    ensures ThreadFits(runs', t)
  {
    forall output | RepairGave(runs, output) ensures RepairGave(runs', output) {
      GaveGrows(runs, runs', output);
    }
    hide RepairGave;
    hide StepsUnique;
  }

  lemma RunGrows(runs: seq<QualityRun>, runs': seq<QualityRun>, r: QualityRun)
    requires Grows(runs, runs') && RunFits(runs, r)
    ensures RunFits(runs', r)
  {
    match r.step
    case InitialCritic =>
    case RepairStep => AllowsGrows(runs, runs', r.input);
    case FinalCritic =>
      var output :| RepairGave(runs, output) && (r.status == Success ==> r.input == output);
      GaveGrows(runs, runs', output);
  }

  lemma AppendGrows(runs: seq<QualityRun>, r: QualityRun)
    requires StepsUnique(runs) && Find(runs, r.step).None?
    ensures Grows(runs, runs + [r])
  {
    hide Find;
  }

  lemma FinishGrows(runs: seq<QualityRun>, run: nat, status: Status, result: Result)
    requires StepsUnique(runs) && run < |runs|
    ensures Grows(runs, Finish(runs, run, status, result))
  {
  }

  // ---- who owns which run

  /** A call that owns a run keeps it when it moves on. */
  predicate KeepsRun(x: System, c: nat, t: Thread) {
    c in x.threads && Owned(x.threads[c]).Some? ==> Owned(t) == Owned(x.threads[c])
  }

  lemma OwnerStays(x: System, c: nat, t: Thread, x': System, r: nat)
    requires HasOwner(x, r) && x'.threads == x.threads[c := t]
    requires c in x.threads && Owned(x.threads[c]) == Some(r) ==> Owned(t) == Some(r)
    ensures HasOwner(x', r)
  {
    var d :| d in x.threads && Owned(x.threads[d]) == Some(r);
    assert d in x'.threads && Owned(x'.threads[d]) == Some(r);
  }

  lemma OwnMove(x: System, c: nat, t: Thread, called: set<nat>)
    requires OwnedProperly(x) && KeepsRun(x, c, t)
    requires Owned(t).None? || (c in x.threads && Owned(t) == Owned(x.threads[c]) && (BeforeCall(t) ==> BeforeCall(x.threads[c])))
    requires called == x.called || (c in x.threads && Owned(x.threads[c]).Some? && !BeforeCall(t)
                                    && called == x.called + {Owned(x.threads[c]).value})
    ensures OwnedProperly(x.(threads := x.threads[c := t], called := called))
  {
    var x' := x.(threads := x.threads[c := t], called := called);
    forall r | 0 <= r < |x'.runs| && x'.runs[r].status == Running ensures HasOwner(x', r) {
      OwnerStays(x, c, t, x', r);
    }
    hide HasOwner;
  }

  lemma OwnAppend(x: System, c: nat, r: QualityRun, t: Thread)
    requires OwnedProperly(x) && r.status == Running && Owned(t) == Some(|x.runs|)
    requires c in x.threads ==> Owned(x.threads[c]).None?
    ensures OwnedProperly(x.(threads := x.threads[c := t], runs := x.runs + [r]))
  {
    var x' := x.(threads := x.threads[c := t], runs := x.runs + [r]);
    forall k | 0 <= k < |x'.runs| && x'.runs[k].status == Running ensures HasOwner(x', k) {
      if k < |x.runs| {
        OwnerStays(x, c, t, x', k);
      } else {
        assert c in x'.threads && Owned(x'.threads[c]) == Some(k);
      }
    }
    hide HasOwner;
  }

  lemma OwnFinish(x: System, c: nat, run: nat, status: Status, result: Result)
    requires OwnedProperly(x) && c in x.threads && Owned(x.threads[c]) == Some(run) && run < |x.runs| && status != Running
    ensures OwnedProperly(x.(threads := x.threads[c := Ended], runs := Finish(x.runs, run, status, result)))
  {
    var x' := x.(threads := x.threads[c := Ended], runs := Finish(x.runs, run, status, result));
    forall r | 0 <= r < |x'.runs| && x'.runs[r].status == Running ensures HasOwner(x', r) {
      OwnerStays(x, c, Ended, x', r);
    }
    hide HasOwner;
  }

  // ---- whether the repair has succeeded

  lemma GaveAppend(runs: seq<QualityRun>, r: QualityRun)
    requires StepsUnique(runs) && Find(runs, r.step).None? && r.status == Running
    ensures forall o :: RepairGave(runs + [r], o) <==> RepairGave(runs, o)
    ensures Find(runs, RepairStep).Some? ==> Find(runs + [r], RepairStep) == Find(runs, RepairStep)
  {
    AppendGrows(runs, r);
    assert (runs + [r])[..|runs|] == runs;
    hide StepsUnique;
    hide Grows;
  }

  lemma GaveFinish(runs: seq<QualityRun>, run: nat, status: Status, result: Result)
    requires StepsUnique(runs) && run < |runs| && (runs[run].step == RepairStep ==> status != Success)
    ensures forall o :: RepairGave(Finish(runs, run, status, result), o) <==> RepairGave(runs, o)
    ensures Find(Finish(runs, run, status, result), RepairStep) == Find(runs, RepairStep)
  {
    var runs' := Finish(runs, run, status, result);
    FinishGrows(runs, run, status, result);
    if Find(runs, RepairStep).Some? {
      FindGrows(runs, runs', RepairStep);
    } else {
      assert forall i | 0 <= i < |runs'| :: runs'[i].step == runs[i].step != RepairStep;
    }
    hide Find;
    hide Grows;
  }

  // ---- one call moves

  lemma FitsAfter(x: System, c: nat, t: Thread, runs': seq<QualityRun>)
    requires forall d | d in x.threads :: ThreadFits(x.runs, x.threads[d])
    requires Grows(x.runs, runs') && ThreadFits(runs', t)
    ensures var threads := x.threads[c := t]; forall d | d in threads :: ThreadFits(runs', threads[d])
  {
    forall d | d in x.threads ensures ThreadFits(runs', x.threads[d]) {
      ThreadGrows(x.runs, runs', x.threads[d]);
    }
    hide ThreadFits;
    hide Grows;
  }

  lemma MoveKeepsSound(cfg: Config, x: System, c: nat, t: Thread, called: set<nat>)
    requires Sound(cfg, x) && ThreadFits(x.runs, t) && KeepsRun(x, c, t)
    requires Owned(t).None? || (c in x.threads && Owned(t) == Owned(x.threads[c]) && (BeforeCall(t) ==> BeforeCall(x.threads[c])))
    requires called == x.called || (c in x.threads && Owned(x.threads[c]).Some? && !BeforeCall(t)
                                    && called == x.called + {Owned(x.threads[c]).value})
    ensures Sound(cfg, Moved(x.(called := called), c, t))
  {
    hide ThreadFits;
    hide RunFits;
    hide RepairGave;
    hide Find;
    OwnMove(x, c, t, called);
    hide OwnedProperly;
    hide HasRepair;
    hide RepairedBy;
    hide StepsUnique;
  }

  lemma AppendKeepsRuns(x: System, r: QualityRun)
    requires StepsUnique(x.runs) && (forall i | 0 <= i < |x.runs| :: RunFits(x.runs, x.runs[i]))
    requires Find(x.runs, r.step).None? && RunFits(x.runs, r)
    ensures var runs' := x.runs + [r];
            Grows(x.runs, runs') && forall i | 0 <= i < |runs'| :: RunFits(runs', runs'[i])
  {
    hide RunFits;
    hide Find;
    var runs' := x.runs + [r];
    AppendGrows(x.runs, r);
    hide StepsUnique;
    hide Grows;
    forall i | 0 <= i < |runs'| ensures RunFits(runs', runs'[i]) {
      RunGrows(x.runs, runs', if i < |x.runs| then x.runs[i] else r);
    }
  }

  lemma AppendKeepsSound(cfg: Config, x: System, c: nat, r: QualityRun, t: Thread)
    requires Sound(cfg, x) && Find(x.runs, r.step).None? && r.status == Running && Owned(t) == Some(|x.runs|)
    requires RunFits(x.runs, r) && ThreadFits(x.runs + [r], t)
    requires c in x.threads ==> Owned(x.threads[c]).None?
    ensures Sound(cfg, Moved(x.(runs := x.runs + [r]), c, t))
  {
    var runs' := x.runs + [r];
    hide ThreadFits;
    hide RunFits;
    hide RepairGave;
    hide HasRepair;
    hide RepairedBy;
    hide Find;
    AppendKeepsRuns(x, r);
    GaveAppend(x.runs, r);
    OwnAppend(x, c, r, t);
    FitsAfter(x, c, t, runs');
    hide OwnedProperly;
    assert StepsUnique(runs');
    hide Grows;
    hide StepsUnique;
    RecordedAs(cfg, x, Moved(x.(runs := runs'), c, t));
  }

  lemma ThreadAt(cfg: Config, x: System, c: nat)
    requires Sound(cfg, x) && c in x.threads
    ensures ThreadFits(x.runs, x.threads[c])
  {
    hide ThreadFits;
    hide OwnedProperly;
    hide RepairRecorded;
    hide StepsUnique;
    hide RunFits;
  }

  lemma RecordedAs(cfg: Config, x: System, x': System)
    requires RepairRecorded(cfg, x) && HasRepair(x'.g.preview) == HasRepair(x.g.preview)
    requires forall o :: RepairGave(x'.runs, o) <==> RepairGave(x.runs, o)
    requires Find(x.runs, RepairStep).Some? ==> Find(x'.runs, RepairStep) == Find(x.runs, RepairStep)
    requires Get(x'.g.preview, MachineRepair) == Get(x.g.preview, MachineRepair)
    ensures RepairRecorded(cfg, x')
  {
    hide RepairGave;
    hide Find;
  }

  lemma FinishKeepsRuns(x: System, run: nat, status: Status, result: Result)
    requires StepsUnique(x.runs) && (forall i | 0 <= i < |x.runs| :: RunFits(x.runs, x.runs[i])) && run < |x.runs|
    requires RunFits(x.runs, x.runs[run].(status := status, result := result))
    ensures var runs' := Finish(x.runs, run, status, result);
            Grows(x.runs, runs') && forall i | 0 <= i < |runs'| :: RunFits(runs', runs'[i])
  {
    hide RunFits;
    var runs' := Finish(x.runs, run, status, result);
    FinishGrows(x.runs, run, status, result);
    forall i | 0 <= i < |runs'| ensures RunFits(runs', runs'[i]) {
      RunGrows(x.runs, runs', runs'[i]);
    }
    hide Grows;
  }

  lemma FinishKeepsSound(cfg: Config, x: System, c: nat, run: nat, status: Status, result: Result)
    requires Sound(cfg, x) && c in x.threads && Owned(x.threads[c]) == Some(run) && run < |x.runs|
    requires status != Running && (x.runs[run].step == RepairStep ==> status != Success)
    requires RunFits(x.runs, x.runs[run].(status := status, result := result))
    ensures Sound(cfg, Moved(x.(runs := Finish(x.runs, run, status, result)), c, Ended))
  {
    var runs' := Finish(x.runs, run, status, result);
    FinishKeepsRuns(x, run, status, result);
    GaveFinish(x.runs, run, status, result);
    OwnFinish(x, c, run, status, result);
    FitsAfter(x, c, Ended, runs');
    hide OwnedProperly;
    hide ThreadFits;
    hide RunFits;
    hide Finish;
    hide RepairGave;
    hide HasRepair;
    hide RepairedBy;
    assert StepsUnique(runs');
    hide Grows;
    hide StepsUnique;
    RecordedAs(cfg, x, Moved(x.(runs := runs'), c, Ended));
  }

  // ---- every action keeps the invariant

  /** What `Due` triggers are pending does not matter to the invariant. */
  lemma DueIsFree(cfg: Config, x: System, due: multiset<StepType>)
    requires Sound(cfg, x)
    ensures Sound(cfg, x.(due := due))
  {
    hide RunFits;
    hide ThreadFits;
    hide RepairGave;
    hide Find;
    hide HasRepair;
    hide RepairedBy;
    hide StepsUnique;
  }

  lemma TriggeredMoves(cfg: Config, w: World, x: System, c: nat, x': System)
    requires Sound(cfg, x) && Advances(cfg, w, x, c, x') && x.threads[c].Triggered?
    ensures Sound(cfg, x')
  {
    hide Sound;
    hide ReadSnapshot;
    hide Find;
    hide RepairedBy;
    var t := x'.threads[c];
    assert ThreadFits(x.runs, t) && Owned(t).None? && x' == Moved(x, c, t);
    MoveKeepsSound(cfg, x, c, t, x.called);
  }

  lemma ExpectingMoves(cfg: Config, w: World, x: System, c: nat, x': System)
    requires Sound(cfg, x) && Advances(cfg, w, x, c, x') && x.threads[c].Expecting?
    ensures Sound(cfg, x')
  {
    hide Sound;
    ThreadAt(cfg, x, c);
    hide ReadSnapshot;
    hide RepairGave;
    var t := x'.threads[c];
    assert ThreadFits(x.runs, t) && Owned(t).None? && x' == Moved(x, c, t);
    MoveKeepsSound(cfg, x, c, t, x.called);
  }

  lemma HasReadMoves(cfg: Config, w: World, x: System, c: nat, x': System)
    requires Sound(cfg, x) && Advances(cfg, w, x, c, x') && x.threads[c].HasRead?
    ensures Sound(cfg, x')
  {
    var HasRead(step, snapshot, expected) := x.threads[c];
    assert ThreadFits(x.runs, x.threads[c]) && StepsUnique(x.runs);
    hide Sound;
    hide Find;
    hide CriticAllows;
    if Find(x.runs, step).Some? {
      MoveKeepsSound(cfg, x, c, Ended, x.called);
    } else {
      var r := QualityRun(step, Running, snapshot, NoResult);
      AppendGrows(x.runs, r);
      forall o | RepairGave(x.runs, o) ensures RepairGave(x.runs + [r], o) {
        GaveGrows(x.runs, x.runs + [r], o);
      }
      hide RepairGave;
      hide Grows;
      hide StepsUnique;
      AppendKeepsSound(cfg, x, c, r, Reserved(|x.runs|, expected));
    }
  }

  lemma ReservedMoves(cfg: Config, w: World, x: System, c: nat, run: nat, expected: Option<Snapshot>, x': System)
    requires Sound(cfg, x) && c in x.threads && x.threads[c] == Reserved(run, expected)
    requires CriticCalls(w, x, c, run, expected, x')
    ensures Sound(cfg, x')
  {
    hide Sound;
    ThreadAt(cfg, x, c);
    hide RepairGave;
    if (expected.Some? && x.runs[run].input != expected.value) || !w.mayCall {
      MoveKeepsSound(cfg, x, c, Failing(run), x.called);
    } else {
      MoveKeepsSound(cfg, x, c, Calling(run), x.called + {run});
    }
  }

  lemma CallingMoves(cfg: Config, w: World, x: System, c: nat, x': System)
    requires Sound(cfg, x) && Advances(cfg, w, x, c, x') && x.threads[c].Calling?
    ensures Sound(cfg, x')
  {
    var run := x.threads[c].run;
    assert ThreadFits(x.runs, x.threads[c]) && RunFits(x.runs, x.runs[run]);
    hide Sound;
    hide RepairGave;
    hide CriticAllows;
    hide Marks;
    hide NameFits;
    if w.answer.Answered? && w.answer.reply.CriticReply? && Marks(w.answer.terms) {
      FinishKeepsSound(cfg, x, c, run, Success, Findings(w.answer.reply.findings));
    } else {
      MoveKeepsSound(cfg, x, c, x'.threads[c], x.called);
    }
  }

  lemma FailingMoves(cfg: Config, w: World, x: System, c: nat, x': System)
    requires Sound(cfg, x) && Advances(cfg, w, x, c, x') && x.threads[c].Failing?
    ensures Sound(cfg, x')
  {
    var run := x.threads[c].run;
    assert ThreadFits(x.runs, x.threads[c]) && RunFits(x.runs, x.runs[run]);
    hide Sound;
    hide RepairGave;
    hide CriticAllows;
    FinishKeepsSound(cfg, x, c, run, Failed, NoResult);
  }

  lemma PlanIsAllowed(cfg: Config, g: Generation, runs: seq<QualityRun>, w: World, plan: Plan)
    requires PlanFits(cfg, g, runs, w, plan)
    ensures CriticAllows(runs, plan.snapshot)
    ensures plan.targets != [] && Ordered(plan.targets) && forall t | t in plan.targets :: t !in EditsOf(g.preview)
  {
    hide SnapshotOf;
    hide EditsOf;
    hide InScope;
    hide RepairableIds;
    hide Find;
    assert plan.targets[0] in Targets() && plan.targets[0] in plan.targets;
  }

  lemma AskedMoves(cfg: Config, w: World, x: System, c: nat, x': System)
    requires Sound(cfg, x) && Advances(cfg, w, x, c, x') && x.threads[c].RepairAsked?
    ensures Sound(cfg, x')
  {
    hide Sound;
    hide PlanFits;
    hide Find;
    hide CriticAllows;
    if Find(x.runs, RepairStep).None? && exists plan :: PlanFits(cfg, x.g, x.runs, w, plan) {
      var plan :| PlanFits(cfg, x.g, x.runs, w, plan)
        && x' == Moved(x.(runs := Reserve(x.runs, RepairStep, plan.snapshot)), c, RepairReserved(|x.runs|, plan));
      PlanIsAllowed(cfg, x.g, x.runs, w, plan);
      var r := QualityRun(RepairStep, Running, plan.snapshot, NoResult);
      AppendKeepsSound(cfg, x, c, r, RepairReserved(|x.runs|, plan));
    } else {
      MoveKeepsSound(cfg, x, c, Ended, x.called);
    }
  }

  lemma RepairCallsShape(cfg: Config, w: World, x: System, c: nat, run: nat, plan: Plan, x': System) returns (t: Thread)
    requires RepairCalls(cfg, w, x, c, run, plan, x')
    ensures x' == Moved(x.(called := x'.called), c, t)
    ensures (t == Failing(run) && x'.called == x.called)
         || (t.RepairCalling? && t.run == run && t.plan == plan && x'.called == x.called + {run})
  {
    hide PlanFits;
    hide Build;
    t := x'.threads[c];
  }

  lemma RepairReservedMoves(cfg: Config, w: World, x: System, c: nat, run: nat, plan: Plan, x': System)
    requires Sound(cfg, x) && c in x.threads && x.threads[c] == RepairReserved(run, plan)
    requires RepairCalls(cfg, w, x, c, run, plan, x')
    ensures Sound(cfg, x')
  {
    hide Sound;
    ThreadAt(cfg, x, c);
    hide RepairCalls;
    hide RepairGave;
    var t := RepairCallsShape(cfg, w, x, c, run, plan, x');
    MoveKeepsSound(cfg, x, c, t, x'.called);
  }

  lemma RepairAnswersShape(cfg: Config, w: World, x: System, c: nat, x': System) returns (t: Thread)
    requires c in x.threads && x.threads[c].RepairCalling? && RepairAnswers(cfg, w, x, c, x.threads[c], x')
    ensures x' == Moved(x, c, t)
    ensures t == Failing(x.threads[c].run) || t == Aborted(x.threads[c].run)
         || (t.RepairAnswered? && t.run == x.threads[c].run && t.plan == x.threads[c].plan)
  {
    hide ValidateRepair;
    hide RepairJson;
    t := x'.threads[c];
  }

  lemma RepairCallingMoves(cfg: Config, w: World, x: System, c: nat, x': System)
    requires Sound(cfg, x) && c in x.threads && x.threads[c].RepairCalling?
    requires RepairAnswers(cfg, w, x, c, x.threads[c], x')
    ensures Sound(cfg, x')
  {
    hide Sound;
    ThreadAt(cfg, x, c);
    hide RepairAnswers;
    hide RepairGave;
    var t := RepairAnswersShape(cfg, w, x, c, x');
    MoveKeepsSound(cfg, x, c, t, x.called);
  }

  // ---- activation and edits

  lemma RunningRepairIsUnrecorded(cfg: Config, x: System, run: nat)
    requires Sound(cfg, x) && run < |x.runs| && x.runs[run].step == RepairStep && x.runs[run].status == Running
    ensures !HasRepair(x.g.preview) && Find(x.runs, RepairStep) == Some(run)
  {
    FindIs(x.runs, RepairStep, run);
    hide Find;
    hide ThreadFits;
    hide RunFits;
    hide OwnedProperly;
    hide HasRepair;
    hide RepairedBy;
  }

  lemma ActivationRecords(cfg: Config, preview: Preview, run: nat, hash: string, patches: seq<Patch>)
    ensures HasRepair(Activated(preview, cfg.runText(run), hash, patches))
    ensures RepairedBy(cfg, Activated(preview, cfg.runText(run), hash, patches), run)
  {
    hide PatchList;
  }

  lemma ActivatedIs(cfg: Config, g: Generation, runs: seq<QualityRun>, w: World, run: nat, plan: Plan, j: Json)
    requires Activate(cfg, g, runs, w, run, plan, j).Activation?
    ensures StillPlanned(cfg, g, runs, w, run, plan)
    ensures var a := Activate(cfg, g, runs, w, run, plan, j);
            && PatchesNow(cfg, g, w, plan, j) == Some(a.patches)
            && a.preview == Activated(g.preview, cfg.runText(run), cfg.digest(plan.snapshot), a.patches)
            && SnapshotOf(cfg.rules, w.current, a.preview) == Some(a.output)
  {
    hide StillPlanned;
    hide PatchesNow;
    hide SnapshotOf;
    hide Activated;
  }

  lemma FinishedRepairGave(runs: seq<QualityRun>, run: nat, result: Result)
    requires StepsUnique(runs) && run < |runs| && runs[run].step == RepairStep && runs[run].status == Running && result.RepairDone?
    ensures RepairGave(Finish(runs, run, Success, result), result.output)
    ensures Find(Finish(runs, run, Success, result), RepairStep) == Some(run)
  {
    FinishGrows(runs, run, Success, result);
    FindIs(Finish(runs, run, Success, result), RepairStep, run);
    hide Find;
    hide StepsUnique;
  }

  /** What an activation that is refused or cannot be marked comes to. */
  lemma NotActivatedShape(cfg: Config, w: World, x: System, c: nat, x': System)
    requires c in x.threads && x.threads[c].RepairAnswered? && RepairActivates(cfg, w, x, c, x.threads[c], x')
    ensures var t := x.threads[c];
            Activate(cfg, x.g, x.runs, w, t.run, t.plan, t.payload).Refusal? || !Marks(t.terms) ==>
              x' == Moved(x, c, Failing(t.run)) || x' == Moved(x, c, Aborted(t.run))
  {
    hide Activate;
    hide Marks;
    hide NameFits;
    hide Finish;
  }

  /** What an activation that succeeds comes to. */
  lemma ActivatedShape(cfg: Config, w: World, x: System, c: nat, x': System)
    requires c in x.threads && x.threads[c].RepairAnswered? && RepairActivates(cfg, w, x, c, x.threads[c], x')
    requires var t := x.threads[c]; Activate(cfg, x.g, x.runs, w, t.run, t.plan, t.payload).Activation? && Marks(t.terms)
    ensures var t := x.threads[c];
            var a := Activate(cfg, x.g, x.runs, w, t.run, t.plan, t.payload);
            var result := RepairDone(a.patches, t.plan.findingIds, t.plan.snapshot, a.output);
            && t.run < |x.runs|
            && x' == Moved(x.(g := x.g.(preview := a.preview), runs := Finish(x.runs, t.run, Success, result)), c, Ended).(due := x'.due)
  {
    hide Activate;
    hide Marks;
    hide Finish;
  }

  lemma ActivationMoves(cfg: Config, w: World, x: System, c: nat, x': System)
    requires Sound(cfg, x) && c in x.threads && x.threads[c].RepairAnswered?
    requires RepairActivates(cfg, w, x, c, x.threads[c], x')
    ensures Sound(cfg, x')
  {
    hide *;
    var RepairAnswered(run, plan, j, terms) := x.threads[c];
    if Activate(cfg, x.g, x.runs, w, run, plan, j).Refusal? || !Marks(terms) {
      NotActivatedShape(cfg, w, x, c, x');
      EndsUnactivated(cfg, x, c, Failing(run));
      EndsUnactivated(cfg, x, c, Aborted(run));
    } else {
      ActivatedShape(cfg, w, x, c, x');
      var a := Activate(cfg, x.g, x.runs, w, run, plan, j);
      var result := RepairDone(a.patches, plan.findingIds, plan.snapshot, a.output);
      ActivatedIs(cfg, x.g, x.runs, w, run, plan, j);
      AnsweredOwns(x.threads[c]);
      ActivationSucceeds(cfg, w, x, c, run, plan, a);
      DueIsFree(cfg, Moved(x.(g := x.g.(preview := a.preview), runs := Finish(x.runs, run, Success, result)), c, Ended), x'.due);
    }
  }

  lemma AnsweredOwns(t: Thread)
    requires t.RepairAnswered?
    ensures Owned(t) == Some(t.run)
  {
  }

  lemma EndsUnactivated(cfg: Config, x: System, c: nat, t: Thread)
    requires Sound(cfg, x) && c in x.threads && x.threads[c].RepairAnswered?
    requires t == Failing(x.threads[c].run) || t == Aborted(x.threads[c].run)
    ensures Sound(cfg, Moved(x, c, t))
  {
    ThreadAt(cfg, x, c);
    hide Sound;
    hide RepairGave;
    MoveKeepsSound(cfg, x, c, t, x.called);
  }

  lemma ActivationSucceeds(cfg: Config, w: World, x: System, c: nat, run: nat, plan: Plan, a: Activation)
    requires Sound(cfg, x) && c in x.threads && Owned(x.threads[c]) == Some(run) && a.Activation?
    requires StillPlanned(cfg, x.g, x.runs, w, run, plan)
    requires a.preview == Activated(x.g.preview, cfg.runText(run), cfg.digest(plan.snapshot), a.patches)
    ensures var result := RepairDone(a.patches, plan.findingIds, plan.snapshot, a.output);
            Sound(cfg, Moved(x.(g := x.g.(preview := a.preview), runs := Finish(x.runs, run, Success, result)), c, Ended))
  {
    hide PlanFits;
    hide Find;
    hide Activated;
    hide HasRepair;
    hide RepairedBy;
    hide CriticAllows;
    var result := RepairDone(a.patches, plan.findingIds, plan.snapshot, a.output);
    var runs' := Finish(x.runs, run, Success, result);
    assert RunFits(x.runs, x.runs[run]);
    FinishKeepsRuns(x, run, Success, result);
    FinishedRepairGave(x.runs, run, result);
    OwnFinish(x, c, run, Success, result);
    FitsAfter(x, c, Ended, runs');
    ActivationRecords(cfg, x.g.preview, run, cfg.digest(plan.snapshot), a.patches);
    hide RunFits;
    hide ThreadFits;
    hide Finish;
    hide RepairGave;
    assert StepsUnique(runs');
    hide Grows;
    hide StepsUnique;
  }

  lemma SaveKeepsRepair(preview: Preview, edits: map<Target, string>)
    ensures Get(WithStoredEdits(preview, edits), MachineRepair) == Get(preview, MachineRepair)
  {
    hide EditsJson;
  }

  lemma SavingKeepsSound(cfg: Config, x: System, preview: Preview)
    requires Sound(cfg, x) && Get(preview, MachineRepair) == Get(x.g.preview, MachineRepair)
    ensures Sound(cfg, x.(g := x.g.(preview := preview)))
  {
    hide RunFits;
    hide ThreadFits;
    hide RepairGave;
    hide Find;
    hide StepsUnique;
  }

  // ---- whole runs

  lemma AdvanceKeepsSound(cfg: Config, w: World, x: System, c: nat, x': System)
    requires Sound(cfg, x) && Advances(cfg, w, x, c, x')
    ensures Sound(cfg, x')
  {
    hide Sound;
    hide CriticReads;
    hide FinalChecks;
    hide CriticReserves;
    hide CriticCalls;
    hide CriticAnswers;
    hide RepairReserves;
    hide RepairCalls;
    hide RepairAnswers;
    hide RepairActivates;
    hide StepFails;
    match x.threads[c]
    case Triggered(step) => TriggeredMoves(cfg, w, x, c, x');
    case Expecting(output) => ExpectingMoves(cfg, w, x, c, x');
    case HasRead(step, snapshot, expected) => HasReadMoves(cfg, w, x, c, x');
    case Reserved(run, expected) => ReservedMoves(cfg, w, x, c, run, expected, x');
    case Calling(run) => CallingMoves(cfg, w, x, c, x');
    case RepairAsked => AskedMoves(cfg, w, x, c, x');
    case RepairReserved(run, plan) => RepairReservedMoves(cfg, w, x, c, run, plan, x');
    case RepairCalling(_, _, _, _) => RepairCallingMoves(cfg, w, x, c, x');
    case RepairAnswered(_, _, _, _) => ActivationMoves(cfg, w, x, c, x');
    case Failing(run) => FailingMoves(cfg, w, x, c, x');
    case Aborted(_) =>
    case Ended =>
  }

  lemma StepKeepsSound(cfg: Config, x: System, e: Event, x': System)
    requires Sound(cfg, x) && Step(cfg, x, e, x')
    ensures Sound(cfg, x')
  {
    hide Sound;
    hide Advances;
    hide Changed;
    hide WithStoredEdits;
    hide Submittable;
    match e
    case SaveEdits(w, edits) =>
      var preview := WithStoredEdits(x.g.preview, Changed(x.g.preview, edits));
      SaveKeepsRepair(x.g.preview, Changed(x.g.preview, edits));
      SavingKeepsSound(cfg, x, preview);
      DueIsFree(cfg, x.(g := x.g.(preview := preview)), x'.due);
    case Adopt(w, adoption) =>
      var preview := x.g.preview[Other("adoption") := adoption];
      SavingKeepsSound(cfg, x, preview);
      DueIsFree(cfg, x.(g := x.g.(preview := preview)), x'.due);
    case Fire(c, step) =>
      DueIsFree(cfg, x, x'.due);
      MoveKeepsSound(cfg, x.(due := x'.due), c, Triggered(step), x.called);
    case AskRepair(c) => MoveKeepsSound(cfg, x, c, RepairAsked, x.called);
    case Advance(c, w) => AdvanceKeepsSound(cfg, w, x, c, x');
  }

  lemma InitialIsSound(cfg: Config, x: System)
    requires Initial(x)
    ensures Sound(cfg, x)
  {
    hide HasRepair;
  }
}
