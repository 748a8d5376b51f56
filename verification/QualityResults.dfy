/** The results about whole runs of the quality pipeline. */
module QualityResults {
  import opened Options
  import opened Answers
  import opened Payloads
  import opened Effective
  import opened EditRoundTrip
  import opened Repair
  import opened RepairProofs
  import opened QualityModel
  import opened QualityPipeline

  // ---- finished runs stay as they are

  /** One action: finished runs stay, and a run that is new is running. */
  ghost predicate GrowsByOne(runs: seq<QualityRun>, runs': seq<QualityRun>) {
    Grows(runs, runs') && forall i | |runs| <= i < |runs'| :: runs'[i].status == Running
  }

  lemma SameRunsGrow(runs: seq<QualityRun>)
    requires StepsUnique(runs)
    ensures GrowsByOne(runs, runs)
  {
  }

  lemma CriticGrows(cfg: Config, w: World, x: System, c: nat, x': System)
    requires StepsUnique(x.runs) && Advances(cfg, w, x, c, x')
    requires var t := x.threads[c]; t.Triggered? || t.Expecting? || t.HasRead? || t.Reserved? || t.Calling? || t.Failing?
    ensures GrowsByOne(x.runs, x'.runs)
  {
    hide Find;
    hide ReadSnapshot;
    hide RepairedBy;
    hide StepsUnique;
    hide Grows;
    SameRunsGrow(x.runs);
    match x.threads[c]
    case HasRead(step, snapshot, _) =>
      if Find(x.runs, step).None? {
        AppendGrows(x.runs, QualityRun(step, Running, snapshot, NoResult));
      }
    case Calling(run) =>
      if x'.runs != x.runs {
        FinishGrows(x.runs, run, Success, Findings(w.answer.reply.findings));
      }
    case Failing(run) => FinishGrows(x.runs, run, Failed, NoResult);
    case _ =>
  }

  lemma RepairGrows(cfg: Config, w: World, x: System, c: nat, x': System)
    requires StepsUnique(x.runs) && Advances(cfg, w, x, c, x')
    requires var t := x.threads[c]; t.RepairAsked? || t.RepairReserved? || t.RepairCalling? || t.RepairAnswered?
    ensures GrowsByOne(x.runs, x'.runs)
  {
    hide Find;
    hide PlanFits;
    hide Activate;
    hide Build;
    hide ValidateRepair;
    hide StepsUnique;
    hide Grows;
    SameRunsGrow(x.runs);
    match x.threads[c]
    case RepairAsked =>
      if x'.runs != x.runs {
        var plan :| PlanFits(cfg, x.g, x.runs, w, plan)
          && x' == Moved(x.(runs := Reserve(x.runs, RepairStep, plan.snapshot)), c, RepairReserved(|x.runs|, plan));
        AppendGrows(x.runs, QualityRun(RepairStep, Running, plan.snapshot, NoResult));
      }
    case RepairAnswered(run, plan, j, _) =>
      if x'.runs != x.runs {
        var a := Activate(cfg, x.g, x.runs, w, run, plan, j);
        FinishGrows(x.runs, run, Success, RepairDone(a.patches, plan.findingIds, plan.snapshot, a.output));
      }
    case _ =>
  }

  /** A finished quality run never changes again, no run changes its step or what it judges, and new runs are running. */
  lemma FinishedIsFinal(cfg: Config, x: System, e: Event, x': System)
    requires Sound(cfg, x) && Step(cfg, x, e, x')
    ensures GrowsByOne(x.runs, x'.runs)
  {
    assert StepsUnique(x.runs);
    hide Sound;
    hide Advances;
    hide StepsUnique;
    hide Grows;
    hide Changed;
    hide WithStoredEdits;
    hide Submittable;
    SameRunsGrow(x.runs);
    if e.Advance? {
      AdvanceGrows(cfg, e.w, x, e.thread, x');
    }
  }

  lemma AdvanceGrows(cfg: Config, w: World, x: System, c: nat, x': System)
    requires StepsUnique(x.runs) && Advances(cfg, w, x, c, x')
    ensures GrowsByOne(x.runs, x'.runs)
  {
    hide StepsUnique;
    hide Grows;
    hide CriticReads;
    hide FinalChecks;
    hide CriticReserves;
    hide CriticCalls;
    hide CriticAnswers;
    hide RepairReserves;
    hide RepairCalls;
    hide RepairAnswers;
    hide RepairActivates;
    hide StepFails;
    var t := x.threads[c];
    if t.Ended? || t.Aborted? {
      SameRunsGrow(x.runs);
    } else if t.RepairAsked? || t.RepairReserved? || t.RepairCalling? || t.RepairAnswered? {
      RepairGrows(cfg, w, x, c, x');
    } else {
      CriticGrows(cfg, w, x, c, x');
    }
  }

  // ---- whole traces

  lemma {:induction false} TraceIsSound(cfg: Config, trace: seq<System>, events: seq<Event>, k: nat)
    requires Run(cfg, trace, events) && k <= |events|
    ensures Sound(cfg, trace[k])
  {
    hide Sound;
    hide Step;
    if k == 0 {
      InitialIsSound(cfg, trace[0]);
    } else {
      TraceIsSound(cfg, trace, events, k - 1);
      StepKeepsSound(cfg, trace[k - 1], events[k - 1], trace[k]);
    }
  }

  lemma SoundIsUnique(cfg: Config, x: System)
    requires Sound(cfg, x)
    ensures StepsUnique(x.runs)
  {
    hide StepsUnique;
    hide RunFits;
    hide ThreadFits;
    hide OwnedProperly;
    hide RepairRecorded;
  }

  lemma {:induction false} TraceGrows(cfg: Config, trace: seq<System>, events: seq<Event>, j: nat, k: nat)
    requires Run(cfg, trace, events) && j <= k <= |events|
    ensures Grows(trace[j].runs, trace[k].runs)
    decreases k
  {
    hide Sound;
    hide Step;
    hide StepsUnique;
    TraceIsSound(cfg, trace, events, k);
    SoundIsUnique(cfg, trace[k]);
    if j == k {
      SameRunsGrow(trace[k].runs);
    } else {
      TraceGrows(cfg, trace, events, j, k - 1);
      TraceIsSound(cfg, trace, events, k - 1);
      FinishedIsFinal(cfg, trace[k - 1], events[k - 1], trace[k]);
    }
  }

  /** The event is a request to the provider. */
  predicate Requests(x: System, e: Event, x': System) {
    e.Advance? && e.thread in x.threads && e.thread in x'.threads
    && BeforeCall(x.threads[e.thread]) && (x'.threads[e.thread].Calling? || x'.threads[e.thread].RepairCalling?)
  }

  function CountRequests(trace: seq<System>, events: seq<Event>): nat
    requires |trace| == |events| + 1
  {
    if events == [] then 0
    else
      var n := |events| - 1;
      CountRequests(trace[..n + 1], events[..n]) + if Requests(trace[n], events[n], trace[n + 1]) then 1 else 0
  }

  lemma CallIsNew(cfg: Config, w: World, x: System, c: nat, x': System)
    requires Sound(cfg, x) && Advances(cfg, w, x, c, x') && BeforeCall(x.threads[c])
    ensures if c in x'.threads && (x'.threads[c].Calling? || x'.threads[c].RepairCalling?)
            then exists r :: r !in x.called && x'.called == x.called + {r} else x'.called == x.called
  {
    hide ThreadFits;
    hide RunFits;
    hide RepairRecorded;
    hide PlanFits;
    hide Build;
    hide StepsUnique;
    assert Owned(x.threads[c]).Some?;
    var r := Owned(x.threads[c]).value;
    assert r !in x.called;
  }

  lemma OtherwiseNoCall(cfg: Config, w: World, x: System, c: nat, x': System)
    requires Advances(cfg, w, x, c, x') && !BeforeCall(x.threads[c])
    ensures x'.called == x.called
  {
    hide PlanFits;
    hide Build;
    hide ValidateRepair;
    hide Activate;
    hide Find;
    hide ReadSnapshot;
    hide Finish;
  }

  lemma RequestsAreCounted(cfg: Config, x: System, e: Event, x': System)
    requires Sound(cfg, x) && Step(cfg, x, e, x')
    ensures |x'.called| == |x.called| + if Requests(x, e, x') then 1 else 0
  {
    hide Sound;
    hide Advances;
    hide Changed;
    hide WithStoredEdits;
    hide Submittable;
    if e.Advance? {
      AdvancesInThreads(cfg, e.w, x, e.thread, x');
      if BeforeCall(x.threads[e.thread]) {
        CallIsNew(cfg, e.w, x, e.thread, x');
      } else {
        OtherwiseNoCall(cfg, e.w, x, e.thread, x');
      }
    }
  }

  lemma AdvancesInThreads(cfg: Config, w: World, x: System, c: nat, x': System)
    requires Advances(cfg, w, x, c, x')
    ensures c in x.threads
  {
    hide CriticReads;
    hide FinalChecks;
    hide CriticReserves;
    hide CriticCalls;
    hide CriticAnswers;
    hide RepairReserves;
    hide RepairCalls;
    hide RepairAnswers;
    hide RepairActivates;
    hide StepFails;
  }

  /** Steps are numbered, so that distinct steps have distinct numbers below three. */
  function StepNumber(step: StepType): nat {
    match step
    case InitialCritic => 0
    case RepairStep => 1
    case FinalCritic => 2
  }

  lemma {:induction false} NumberedRuns(runs: seq<QualityRun>) returns (numbers: set<nat>)
    requires StepsUnique(runs)
    ensures |numbers| == |runs| && forall k :: k in numbers <==> exists i | 0 <= i < |runs| :: StepNumber(runs[i].step) == k
  {
    numbers := {};
    if runs != [] {
      var last := |runs| - 1;
      var front := NumberedRuns(runs[..last]);
      assert StepNumber(runs[last].step) !in front;
      numbers := front + {StepNumber(runs[last].step)};
    }
  }

  lemma FewRuns(runs: seq<QualityRun>)
    requires StepsUnique(runs)
    ensures |runs| <= 3
  {
    var numbers := NumberedRuns(runs);
    SmallIds(numbers, 3);
  }

  lemma {:induction false} SmallIds(ids: set<nat>, n: nat)
    requires forall r | r in ids :: r < n
    ensures |ids| <= n
  {
    if n == 0 {
      assert ids == {};
    } else {
      SmallIds(ids - {n - 1}, n - 1);
    }
  }

  lemma {:induction false} RequestsAre(cfg: Config, trace: seq<System>, events: seq<Event>)
    requires Run(cfg, trace, events)
    ensures CountRequests(trace, events) == |trace[|events|].called|
    decreases |events|
  {
    hide Sound;
    hide Step;
    hide Requests;
    if events != [] {
      var n := |events| - 1;
      RequestsAre(cfg, trace[..n + 1], events[..n]);
      TraceIsSound(cfg, trace, events, n);
      RequestsAreCounted(cfg, trace[n], events[n], trace[n + 1]);
    }
  }

  /**
   * The pipeline is bounded. Over every sequence of edits, triggers, calls and repair requests there
   * is at most one quality run of each step type, and the provider is asked at most three times.
   */
  lemma PipelineIsBounded(cfg: Config, trace: seq<System>, events: seq<Event>)
    requires Run(cfg, trace, events)
    ensures StepsUnique(trace[|events|].runs) && |trace[|events|].runs| <= 3
    ensures CountRequests(trace, events) <= |trace[|events|].runs|
  {
    TraceIsSound(cfg, trace, events, |events|);
    RequestsAre(cfg, trace, events);
    hide Step;
    hide ThreadFits;
    hide RunFits;
    hide RepairRecorded;
    FewRuns(trace[|events|].runs);
    SmallIds(trace[|events|].called, |trace[|events|].runs|);
    hide CountRequests;
  }

  /** There is a repair only after a successful critic that found something repairable in the same snapshot. */
  lemma RepairFollowsCritic(cfg: Config, trace: seq<System>, events: seq<Event>, k: nat, r: nat)
    requires Run(cfg, trace, events) && k <= |events| && r < |trace[k].runs| && trace[k].runs[r].step == RepairStep
    ensures CriticAllows(trace[k].runs, trace[k].runs[r].input)
  {
    TraceIsSound(cfg, trace, events, k);
    hide Run;
    hide CriticAllows;
    hide OwnedProperly;
    hide RepairRecorded;
    hide StepsUnique;
    assert RunFits(trace[k].runs, trace[k].runs[r]);
  }

  /**
   * There is a final critic only after a successful repair, and it succeeds only on exactly the
   * snapshot this repair produced: an edit saved in between makes it fail instead.
   */
  lemma FinalFollowsRepair(cfg: Config, trace: seq<System>, events: seq<Event>, k: nat, f: nat)
    requires Run(cfg, trace, events) && k <= |events| && f < |trace[k].runs| && trace[k].runs[f].step == FinalCritic
    ensures exists output :: RepairGave(trace[k].runs, output)
              && (trace[k].runs[f].status == Success ==> trace[k].runs[f].input == output)
  {
    TraceIsSound(cfg, trace, events, k);
    hide Run;
    hide RepairGave;
    hide OwnedProperly;
    hide RepairRecorded;
    hide StepsUnique;
    assert RunFits(trace[k].runs, trace[k].runs[f]);
  }

  /** The provider is asked for a final judgement of nothing but the repair's output. */
  lemma FinalJudgesRepairedText(cfg: Config, trace: seq<System>, events: seq<Event>, k: nat, c: nat)
    requires Run(cfg, trace, events) && k <= |events| && c in trace[k].threads && trace[k].threads[c].Calling?
    ensures var run := trace[k].threads[c].run;
            && run < |trace[k].runs| && trace[k].runs[run].status == Running
            && (trace[k].runs[run].step == FinalCritic ==> RepairGave(trace[k].runs, trace[k].runs[run].input))
  {
    TraceIsSound(cfg, trace, events, k);
    hide Run;
    hide RepairGave;
    hide RepairRecorded;
    hide StepsUnique;
    hide RunFits;
    assert Owned(trace[k].threads[c]).Some?;
    assert ThreadFits(trace[k].runs, trace[k].threads[c]);
  }

  // ---- leaving RUNNING

  /** The event finishes run `r`. */
  predicate Finishes(x: System, x': System, r: nat) {
    r < |x.runs| && x.runs[r].status == Running && r < |x'.runs| && x'.runs[r].status != Running
  }

  function CountFinishes(trace: seq<System>, events: seq<Event>, r: nat): nat
    requires |trace| == |events| + 1
  {
    if events == [] then 0
    else
      var n := |events| - 1;
      CountFinishes(trace[..n + 1], events[..n], r) + if Finishes(trace[n], trace[n + 1], r) then 1 else 0
  }

  /** A run leaves RUNNING once if it has left it, and not before. */
  lemma {:induction false} LeavesRunningOnce(cfg: Config, trace: seq<System>, events: seq<Event>, r: nat)
    requires Run(cfg, trace, events)
    ensures var runs := trace[|events|].runs;
            CountFinishes(trace, events, r) == if r < |runs| && runs[r].status != Running then 1 else 0
    decreases |events|
  {
    hide Sound;
    hide Step;
    hide StepsUnique;
    if events != [] {
      var n := |events| - 1;
      LeavesRunningOnce(cfg, trace[..n + 1], events[..n], r);
      TraceIsSound(cfg, trace, events, n);
      FinishedIsFinal(cfg, trace[n], events[n], trace[n + 1]);
    }
  }

  /** A run is running exactly while a call owns it: one in flight, or one that was ended by an exception. */
  lemma RunningIffOwned(cfg: Config, trace: seq<System>, events: seq<Event>, k: nat, r: nat)
    requires Run(cfg, trace, events) && k <= |events| && r < |trace[k].runs|
    ensures trace[k].runs[r].status == Running <==> HasOwner(trace[k], r)
  {
    TraceIsSound(cfg, trace, events, k);
    hide Run;
    hide RunFits;
    hide ThreadFits;
    hide RepairRecorded;
    hide StepsUnique;
    if HasOwner(trace[k], r) {
      var c :| c in trace[k].threads && Owned(trace[k].threads[c]) == Some(r);
    }
  }

  /** Every answer given by then could be read, and a run could be marked as successful with it. */
  predicate AnswersMark(events: seq<Event>) {
    forall k | 0 <= k < |events| && events[k].Advance? :: AnswerMarks(events[k].w.answer)
  }

  predicate AnswerMarks(a: Answer) {
    a.Answered? ==> !a.reply.Unreadable? && Marks(a.terms)
  }

  /** The call has not been ended by an exception, and has no answer that will raise one in the marking. */
  predicate Unharmed(t: Thread) {
    !t.Aborted? && (t.RepairAnswered? ==> Marks(t.terms))
  }

  ghost predicate NoneAborted(x: System) {
    forall c | c in x.threads :: Unharmed(x.threads[c])
  }

  /** What the moving call may become, as far as answers are concerned. */
  predicate AnswerAllows(w: World, t: Thread, t': Thread) {
    Unharmed(t) && AnswerMarks(w.answer) ==> Unharmed(t')
  }

  lemma CriticMovesCaller(cfg: Config, w: World, x: System, c: nat, x': System)
    requires Advances(cfg, w, x, c, x')
    requires var t := x.threads[c]; t.Triggered? || t.Expecting? || t.HasRead? || t.Reserved? || t.Calling? || t.Failing?
    ensures c in x'.threads && x'.threads == x.threads[c := x'.threads[c]] && AnswerAllows(w, x.threads[c], x'.threads[c])
  {
    hide Find;
    hide ReadSnapshot;
    hide RepairedBy;
    hide Finish;
    hide Reserve;
    hide NameFits;
    hide UsageReads;
  }

  lemma RepairMovesCaller(cfg: Config, w: World, x: System, c: nat, x': System)
    requires Advances(cfg, w, x, c, x')
    requires var t := x.threads[c]; t.RepairAsked? || t.RepairReserved? || t.RepairCalling?
    ensures c in x'.threads && x'.threads == x.threads[c := x'.threads[c]] && AnswerAllows(w, x.threads[c], x'.threads[c])
  {
    hide Find;
    hide PlanFits;
    hide Build;
    hide ValidateRepair;
    hide RepairJson;
    hide Reserve;
    hide NameFits;
  }

  lemma ActivationMovesCaller(cfg: Config, w: World, x: System, c: nat, x': System)
    requires c in x.threads && x.threads[c].RepairAnswered? && RepairActivates(cfg, w, x, c, x.threads[c], x')
    ensures c in x'.threads && x'.threads == x.threads[c := x'.threads[c]] && AnswerAllows(w, x.threads[c], x'.threads[c])
  {
    hide Activate;
    hide Finish;
    hide NameFits;
  }

  /** Only the call that acts moves. */
  lemma OnlyCallerMoves(cfg: Config, w: World, x: System, c: nat, x': System)
    requires Advances(cfg, w, x, c, x')
    ensures c in x.threads && c in x'.threads && x'.threads == x.threads[c := x'.threads[c]]
    ensures AnswerAllows(w, x.threads[c], x'.threads[c])
    ensures x.threads[c].Aborted? ==> x' == x
  {
    hide CriticReads;
    hide FinalChecks;
    hide CriticReserves;
    hide CriticCalls;
    hide CriticAnswers;
    hide RepairReserves;
    hide RepairCalls;
    hide RepairAnswers;
    hide RepairActivates;
    hide StepFails;
    var t := x.threads[c];
    if t.Ended? || t.Aborted? {
      assert x.threads[c := x.threads[c]] == x.threads;
    } else if t.RepairAsked? || t.RepairReserved? || t.RepairCalling? {
      RepairMovesCaller(cfg, w, x, c, x');
    } else if t.RepairAnswered? {
      ActivationMovesCaller(cfg, w, x, c, x');
    } else {
      CriticMovesCaller(cfg, w, x, c, x');
    }
  }

  lemma AdvanceAbortsNone(cfg: Config, w: World, x: System, c: nat, x': System)
    requires NoneAborted(x) && Advances(cfg, w, x, c, x') && AnswerMarks(w.answer)
    ensures NoneAborted(x')
  {
    hide AnswerMarks;
    hide Unharmed;
    hide Advances;
    OnlyCallerMoves(cfg, w, x, c, x');
  }

  lemma {:induction false} MarkableAnswersAbortNone(cfg: Config, trace: seq<System>, events: seq<Event>, k: nat)
    requires Run(cfg, trace, events) && AnswersMark(events) && k <= |events|
    ensures NoneAborted(trace[k])
  {
    hide Advances;
    hide AnswerMarks;
    hide Marks;
    hide Changed;
    hide WithStoredEdits;
    hide Submittable;
    if k > 0 {
      MarkableAnswersAbortNone(cfg, trace, events, k - 1);
      assert Step(cfg, trace[k - 1], events[k - 1], trace[k]);
      if events[k - 1].Advance? {
        AdvanceAbortsNone(cfg, events[k - 1].w, trace[k - 1], events[k - 1].thread, trace[k]);
      }
    }
  }

  /**
   * Exactly once. When no call is in flight, every quality run has left RUNNING exactly once and is
   * successful or failed, provided every answer could be read and came with a name, a usage and texts
   * that a run can be marked with.
   */
  lemma EveryRunFinishesOnce(cfg: Config, trace: seq<System>, events: seq<Event>, r: nat)
    requires Run(cfg, trace, events) && AnswersMark(events) && r < |trace[|events|].runs|
    requires forall c | c in trace[|events|].threads :: var t := trace[|events|].threads[c]; t.Ended? || t.Aborted?
    ensures trace[|events|].runs[r].status == Success || trace[|events|].runs[r].status == Failed
    ensures CountFinishes(trace, events, r) == 1
  {
    LeavesRunningOnce(cfg, trace, events, r);
    RunningIffOwned(cfg, trace, events, |events|, r);
    MarkableAnswersAbortNone(cfg, trace, events, |events|);
    hide Run;
    hide AnswersMark;
    hide Marks;
    hide CountFinishes;
  }

  /** When no call is in flight, a run is still running if and only if the call that had reserved it was ended by an exception. */
  lemma RunningForGoodIffAborted(cfg: Config, trace: seq<System>, events: seq<Event>, r: nat)
    requires Run(cfg, trace, events) && r < |trace[|events|].runs|
    requires forall c | c in trace[|events|].threads :: var t := trace[|events|].threads[c]; t.Ended? || t.Aborted?
    ensures CountFinishes(trace, events, r) == 0 <==> exists c :: c in trace[|events|].threads && trace[|events|].threads[c] == Aborted(r)
  {
    LeavesRunningOnce(cfg, trace, events, r);
    RunningIffOwned(cfg, trace, events, |events|, r);
    hide Run;
    hide CountFinishes;
    var x := trace[|events|];
    if HasOwner(x, r) {
      var c :| c in x.threads && Owned(x.threads[c]) == Some(r);
      assert x.threads[c] == Aborted(r);
    }
    if exists c :: c in x.threads && x.threads[c] == Aborted(r) {
      var c :| c in x.threads && x.threads[c] == Aborted(r);
      assert Owned(x.threads[c]) == Some(r);
    }
  }

  /**
   * What the call that owns run `r` is about to do raises an exception nobody handles: it reads an
   * unreadable answer, marks the run as failed under a name that does not fit, or marks it as successful
   * with a name, a usage or texts that the run cannot be marked with.
   */
  ghost predicate Strands(cfg: Config, x: System, e: Event, r: nat) {
    && e.Advance? && e.thread in x.threads
    && var t, answer := x.threads[e.thread], e.w.answer;
       match t
       case Calling(run) => run == r && answer.Answered? && CriticStrands(answer.terms, answer.reply)
       case RepairCalling(run, _, _, _) =>
         run == r && answer.Answered?
         && (answer.reply.Unreadable? || (!RepairUsable(cfg, t, answer.reply) && !NameFits(answer.terms.model)))
       case RepairAnswered(run, plan, j, terms) =>
         run == r && if Activate(cfg, x.g, x.runs, e.w, run, plan, j).Refusal? then !NameFits(terms.model) else !Marks(terms)
       case _ => false
  }

  lemma CriticStranding(cfg: Config, w: World, x: System, c: nat, x': System, r: nat)
    requires Advances(cfg, w, x, c, x')
    requires var t := x.threads[c]; t.Triggered? || t.Expecting? || t.HasRead? || t.Reserved? || t.Calling? || t.Failing?
    ensures c in x'.threads && (x'.threads[c] == Aborted(r) <==> Strands(cfg, x, Advance(c, w), r))
  {
    hide Find;
    hide ReadSnapshot;
    hide RepairedBy;
    hide Finish;
    hide Reserve;
    hide NameFits;
    hide UsageReads;
  }

  lemma RepairStranding(cfg: Config, w: World, x: System, c: nat, x': System, r: nat)
    requires Advances(cfg, w, x, c, x')
    requires var t := x.threads[c]; t.RepairAsked? || t.RepairReserved? || t.RepairCalling?
    ensures c in x'.threads && (x'.threads[c] == Aborted(r) <==> Strands(cfg, x, Advance(c, w), r))
  {
    hide Find;
    hide PlanFits;
    hide Build;
    hide ValidateRepair;
    hide RepairUsable;
    hide RepairJson;
    hide Reserve;
    hide NameFits;
  }

  lemma ActivationStranding(cfg: Config, w: World, x: System, c: nat, x': System, r: nat)
    requires c in x.threads && x.threads[c].RepairAnswered? && RepairActivates(cfg, w, x, c, x.threads[c], x')
    ensures c in x'.threads && (x'.threads[c] == Aborted(r) <==> Strands(cfg, x, Advance(c, w), r))
  {
    hide Activate;
    hide Finish;
    hide NameFits;
    hide Marks;
  }

  lemma CallerStranding(cfg: Config, w: World, x: System, c: nat, x': System, r: nat)
    requires Advances(cfg, w, x, c, x')
    ensures c in x.threads && c in x'.threads
    ensures x'.threads[c] == Aborted(r) <==> x.threads[c] == Aborted(r) || Strands(cfg, x, Advance(c, w), r)
  {
    hide CriticReads;
    hide FinalChecks;
    hide CriticReserves;
    hide CriticCalls;
    hide CriticAnswers;
    hide RepairReserves;
    hide RepairCalls;
    hide RepairAnswers;
    hide RepairActivates;
    hide StepFails;
    hide Activate;
    hide RepairUsable;
    hide CriticStrands;
    hide NameFits;
    hide Marks;
    var t := x.threads[c];
    if t.RepairAsked? || t.RepairReserved? || t.RepairCalling? {
      RepairStranding(cfg, w, x, c, x', r);
    } else if t.RepairAnswered? {
      ActivationStranding(cfg, w, x, c, x', r);
    } else if !t.Ended? && !t.Aborted? {
      CriticStranding(cfg, w, x, c, x', r);
    }
  }

  lemma StrandedStep(cfg: Config, x: System, e: Event, x': System, c: nat, r: nat)
    requires Step(cfg, x, e, x')
    ensures c in x'.threads && x'.threads[c] == Aborted(r) <==>
              (c in x.threads && x.threads[c] == Aborted(r)) || (Strands(cfg, x, e, r) && e.thread == c)
  {
    hide Advances;
    hide AnswerAllows;
    hide Changed;
    hide WithStoredEdits;
    hide Submittable;
    if e.Advance? {
      assert e == Advance(e.thread, e.w);
      assert Strands(cfg, x, e, r) ==> e.thread in x.threads;
      hide Strands;
      OnlyCallerMoves(cfg, e.w, x, e.thread, x');
      CallerStranding(cfg, e.w, x, e.thread, x', r);
    }
  }

  ghost predicate Stranded(x: System, r: nat) {
    exists c :: c in x.threads && x.threads[c] == Aborted(r)
  }

  lemma StrandedAfterStep(cfg: Config, x: System, e: Event, x': System, r: nat)
    requires Step(cfg, x, e, x')
    ensures Stranded(x', r) <==> Stranded(x, r) || Strands(cfg, x, e, r)
  {
    hide Step;
    assert Strands(cfg, x, e, r) ==> e.Advance?;
    hide Strands;
    forall c
      ensures c in x'.threads && x'.threads[c] == Aborted(r) <==>
                (c in x.threads && x.threads[c] == Aborted(r)) || (Strands(cfg, x, e, r) && e.thread == c)
    {
      StrandedStep(cfg, x, e, x', c, r);
    }
    if Strands(cfg, x, e, r) {
      assert e.thread in x'.threads && x'.threads[e.thread] == Aborted(r);
    }
  }

  /** At every point a call has been ended by an exception if and only if an answer before has stranded its run. */
  lemma {:induction false} StrandedByAnAnswer(cfg: Config, trace: seq<System>, events: seq<Event>, k: nat, r: nat)
    requires Run(cfg, trace, events) && k <= |events|
    ensures Stranded(trace[k], r) <==> exists j | 0 <= j < k :: Strands(cfg, trace[j], events[j], r)
  {
    hide Step;
    hide Strands;
    if k > 0 {
      StrandedByAnAnswer(cfg, trace, events, k - 1, r);
      StrandedAfterStep(cfg, trace[k - 1], events[k - 1], trace[k], r);
      hide Stranded;
    }
  }

  /**
   * The exact condition, in terms of what the provider answers: once no call is in flight, a quality run
   * has never left RUNNING if and only if an answer has stranded it.
   */
  lemma NeverFinishedIffStranded(cfg: Config, trace: seq<System>, events: seq<Event>, r: nat)
    requires Run(cfg, trace, events) && r < |trace[|events|].runs|
    requires forall c | c in trace[|events|].threads :: var t := trace[|events|].threads[c]; t.Ended? || t.Aborted?
    ensures CountFinishes(trace, events, r) == 0 <==> exists j | 0 <= j < |events| :: Strands(cfg, trace[j], events[j], r)
  {
    RunningForGoodIffAborted(cfg, trace, events, r);
    StrandedByAnAnswer(cfg, trace, events, |events|, r);
    hide Run;
    hide CountFinishes;
    hide Strands;
  }

  /** And it stays so: the call never moves again, and no other call can finish the run. */
  lemma {:induction false} AbortedStays(cfg: Config, trace: seq<System>, events: seq<Event>, j: nat, k: nat, c: nat, run: nat)
    requires Run(cfg, trace, events) && j <= k <= |events| && c in trace[j].threads && trace[j].threads[c] == Aborted(run)
    ensures c in trace[k].threads && trace[k].threads[c] == Aborted(run)
    ensures run < |trace[k].runs| && trace[k].runs[run].status == Running
    decreases k
  {
    hide Sound;
    hide Step;
    if j < k {
      AbortedStays(cfg, trace, events, j, k - 1, c, run);
      assert Step(cfg, trace[k - 1], events[k - 1], trace[k]);
      StepKeepsAborted(cfg, trace[k - 1], events[k - 1], trace[k], c, run);
    }
    TraceIsSound(cfg, trace, events, k);
    AbortedRuns(cfg, trace[k], c, run);
  }

  lemma AbortedRuns(cfg: Config, x: System, c: nat, run: nat)
    requires Sound(cfg, x) && c in x.threads && x.threads[c] == Aborted(run)
    ensures run < |x.runs| && x.runs[run].status == Running
  {
    hide ThreadFits;
    hide RunFits;
    hide RepairRecorded;
    hide StepsUnique;
    assert Owned(x.threads[c]) == Some(run);
  }

  lemma StepKeepsAborted(cfg: Config, x: System, e: Event, x': System, c: nat, run: nat)
    requires Step(cfg, x, e, x') && c in x.threads && x.threads[c] == Aborted(run)
    ensures c in x'.threads && x'.threads[c] == Aborted(run)
  {
    hide Advances;
    hide AnswerAllows;
    hide Changed;
    hide WithStoredEdits;
    hide Submittable;
    if e.Advance? {
      OnlyCallerMoves(cfg, e.w, x, e.thread, x');
    }
  }

  // ---- where results come from

  /** The provider's answer to the call that owns run `r` is the list of findings the run is finished with. */
  predicate AnswersWith(x: System, e: Event, r: nat, result: Result) {
    && e.Advance? && e.thread in x.threads && x.threads[e.thread] == Calling(r)
    && e.w.answer.Answered? && Marks(e.w.answer.terms)
    && e.w.answer.reply.CriticReply? && result == Findings(e.w.answer.reply.findings)
  }

  /** The call that owns repair run `r` stores the preview it repaired, and records how. */
  ghost predicate ActivatesWith(cfg: Config, x: System, e: Event, x': System, r: nat, result: Result) {
    && e.Advance? && e.thread in x.threads && x.threads[e.thread].RepairAnswered? && x.threads[e.thread].run == r
    && var t := x.threads[e.thread];
       var a := Activate(cfg, x.g, x.runs, e.w, r, t.plan, t.payload);
       && a.Activation? && Marks(t.terms) && x'.g == x.g.(preview := a.preview)
       && result == RepairDone(a.patches, t.plan.findingIds, t.plan.snapshot, a.output)
  }

  predicate FinishesWith(x: System, x': System, r: nat) {
    r < |x.runs| && x.runs[r].status == Running && r < |x'.runs| && x'.runs[r].status == Success
  }

  lemma CriticSucceeds(cfg: Config, w: World, x: System, c: nat, x': System, r: nat)
    requires Advances(cfg, w, x, c, x') && FinishesWith(x, x', r)
    requires var t := x.threads[c]; t.Triggered? || t.Expecting? || t.HasRead? || t.Reserved? || t.Calling? || t.Failing?
    ensures AnswersWith(x, Advance(c, w), r, x'.runs[r].result)
  {
    hide Find;
    hide ReadSnapshot;
    hide RepairedBy;
    hide NameFits;
    hide UsageReads;
  }

  lemma RepairCannotSucceedYet(cfg: Config, w: World, x: System, c: nat, x': System, r: nat)
    requires Advances(cfg, w, x, c, x')
    requires var t := x.threads[c]; t.RepairAsked? || t.RepairReserved? || t.RepairCalling?
    ensures !FinishesWith(x, x', r)
  {
    hide Find;
    hide PlanFits;
    hide Build;
    hide ValidateRepair;
    hide RepairJson;
    hide RepairUsable;
    hide NameFits;
  }

  lemma RepairSucceeds(cfg: Config, w: World, x: System, c: nat, x': System, r: nat)
    requires c in x.threads && x.threads[c].RepairAnswered? && RepairActivates(cfg, w, x, c, x.threads[c], x')
    requires FinishesWith(x, x', r)
    ensures ActivatesWith(cfg, x, Advance(c, w), x', r, x'.runs[r].result)
  {
    hide Activate;
    hide NameFits;
    hide Marks;
  }

  lemma SuccessComesFrom(cfg: Config, x: System, e: Event, x': System, r: nat)
    requires Step(cfg, x, e, x') && FinishesWith(x, x', r)
    ensures AnswersWith(x, e, r, x'.runs[r].result) || ActivatesWith(cfg, x, e, x', r, x'.runs[r].result)
  {
    hide Changed;
    hide WithStoredEdits;
    hide Submittable;
    hide CriticReads;
    hide FinalChecks;
    hide CriticReserves;
    hide CriticCalls;
    hide CriticAnswers;
    hide RepairReserves;
    hide RepairCalls;
    hide RepairAnswers;
    hide RepairActivates;
    hide StepFails;
    hide Activate;
    hide Marks;
    if e.Advance? {
      assert e == Advance(e.thread, e.w);
      var t := x.threads[e.thread];
      if t.RepairAsked? || t.RepairReserved? || t.RepairCalling? {
        RepairCannotSucceedYet(cfg, e.w, x, e.thread, x', r);
      } else if t.RepairAnswered? {
        RepairSucceeds(cfg, e.w, x, e.thread, x', r);
      } else if !t.Ended? && !t.Aborted? {
        CriticSucceeds(cfg, e.w, x, e.thread, x', r);
      }
    }
  }

  /** Every successful run was finished at some moment, with the result it has. */
  lemma {:induction false} SuccessHasMoment(cfg: Config, trace: seq<System>, events: seq<Event>, k: nat, r: nat) returns (j: nat)
    requires Run(cfg, trace, events) && k <= |events| && r < |trace[k].runs| && trace[k].runs[r].status == Success
    ensures j < k && FinishesWith(trace[j], trace[j + 1], r) && trace[j + 1].runs[r] == trace[k].runs[r]
  {
    hide Sound;
    hide Step;
    hide StepsUnique;
    j := 0;
    if k > 0 {
      TraceIsSound(cfg, trace, events, k - 1);
      FinishedIsFinal(cfg, trace[k - 1], events[k - 1], trace[k]);
      j := k - 1;
      if !FinishesWith(trace[k - 1], trace[k], r) {
        j := SuccessHasMoment(cfg, trace, events, k - 1, r);
      }
    }
  }

  /** The thread that finishes run `r` has its kind of step. */
  lemma OwnerFitsStep(cfg: Config, x: System, e: Event, x': System, r: nat, result: Result)
    requires Sound(cfg, x) && r < |x.runs|
    ensures AnswersWith(x, e, r, result) ==> x.runs[r].step != RepairStep
    ensures ActivatesWith(cfg, x, e, x', r, result) ==> x.runs[r].step == RepairStep
  {
    if e.Advance? && e.thread in x.threads {
      ThreadAt(cfg, x, e.thread);
    }
    hide Sound;
    hide Activate;
    hide Marks;
    hide RepairGave;
  }

  /** The findings of a successful critic are those the provider answered to the call that owned its run. */
  lemma FindingsWereAnswered(cfg: Config, trace: seq<System>, events: seq<Event>, k: nat, r: nat)
    requires Run(cfg, trace, events) && k <= |events| && r < |trace[k].runs|
    requires trace[k].runs[r].status == Success && trace[k].runs[r].step != RepairStep
    ensures exists j | 0 <= j < k :: AnswersWith(trace[j], events[j], r, trace[k].runs[r].result)
  {
    var j := SuccessHasMoment(cfg, trace, events, k, r);
    TraceIsSound(cfg, trace, events, j);
    assert Step(cfg, trace[j], events[j], trace[j + 1]);
    hide Run;
    hide Sound;
    hide Step;
    hide AnswersWith;
    hide ActivatesWith;
    SuccessComesFrom(cfg, trace[j], events[j], trace[j + 1], r);
    OwnerFitsStep(cfg, trace[j], events[j], trace[j + 1], r, trace[k].runs[r].result);
    TraceKeepsStep(cfg, trace, events, j, k, r);
  }

  lemma TraceKeepsStep(cfg: Config, trace: seq<System>, events: seq<Event>, j: nat, k: nat, r: nat)
    requires Run(cfg, trace, events) && j <= k <= |events| && r < |trace[j].runs|
    ensures r < |trace[k].runs| && trace[k].runs[r].step == trace[j].runs[r].step
  {
    TraceGrows(cfg, trace, events, j, k);
    hide Run;
    hide StepsUnique;
  }

  /** The provider's answer to a repair, checked and normalised, is what the call goes on with. */
  ghost predicate AnswersRepair(cfg: Config, x: System, e: Event, t: Thread) {
    && e.Advance? && e.thread in x.threads && x.threads[e.thread].RepairCalling? && t.RepairAnswered?
    && var asked, answer := x.threads[e.thread], e.w.answer;
       && asked.run == t.run && asked.plan == t.plan && answer.Answered? && answer.terms == t.terms
       && answer.reply.RepairReply? && Full(asked.before.options)
       && var patches := ValidateRepair(cfg.rules, asked.facts, asked.plan.targets, asked.before, answer.reply.payload);
          patches.Some? && t.payload == RepairJson(patches.value)
  }

  lemma CriticNeverAnswersRepair(cfg: Config, w: World, x: System, c: nat, x': System)
    requires Advances(cfg, w, x, c, x') && !x.threads[c].RepairCalling? && !x.threads[c].RepairAnswered?
    ensures c in x'.threads ==> !x'.threads[c].RepairAnswered?
  {
    hide Find;
    hide PlanFits;
    hide Build;
    hide ReadSnapshot;
    hide RepairedBy;
    hide Finish;
    hide Reserve;
    hide Marks;
    hide NameFits;
  }

  lemma RepairIsAnswered(cfg: Config, w: World, x: System, c: nat, x': System)
    requires c in x.threads && x.threads[c].RepairCalling? && RepairAnswers(cfg, w, x, c, x.threads[c], x')
    ensures c in x'.threads && (x'.threads[c].RepairAnswered? ==> AnswersRepair(cfg, x, Advance(c, w), x'.threads[c]))
  {
    hide ValidateRepair;
    hide RepairJson;
    hide NameFits;
  }

  lemma ActivationLeaves(cfg: Config, w: World, x: System, c: nat, x': System)
    requires c in x.threads && x.threads[c].RepairAnswered? && RepairActivates(cfg, w, x, c, x.threads[c], x')
    ensures c in x'.threads && !x'.threads[c].RepairAnswered?
  {
    hide Activate;
    hide Finish;
    hide NameFits;
    hide Marks;
  }

  lemma AnsweredByStep(cfg: Config, x: System, e: Event, x': System, c: nat)
    requires Step(cfg, x, e, x') && c in x'.threads && x'.threads[c].RepairAnswered?
    ensures (c in x.threads && x.threads[c] == x'.threads[c]) || AnswersRepair(cfg, x, e, x'.threads[c])
  {
    hide Changed;
    hide WithStoredEdits;
    hide Submittable;
    hide AnswerAllows;
    hide AnswersRepair;
    if e.Advance? {
      OnlyCallerMoves(cfg, e.w, x, e.thread, x');
      hide CriticReads;
      hide FinalChecks;
      hide CriticReserves;
      hide CriticCalls;
      hide CriticAnswers;
      hide RepairReserves;
      hide RepairCalls;
      hide RepairAnswers;
      hide RepairActivates;
      hide StepFails;
      assert e == Advance(e.thread, e.w);
      if e.thread == c {
        if x.threads[c].RepairCalling? {
          RepairIsAnswered(cfg, e.w, x, c, x');
        } else if x.threads[c].RepairAnswered? {
          ActivationLeaves(cfg, e.w, x, c, x');
        } else {
          CriticNeverAnswersRepair(cfg, e.w, x, c, x');
        }
      }
    }
  }

  lemma {:induction false} AnswerCameBefore(cfg: Config, trace: seq<System>, events: seq<Event>, j: nat, c: nat) returns (i: nat)
    requires Run(cfg, trace, events) && j <= |events| && c in trace[j].threads && trace[j].threads[c].RepairAnswered?
    ensures i < j && AnswersRepair(cfg, trace[i], events[i], trace[j].threads[c])
  {
    hide Step;
    hide AnswersRepair;
    i := 0;
    if j > 0 {
      AnsweredByStep(cfg, trace[j - 1], events[j - 1], trace[j], c);
      i := j - 1;
      if !AnswersRepair(cfg, trace[j - 1], events[j - 1], trace[j].threads[c]) {
        i := AnswerCameBefore(cfg, trace, events, j - 1, c);
      }
    }
  }

  /** A successful repair stored the preview and recorded the patches that the provider's own answer amounts to. */
  lemma RepairWasAnswered(cfg: Config, trace: seq<System>, events: seq<Event>, k: nat, r: nat)
    requires Run(cfg, trace, events) && k <= |events| && r < |trace[k].runs|
    requires trace[k].runs[r].status == Success && trace[k].runs[r].step == RepairStep
    ensures exists i, j | 0 <= i < j < k ::
              && ActivatesWith(cfg, trace[j], events[j], trace[j + 1], r, trace[k].runs[r].result)
              && AnswersRepair(cfg, trace[i], events[i], trace[j].threads[events[j].thread])
  {
    var j := SuccessHasMoment(cfg, trace, events, k, r);
    TraceIsSound(cfg, trace, events, j);
    assert Step(cfg, trace[j], events[j], trace[j + 1]);
    TraceKeepsStep(cfg, trace, events, j, k, r);
    hide Run;
    hide Sound;
    hide Step;
    hide AnswersWith;
    hide AnswersRepair;
    SuccessComesFrom(cfg, trace[j], events[j], trace[j + 1], r);
    OwnerFitsStep(cfg, trace[j], events[j], trace[j + 1], r, trace[k].runs[r].result);
    assert events[j].Advance? && trace[j].threads[events[j].thread].RepairAnswered?;
    hide ActivatesWith;
    var i := AnswerCameBefore(cfg, trace, events, j, events[j].thread);
  }

  // ---- what an activation changes

  /** Run ids and digests are written as visible texts. */
  ghost predicate Writable(cfg: Config) {
    (forall r: nat :: TextOk(Str(cfg.runText(r)))) && (forall s: Snapshot :: TextOk(Str(cfg.digest(s))))
  }

  lemma PatchesAreAccepted(cfg: Config, g: Generation, runs: seq<QualityRun>, w: World, plan: Plan, j: Json, patches: seq<Patch>)
    requires PlanFits(cfg, g, runs, w, plan) && !HasRepair(g.preview) && PatchesNow(cfg, g, w, plan, j) == Some(patches)
    ensures Build(cfg.rules, w.current.facts, g.preview).Built?
    ensures RepairAccepted(cfg.rules, w.current.facts, g.preview, Build(cfg.rules, w.current.facts, g.preview).payload,
              plan.targets, j, patches)
  {
    PlanIsAllowed(cfg, g, runs, w, plan);
    hide PlanFits;
    hide Build;
    hide ValidateRepair;
    hide HasRepair;
    hide EditsOf;
    hide Ordered;
  }

  lemma SnapshotIsBuilt(rules: Rules, c: Context, preview: Preview)
    ensures SnapshotOf(rules, c, preview).Some? ==>
              Build(rules, c.facts, preview) == Built(SnapshotOf(rules, c, preview).value.payload)
  {
    hide Build;
  }

  /**
   * A repair activated in the pipeline is framed: the effective payload changes at exactly the plan's
   * targets, to the normalised patches, every human edit stays in effect, and what the repair is
   * recorded to have produced is the new effective payload.
   */
  lemma ActivationIsFramed(cfg: Config, w: World, x: System, run: nat, plan: Plan, j: Json)
    requires Sound(cfg, x) && Writable(cfg) && Activate(cfg, x.g, x.runs, w, run, plan, j).Activation?
    ensures var a := Activate(cfg, x.g, x.runs, w, run, plan, j);
            var before := Build(cfg.rules, w.current.facts, x.g.preview);
            && before.Built?
            && Framed(cfg.rules, w.current.facts, x.g.preview, before.payload, plan.targets, j, a.preview)
            && a.output.payload == Replaced(before.payload, plan.targets, j)
  {
    hide Sound;
    hide Activate;
    hide PlanFits;
    hide PatchesNow;
    hide Activated;
    hide Build;
    hide SnapshotOf;
    hide RepairAccepted;
    hide TextOk;
    hide HasRepair;
    hide Distinguishable;
    ActivatedIs(cfg, x.g, x.runs, w, run, plan, j);
    RunningRepairIsUnrecorded(cfg, x, run);
    var a := Activate(cfg, x.g, x.runs, w, run, plan, j);
    PatchesAreAccepted(cfg, x.g, x.runs, w, plan, j, a.patches);
    var before := Build(cfg.rules, w.current.facts, x.g.preview).payload;
    RepairFrame(cfg.rules, w.current.facts, x.g.preview, before, plan.targets, j, a.patches, cfg.runText(run), cfg.digest(plan.snapshot));
    SnapshotIsBuilt(cfg.rules, w.current, a.preview);
    hide RepairedBase;
    hide Replaced;
    hide EditsOf;
  }
}
