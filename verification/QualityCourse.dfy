/** A service call that runs without interruption, as a course of the actions of one thread of the pipeline. */
module QualityCourse {
  import opened Options
  import opened Answers
  import opened Payloads
  import opened Effective
  import opened Repair
  import opened QualityModel

  /** Call `c` acts again and again in world `w`, from `x` to `x'`. */
  ghost predicate Reaches(cfg: Config, w: World, x: System, c: nat, x': System) {
    exists trace: seq<System> :: Course(cfg, w, c, trace) && trace[0] == x && trace[|trace| - 1] == x'
  }

  ghost predicate Course(cfg: Config, w: World, c: nat, trace: seq<System>) {
    trace != [] && forall k | 0 < k < |trace| :: Advances(cfg, w, trace[k - 1], c, trace[k])
  }

  lemma Stays(cfg: Config, w: World, x: System, c: nat)
    ensures Reaches(cfg, w, x, c, x)
  {
    assert Course(cfg, w, c, [x]);
  }

  lemma Onward(cfg: Config, w: World, x: System, c: nat, y: System, z: System)
    requires Reaches(cfg, w, x, c, y) && Advances(cfg, w, y, c, z)
    ensures Reaches(cfg, w, x, c, z)
  {
    hide Advances;
    var trace: seq<System> :| Course(cfg, w, c, trace) && trace[0] == x && trace[|trace| - 1] == y;
    var longer := trace + [z];
    assert Course(cfg, w, c, longer);
  }

  /** The rows with one call in flight. */
  function Alone(g: Generation, runs: seq<QualityRun>, t: Thread): System {
    System(g, runs, map[0 := t], multiset{}, {})
  }

  /** A call that starts as `t` and runs to its end takes the rows from `(g, runs)` to `(g', runs')`. */
  ghost predicate RunsTo(cfg: Config, w: World, g: Generation, runs: seq<QualityRun>, t: Thread, g': Generation, runs': seq<QualityRun>) {
    exists x': System :: Reaches(cfg, w, Alone(g, runs, t), 0, x') && x'.g == g' && x'.runs == runs'
      && 0 in x'.threads && (x'.threads[0].Ended? || x'.threads[0].Aborted?)
  }

  lemma Arrives(cfg: Config, w: World, g: Generation, runs: seq<QualityRun>, t: Thread, x': System)
    requires Reaches(cfg, w, Alone(g, runs, t), 0, x') && 0 in x'.threads && (x'.threads[0].Ended? || x'.threads[0].Aborted?)
    ensures RunsTo(cfg, w, g, runs, t, x'.g, x'.runs)
  {
    hide Reaches;
    hide Alone;
  }

  // ---- a critic

  /** What a critic leaves of the run it reserved for `snapshot`; an answer that makes it raise leaves it running. */
  function Judged(w: World, snapshot: Snapshot, expected: Option<Snapshot>, step: StepType): QualityRun {
    if (expected != None && expected != Some(snapshot)) || !w.mayCall || w.answer.NoAnswer?
    then QualityRun(step, Failed, snapshot, NoResult)
    else if CriticStrands(w.answer.terms, w.answer.reply) then QualityRun(step, Running, snapshot, NoResult)
    else if w.answer.reply.CriticReply? then QualityRun(step, Success, snapshot, Findings(w.answer.reply.findings))
    else QualityRun(step, Failed, snapshot, NoResult)
  }

  /** A run that is failing ends failed. */
  lemma FailingEnds(cfg: Config, w: World, x: System, y: System, run: nat)
    requires Reaches(cfg, w, x, 0, y) && 0 in y.threads && y.threads[0] == Failing(run) && run < |y.runs|
    ensures Reaches(cfg, w, x, 0, Moved(y.(runs := Finish(y.runs, run, Status.Failed, NoResult)), 0, Ended))
  {
    hide Reaches;
    Onward(cfg, w, x, 0, y, Moved(y.(runs := Finish(y.runs, run, Status.Failed, NoResult)), 0, Ended));
  }

  /** From the answer on. */
  lemma CriticEnds(cfg: Config, w: World, x: System, y: System, snapshot: Snapshot, step: StepType, before: seq<QualityRun>)
    requires Reaches(cfg, w, x, 0, y) && y.runs == before + [QualityRun(step, Running, snapshot, NoResult)]
    requires 0 in y.threads && y.threads[0] == Calling(|before|) && w.mayCall
    ensures exists z: System :: Reaches(cfg, w, x, 0, z) && z.g == y.g && z.runs == before + [Judged(w, snapshot, None, step)]
              && 0 in z.threads && (z.threads[0].Ended? || z.threads[0].Aborted?)
  {
    hide Reaches;
    hide NameFits;
    hide UsageReads;
    var run := |before|;
    if w.answer.Answered? && CriticStrands(w.answer.terms, w.answer.reply) {
      Onward(cfg, w, x, 0, y, Moved(y, 0, Aborted(run)));
    } else if w.answer.Answered? && w.answer.reply.CriticReply? {
      Onward(cfg, w, x, 0, y, Moved(y.(runs := Finish(y.runs, run, Success, Findings(w.answer.reply.findings))), 0, Ended));
    } else {
      Onward(cfg, w, x, 0, y, Moved(y, 0, Failing(run)));
      FailingEnds(cfg, w, x, Moved(y, 0, Failing(run)), run);
    }
  }

  lemma CriticReservesAlone(cfg: Config, w: World, x: System, y: System, step: StepType, snapshot: Snapshot, expected: Option<Snapshot>)
    requires Reaches(cfg, w, x, 0, y) && 0 in y.threads && y.threads[0] == HasRead(step, snapshot, expected)
    ensures if Find(y.runs, step).Some? then Reaches(cfg, w, x, 0, Moved(y, 0, Ended))
            else Reaches(cfg, w, x, 0, Moved(y.(runs := y.runs + [QualityRun(step, Running, snapshot, NoResult)]), 0, Reserved(|y.runs|, expected)))
  {
    hide Reaches;
    hide Find;
    if Find(y.runs, step).Some? {
      Onward(cfg, w, x, 0, y, Moved(y, 0, Ended));
    } else {
      Onward(cfg, w, x, 0, y,
        Moved(y.(runs := y.runs + [QualityRun(step, Running, snapshot, NoResult)]), 0, Reserved(|y.runs|, expected)));
    }
  }

  /** From the snapshot on, a critic goes the way `Judged` says. */
  lemma CriticGoesOn(cfg: Config, w: World, x: System, y: System, step: StepType, snapshot: Snapshot, expected: Option<Snapshot>)
    requires Reaches(cfg, w, x, 0, y) && 0 in y.threads && y.threads[0] == HasRead(step, snapshot, expected)
    ensures exists z: System :: Reaches(cfg, w, x, 0, z) && z.g == y.g && 0 in z.threads && (z.threads[0].Ended? || z.threads[0].Aborted?)
              && z.runs == if Find(y.runs, step).Some? then y.runs else y.runs + [Judged(w, snapshot, expected, step)]
  {
    hide Reaches;
    hide CriticStrands;
    CriticReservesAlone(cfg, w, x, y, step, snapshot, expected);
    hide Find;
    if Find(y.runs, step).None? {
      var run := |y.runs|;
      var reserved := Moved(y.(runs := y.runs + [QualityRun(step, Running, snapshot, NoResult)]), 0, Reserved(run, expected));
      if (expected.Some? && snapshot != expected.value) || !w.mayCall {
        Onward(cfg, w, x, 0, reserved, Moved(reserved, 0, Failing(run)));
        FailingEnds(cfg, w, x, Moved(reserved, 0, Failing(run)), run);
      } else {
        var calling := Moved(reserved.(called := reserved.called + {run}), 0, Calling(run));
        Onward(cfg, w, x, 0, reserved, calling);
        CriticEnds(cfg, w, x, calling, snapshot, step, y.runs);
      }
    }
  }

  /** A critic that has read `snapshot` runs to what `Judged` says. */
  lemma CriticRuns(cfg: Config, w: World, g: Generation, runs: seq<QualityRun>, step: StepType, snapshot: Snapshot, expected: Option<Snapshot>)
    ensures RunsTo(cfg, w, g, runs, HasRead(step, snapshot, expected), g,
              if Find(runs, step).Some? then runs else runs + [Judged(w, snapshot, expected, step)])
  {
    var x := Alone(g, runs, HasRead(step, snapshot, expected));
    Stays(cfg, w, x, 0);
    CriticGoesOn(cfg, w, x, x, step, snapshot, expected);
    hide Reaches;
    hide Judged;
    hide Find;
  }

  /** From reading the preview on. */
  lemma CriticReadsOn(cfg: Config, w: World, x: System, y: System, step: StepType, expected: Option<Snapshot>)
    requires Reaches(cfg, w, x, 0, y) && 0 in y.threads
    requires if step == FinalCritic then expected.Some? && y.threads[0] == Expecting(expected.value)
             else step == InitialCritic && expected == None && y.threads[0] == Triggered(step)
    ensures exists z: System :: Reaches(cfg, w, x, 0, z) && z.g == y.g && 0 in z.threads && (z.threads[0].Ended? || z.threads[0].Aborted?)
              && z.runs == match ReadSnapshot(cfg, y.g)
                           case None => y.runs
                           case Some(snapshot) =>
                             if Find(y.runs, step).Some? then y.runs else y.runs + [Judged(w, snapshot, expected, step)]
  {
    hide Reaches;
    hide ReadSnapshot;
    hide Find;
    hide Judged;
    match ReadSnapshot(cfg, y.g)
    case None => Onward(cfg, w, x, 0, y, Moved(y, 0, Ended));
    case Some(snapshot) =>
      Onward(cfg, w, x, 0, y, Moved(y, 0, HasRead(step, snapshot, expected)));
      CriticGoesOn(cfg, w, x, Moved(y, 0, HasRead(step, snapshot, expected)), step, snapshot, expected);
  }

  lemma InitialRuns(cfg: Config, w: World, g: Generation, runs: seq<QualityRun>)
    ensures RunsTo(cfg, w, g, runs, Triggered(InitialCritic), g,
              match ReadSnapshot(cfg, g)
              case None => runs
              case Some(snapshot) =>
                if Find(runs, InitialCritic).Some? then runs else runs + [Judged(w, snapshot, None, InitialCritic)])
  {
    var x := Alone(g, runs, Triggered(InitialCritic));
    Stays(cfg, w, x, 0);
    CriticReadsOn(cfg, w, x, x, InitialCritic, None);
    hide Reaches;
    hide Judged;
    hide Find;
    hide ReadSnapshot;
  }

  /** The output of the repair the preview is bound to, if there was a successful one. */
  function BoundOutput(cfg: Config, g: Generation, runs: seq<QualityRun>): Option<Snapshot> {
    var repair := Find(runs, RepairStep);
    if repair.Some? && runs[repair.value].status == Success && RepairedBy(cfg, g.preview, repair.value)
       && runs[repair.value].result.RepairDone?
    then Some(runs[repair.value].result.output) else None
  }

  lemma FinalRuns(cfg: Config, w: World, g: Generation, runs: seq<QualityRun>)
    ensures RunsTo(cfg, w, g, runs, Triggered(FinalCritic), g,
              if BoundOutput(cfg, g, runs).None? || ReadSnapshot(cfg, g).None? || Find(runs, FinalCritic).Some? then runs
              else runs + [Judged(w, ReadSnapshot(cfg, g).value, BoundOutput(cfg, g, runs), FinalCritic)])
  {
    var x := Alone(g, runs, Triggered(FinalCritic));
    Stays(cfg, w, x, 0);
    hide Reaches;
    hide Judged;
    hide ReadSnapshot;
    hide RepairedBy;
    var output := BoundOutput(cfg, g, runs);
    if output.None? {
      Onward(cfg, w, x, 0, x, Moved(x, 0, Ended));
    } else {
      Onward(cfg, w, x, 0, x, Moved(x, 0, Expecting(output.value)));
      hide BoundOutput;
      hide Find;
      CriticReadsOn(cfg, w, x, Moved(x, 0, Expecting(output.value)), FinalCritic, output);
    }
  }

  // ---- a repair

  /** What a repair reserved for `plan` leaves of the generation run and of its own run, the last of `runs`. */
  ghost function Mended(cfg: Config, w: World, g: Generation, runs: seq<QualityRun>, plan: Plan): (Generation, QualityRun)
    requires runs != []
  {
    var run := |runs| - 1;
    var failed := (g, runs[run].(status := Status.Failed, result := NoResult));
    match Build(cfg.rules, w.current.facts, g.preview)
    case Refused(_) => failed
    case Built(before) =>
      if !w.mayCall || w.answer.NoAnswer? then failed
      else
        var Answered(terms, reply) := w.answer;
        if reply.Unreadable? then (g, runs[run])
        else if !reply.RepairReply? || ValidateRepair(cfg.rules, w.current.facts, plan.targets, before, reply.payload).None? then
          if NameFits(terms.model) then failed else (g, runs[run])
        else
          var patches := ValidateRepair(cfg.rules, w.current.facts, plan.targets, before, reply.payload).value;
          match Activate(cfg, g, runs, w, run, plan, RepairJson(patches))
          case Refusal => if NameFits(terms.model) then failed else (g, runs[run])
          case Activation(preview, stored, output) =>
            if Marks(terms) then
              (g.(preview := preview),
                runs[run].(status := Success, result := RepairDone(stored, plan.findingIds, plan.snapshot, output)))
            else (g, runs[run])
  }

  ghost predicate Settles(cfg: Config, w: World, x: System, g: Generation, runs: seq<QualityRun>) {
    exists z: System :: Reaches(cfg, w, x, 0, z) && z.g == g && z.runs == runs
      && 0 in z.threads && (z.threads[0].Ended? || z.threads[0].Aborted?)
  }

  lemma SettlesRuns(cfg: Config, w: World, g: Generation, runs: seq<QualityRun>, t: Thread, g': Generation, runs': seq<QualityRun>)
    requires Settles(cfg, w, Alone(g, runs, t), g', runs')
    ensures RunsTo(cfg, w, g, runs, t, g', runs')
  {
    hide Reaches;
    hide Alone;
  }

  /** A call that is failing, or would be but for the model's name. */
  lemma UnmarkedSettles(cfg: Config, w: World, x: System, y: System, run: nat, named: bool)
    requires Reaches(cfg, w, x, 0, y) && 0 in y.threads && run == |y.runs| - 1 && y.runs[run].status == Running
    requires y.threads[0] == if named then Failing(run) else Aborted(run)
    ensures Settles(cfg, w, x, y.g,
              if named then y.runs[..run] + [y.runs[run].(status := Status.Failed, result := NoResult)] else y.runs)
  {
    hide Reaches;
    if named {
      FailingEnds(cfg, w, x, y, run);
      var last := y.runs[run].(status := Status.Failed, result := NoResult);
      assert Finish(y.runs, run, Status.Failed, NoResult) == y.runs[..run] + [last];
    }
  }

  lemma ActivationSettles(cfg: Config, w: World, x: System, y: System, run: nat, plan: Plan, j: Json, terms: Terms)
    requires Reaches(cfg, w, x, 0, y) && 0 in y.threads && y.threads[0] == RepairAnswered(run, plan, j, terms)
    requires run == |y.runs| - 1 && y.runs[run].status == Running
    ensures match Activate(cfg, y.g, y.runs, w, run, plan, j)
            case Refusal =>
              Settles(cfg, w, x, y.g, if NameFits(terms.model) then y.runs[..run] + [y.runs[run].(status := Status.Failed, result := NoResult)]
                                      else y.runs)
            case Activation(preview, stored, output) =>
              if Marks(terms) then
                Settles(cfg, w, x, y.g.(preview := preview),
                  y.runs[..run] + [y.runs[run].(status := Success, result := RepairDone(stored, plan.findingIds, plan.snapshot, output))])
              else Settles(cfg, w, x, y.g, y.runs)
  {
    hide Reaches;
    hide NameFits;
    hide Marks;
    hide Activate;
    match Activate(cfg, y.g, y.runs, w, run, plan, j)
    case Refusal =>
      Onward(cfg, w, x, 0, y, Moved(y, 0, Unmarked(run, terms)));
      UnmarkedSettles(cfg, w, x, Moved(y, 0, Unmarked(run, terms)), run, NameFits(terms.model));
    case Activation(preview, stored, output) =>
      if Marks(terms) {
        var result := RepairDone(stored, plan.findingIds, plan.snapshot, output);
        var z := WithFinalDue(WithInitialDue(Moved(
          y.(g := y.g.(preview := preview), runs := Finish(y.runs, run, Success, result)), 0, Ended)));
        Onward(cfg, w, x, 0, y, z);
        assert z.runs == y.runs[..run] + [y.runs[run].(status := Success, result := result)];
      } else {
        Onward(cfg, w, x, 0, y, Moved(y, 0, Aborted(run)));
      }
  }

  lemma UsableAnswerSettles(cfg: Config, w: World, x: System, y: System, run: nat, plan: Plan)
    requires Reaches(cfg, w, x, 0, y) && 0 in y.threads && run == |y.runs| - 1 && y.runs[run].status == Running
    requires Build(cfg.rules, w.current.facts, y.g.preview).Built? && w.mayCall && w.answer.Answered? && !w.answer.reply.Unreadable?
    requires y.threads[0] == RepairCalling(run, plan, Build(cfg.rules, w.current.facts, y.g.preview).payload, w.current.facts)
    requires RepairUsable(cfg, y.threads[0], w.answer.reply)
    ensures var m := Mended(cfg, w, y.g, y.runs, plan); Settles(cfg, w, x, m.0, y.runs[..run] + [m.1])
  {
    hide Reaches;
    hide Settles;
    hide NameFits;
    hide Marks;
    hide Activate;
    hide ValidateRepair;
    hide RepairJson;
    hide Build;
    var t, reply := y.threads[0], w.answer.reply;
    assert y.runs == y.runs[..run] + [y.runs[run]];
    var j := RepairJson(ValidateRepair(cfg.rules, t.facts, plan.targets, t.before, reply.payload).value);
    var z := Moved(y, 0, RepairAnswered(run, plan, j, w.answer.terms));
    Onward(cfg, w, x, 0, y, z);
    ActivationSettles(cfg, w, x, z, run, plan, j, w.answer.terms);
  }

  lemma AnswerSettles(cfg: Config, w: World, x: System, y: System, run: nat, plan: Plan)
    requires Reaches(cfg, w, x, 0, y) && 0 in y.threads && run == |y.runs| - 1 && y.runs[run].status == Running
    requires Build(cfg.rules, w.current.facts, y.g.preview).Built? && w.mayCall
    requires y.threads[0] == RepairCalling(run, plan, Build(cfg.rules, w.current.facts, y.g.preview).payload, w.current.facts)
    ensures var m := Mended(cfg, w, y.g, y.runs, plan); Settles(cfg, w, x, m.0, y.runs[..run] + [m.1])
  {
    hide Reaches;
    hide Settles;
    hide NameFits;
    hide Marks;
    hide Activate;
    hide ValidateRepair;
    hide RepairJson;
    hide Build;
    var t := y.threads[0];
    assert y.runs == y.runs[..run] + [y.runs[run]];
    if w.answer.NoAnswer? {
      Onward(cfg, w, x, 0, y, Moved(y, 0, Failing(run)));
      UnmarkedSettles(cfg, w, x, Moved(y, 0, Failing(run)), run, true);
    } else if w.answer.reply.Unreadable? {
      Onward(cfg, w, x, 0, y, Moved(y, 0, Aborted(run)));
      UnmarkedSettles(cfg, w, x, Moved(y, 0, Aborted(run)), run, false);
    } else if RepairUsable(cfg, t, w.answer.reply) {
      UsableAnswerSettles(cfg, w, x, y, run, plan);
    } else {
      var z := Moved(y, 0, Unmarked(run, w.answer.terms));
      Onward(cfg, w, x, 0, y, z);
      UnmarkedSettles(cfg, w, x, z, run, NameFits(w.answer.terms.model));
    }
  }

  lemma ReservedSettles(cfg: Config, w: World, x: System, y: System, run: nat, plan: Plan)
    requires Reaches(cfg, w, x, 0, y) && 0 in y.threads && run == |y.runs| - 1 && y.runs[run].status == Running
    requires y.threads[0] == RepairReserved(run, plan) && PlanFits(cfg, y.g, y.runs, w, plan)
    ensures var m := Mended(cfg, w, y.g, y.runs, plan); Settles(cfg, w, x, m.0, y.runs[..run] + [m.1])
  {
    hide Reaches;
    hide Settles;
    hide PlanFits;
    hide Build;
    var built := Build(cfg.rules, w.current.facts, y.g.preview);
    if built.Built? && w.mayCall {
      var z := Moved(y.(called := y.called + {run}), 0, RepairCalling(run, plan, built.payload, w.current.facts));
      Onward(cfg, w, x, 0, y, z);
      AnswerSettles(cfg, w, x, z, run, plan);
    } else {
      Onward(cfg, w, x, 0, y, Moved(y, 0, Failing(run)));
      UnmarkedSettles(cfg, w, x, Moved(y, 0, Failing(run)), run, true);
    }
  }

  /** A repair runs to what `Mended` says if one can be reserved, and changes nothing otherwise. */
  lemma RepairRuns(cfg: Config, w: World, g: Generation, runs: seq<QualityRun>, plan: Plan)
    requires Find(runs, RepairStep).None? && PlanFits(cfg, g, runs, w, plan)
    requires var reserved := runs + [QualityRun(RepairStep, Running, plan.snapshot, NoResult)]; PlanFits(cfg, g, reserved, w, plan)
    ensures var reserved := runs + [QualityRun(RepairStep, Running, plan.snapshot, NoResult)];
            var m := Mended(cfg, w, g, reserved, plan);
            RunsTo(cfg, w, g, runs, RepairAsked, m.0, runs + [m.1])
  {
    hide Reaches;
    hide Settles;
    hide PlanFits;
    hide Find;
    hide Mended;
    var reserved := runs + [QualityRun(RepairStep, Running, plan.snapshot, NoResult)];
    var x := Alone(g, runs, RepairAsked);
    var y := Moved(x.(runs := reserved), 0, RepairReserved(|runs|, plan));
    Stays(cfg, w, x, 0);
    Onward(cfg, w, x, 0, x, y);
    assert y.runs[..|runs|] == runs;
    ReservedSettles(cfg, w, x, y, |runs|, plan);
    var m := Mended(cfg, w, g, reserved, plan);
    SettlesRuns(cfg, w, g, runs, RepairAsked, m.0, runs + [m.1]);
  }

  lemma RepairRefused(cfg: Config, w: World, g: Generation, runs: seq<QualityRun>)
    requires Find(runs, RepairStep).Some? || forall plan :: !PlanFits(cfg, g, runs, w, plan)
    ensures RunsTo(cfg, w, g, runs, RepairAsked, g, runs)
  {
    hide Reaches;
    hide PlanFits;
    hide Find;
    var x := Alone(g, runs, RepairAsked);
    Stays(cfg, w, x, 0);
    Onward(cfg, w, x, 0, x, Moved(x, 0, Ended));
  }
}
