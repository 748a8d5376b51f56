/** Whole runs of the pipeline in which a quality run never finishes although the model's name is short. */
module StrandedExample {
  import opened Options
  import opened Answers
  import opened Payloads
  import opened Effective
  import opened EditRoundTrip
  import opened QualityModel
  import opened QualityResults
  import opened Witnesses

  function Setup(): Config { Config(Plain(), (run: nat) => "r", (s: Snapshot) => "h") }

  function Process(): Context { Context("p", 1, "v", map[]) }

  /** A generation run with the drafts A, B and C, which a critic can read. */
  function Generated(): Generation { Generation(true, 1, "v", Some(Process()), Edited(Drafts('A', 'B'), map[])) }

  function Judging(): Snapshot { Snapshot("p", 1, "v", Drafts('A', 'B')) }

  function Asked(answer: Answer): World { World(Process(), true, true, true, true, answer) }

  function Reserving(): QualityRun { QualityRun(InitialCritic, Running, Judging(), NoResult) }

  /** The only call is a critic's, and it has come to `t`. */
  function Reached(runs: seq<QualityRun>, called: set<nat>, t: Thread): System {
    System(Generated(), runs, map[0 := t], multiset{}, called)
  }

  /** A critic is triggered, reads, reserves its run, asks and is answered. */
  function Course(): seq<System> {
    [ System(Generated(), [], map[], multiset{InitialCritic}, {}),
      Reached([], {}, Triggered(InitialCritic)),
      Reached([], {}, HasRead(InitialCritic, Judging(), None)),
      Reached([Reserving()], {}, Reserved(0, None)),
      Reached([Reserving()], {0}, Calling(0)),
      Reached([Reserving()], {0}, Aborted(0)) ]
  }

  function Events(answer: Answer): seq<Event> {
    [ Fire(0, InitialCritic), Advance(0, Asked(answer)), Advance(0, Asked(answer)), Advance(0, Asked(answer)),
      Advance(0, Asked(answer)) ]
  }

  lemma Ingredients()
    ensures Generated() == Generation(true, 1, "v", Some(Process()), Edited(Drafts('A', 'B'), map[]))
    ensures Judging() == Snapshot("p", 1, "v", Drafts('A', 'B'))
  {
    hide Drafts;
    hide Edited;
  }

  lemma GeneratedReads()
    ensures ReadSnapshot(Setup(), Generated()) == Some(Judging())
    ensures !HasRepair(Generated().preview)
  {
    hide *;
    Ingredients();
    var drafts := Drafts('A', 'B');
    ApartLetters();
    DraftsAreGood('A', 'B');
    NoEdits(drafts);
    EditedReads(drafts, map[]);
    EditedBuilds(drafts, map[]);
    EditedIsStored(drafts, map[]);
    SnapshotOfDrafts(Edited(drafts, map[]), drafts);
  }

  lemma EditedIsStored(p: Payload, edits: map<Target, string>)
    requires Full(p.options)
    ensures Edits in Edited(p, edits)
  {
    hide Stored;
    hide EditsJson;
  }

  lemma SnapshotOfDrafts(preview: Preview, p: Payload)
    requires Edits in preview && Build(Plain(), map[], preview) == Built(p)
    ensures ReadSnapshot(Setup(), Generation(true, 1, "v", Some(Process()), preview)) == Some(Snapshot("p", 1, "v", p))
  {
    hide Build;
    hide Plain;
  }

  /** The answer ends the critic's call. */
  lemma CourseEnds(answer: Answer)
    requires answer.Answered? && CriticStrands(answer.terms, answer.reply)
    ensures Step(Setup(), Reached([Reserving()], {0}, Calling(0)), Advance(0, Asked(answer)), Reached([Reserving()], {0}, Aborted(0)))
  {
    hide NameFits;
    hide UsageReads;
    hide Generated;
    hide Judging;
    hide Setup;
    var x, x' := Reached([Reserving()], {0}, Calling(0)), Reached([Reserving()], {0}, Aborted(0));
    assert x' == Moved(x, 0, Aborted(0));
  }

  /** It is triggered and reads the drafts. */
  lemma CourseStarts(answer: Answer)
    ensures Step(Setup(), Course()[0], Fire(0, InitialCritic), Course()[1])
    ensures Step(Setup(), Course()[1], Advance(0, Asked(answer)), Course()[2])
    ensures Initial(Course()[0])
  {
    GeneratedReads();
    hide HasRepair;
    hide ReadSnapshot;
    hide Generated;
    hide Judging;
    hide Setup;
    assert Course()[1] == Moved(Course()[0].(due := multiset{}), 0, Triggered(InitialCritic));
    assert Course()[2] == Moved(Course()[1], 0, HasRead(InitialCritic, Judging(), None));
  }

  /** It reserves its run and asks. */
  lemma CourseAsks(answer: Answer)
    ensures Step(Setup(), Course()[2], Advance(0, Asked(answer)), Course()[3])
    ensures Step(Setup(), Course()[3], Advance(0, Asked(answer)), Course()[4])
  {
    hide Generated;
    hide Judging;
    hide Setup;
    assert Course()[3] == Moved(Course()[2].(runs := Reserve([], InitialCritic, Judging())), 0, Reserved(0, None));
    assert Course()[4] == Moved(Course()[3].(called := {0}), 0, Calling(0));
  }

  /**
   * Every answer that strands a critic does so in this run of the pipeline: no call is in flight at
   * its end, and the quality run has never left RUNNING.
   */
  lemma StrandedCourse(answer: Answer)
    requires answer.Answered? && CriticStrands(answer.terms, answer.reply)
    ensures Run(Setup(), Course(), Events(answer)) && |Course()[5].runs| == 1
    ensures Course()[5].threads == map[0 := Aborted(0)] && CountFinishes(Course(), Events(answer), 0) == 0
  {
    CourseStarts(answer);
    CourseAsks(answer);
    CourseEnds(answer);
    hide Step;
    hide Initial;
    hide Generated;
    hide Judging;
    hide Setup;
    hide CountFinishes;
    hide CriticStrands;
    assert Run(Setup(), Course(), Events(answer));
    LeavesRunningOnce(Setup(), Course(), Events(answer), 0);
  }

  function Unpriced(): Usage { Usage(Missing, Missing, Missing, Missing) }

  /** A critic that finds nothing and reports its cost as a NaN, and one whose text cannot be read, both named m. */
  lemma ShortNamesStrand()
    ensures NameFits(Some("m")) && UsageReads(Unpriced())
    ensures var answer := Answered(Terms(Some("m"), Unpriced().(cost := Figure(NotANumber)), true), CriticReply([]));
            Run(Setup(), Course(), Events(answer)) && CountFinishes(Course(), Events(answer), 0) == 0
    ensures var answer := Answered(Terms(Some("m"), Unpriced(), true), Unreadable);
            Run(Setup(), Course(), Events(answer)) && CountFinishes(Course(), Events(answer), 0) == 0
  {
    assert NameFits(Some("m"));
    hide NameFits;
    hide Events;
    hide Setup;
    hide Course;
    hide Run;
    hide CountFinishes;
    StrandedCourse(Answered(Terms(Some("m"), Unpriced().(cost := Figure(NotANumber)), true), CriticReply([])));
    StrandedCourse(Answered(Terms(Some("m"), Unpriced(), true), Unreadable));
  }
}
