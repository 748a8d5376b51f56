/** What every run of the field-adoption transactions keeps. */
module FieldAdoptionProofs {
  import opened Options
  import opened Canonical
  import opened FieldAdoption

  /** Transactions commit one after the other; anything else in the system may rewrite the targets. */
  datatype Event =
    | AdoptCall(w: World, id: CandidateId, actor: Actor, edited: Option<Submitted>)
    | RejectCall(w: World, id: CandidateId, actor: Actor)
    | CreateCall(w: World, target: TargetId, usable: bool, suggestions: seq<Suggestion>)
    | Outside(targets: map<TargetId, Target>)

  function Apply(s: State, e: Event): State {
    match e
    case AdoptCall(w, id, actor, edited) => AdoptTransaction(w, s, id, actor, edited).0
    case RejectCall(w, id, actor) => RejectTransaction(w, s, id, actor).0
    case CreateCall(w, target, usable, gs) => CreateTransaction(w, s, target, usable, gs)
    case Outside(targets) => s.(targets := targets)
  }

  function Run(s: State, events: seq<Event>): State
    decreases |events|
  {
    if events == [] then s else Run(Apply(s, events[0]), events[1..])
  }

  // ---- the invariant of the rows

  predicate Resolved(c: Candidate) { Terminal(c.status) && c.status != Superseded }

  ghost predicate OneOpenPerField(cs: map<CandidateId, Candidate>) {
    forall i, j | i in cs && j in cs && cs[i].status == Open && cs[j].status == Open
      && cs[i].snap.target == cs[j].snap.target && cs[i].snap.field == cs[j].snap.field :: i == j
  }

  /** The audit of a resolved candidate tells its outcome, except that a discarded conflict stays one. */
  predicate AuditFits(c: Candidate, a: Audit) {
    || a.outcome == StoredOutcome(c)
    || (c.status == Rejected && c.code == ConflictDiscarded && a.outcome == OConflict)
  }

  ghost predicate Tidy(s: State) {
    && (forall i | i in s.candidates :: s.candidates[i].status != Processing)
    && (forall i | i in s.candidates :: s.candidates[i].status == Conflict ==> s.candidates[i].code == FieldConflict)
    && OneOpenPerField(s.candidates)
    && (forall i :: i in s.audits <==> i in s.candidates && Resolved(s.candidates[i]))
    && (forall i | i in s.audits :: AuditFits(s.candidates[i], s.audits[i]))
  }

  /** How one candidate may change in one transaction. */
  predicate Moves(c: Candidate, c': Candidate) {
    && c'.snap == c.snap
    && (|| c' == c
        || (c.status == Open && Terminal(c'.status))
        || (c.status == Conflict && c'.status == Rejected && c'.code == ConflictDiscarded))
  }

  ghost predicate Advances(s: State, s': State) {
    && (forall i | i in s.candidates :: i in s'.candidates && Moves(s.candidates[i], s'.candidates[i]))
    && (forall i | i in s.audits :: i in s'.audits && s'.audits[i] == s.audits[i])
  }

  /** A completed candidate will answer repeated calls with the outcome it was completed with. */
  predicate Resolves(c: Candidate, r: Resolution) {
    Resolved(c) && StoredOutcome(c) == r.outcome && (c.status == Conflict ==> c.code == FieldConflict)
  }

  lemma GateResolves(w: World, s: State, id: CandidateId, actor: Actor, request: Request)
    requires id in s.candidates
    ensures var g := Gate(w, s, id, actor, request);
            g.Some? ==> Resolves(Candidate(s.candidates[id].snap, g.value.status, Some(actor), g.value.code), g.value)
                        && g.value.write == None
    ensures Gate(w, s, id, actor, request) == None ==> s.candidates[id].snap.target in s.targets
  {
  }

  lemma CompareResolves(w: World, t: Target, c: Snapshot, edited: Option<Submitted>, actor: Actor)
    ensures var r := CompareAndWrite(w, t, c, edited);
            Resolves(Candidate(c, r.status, Some(actor), r.code), r)
  {
    hide Canonicalize;
    hide UpdateValid;
  }

  lemma DecisionsResolve(w: World, s: State, id: CandidateId, actor: Actor, edited: Option<Submitted>)
    requires id in s.candidates
    ensures var r := AdoptDecision(w, s, id, actor, edited);
            Resolves(Candidate(s.candidates[id].snap, r.status, Some(actor), r.code), r)
    ensures var r := RejectDecision(w, s, id, actor);
            Resolves(Candidate(s.candidates[id].snap, r.status, Some(actor), r.code), r) && r.write == None
  {
    hide Canonicalize;
    hide Gate;
    hide CompareAndWrite;
    var c := s.candidates[id].snap;
    GateResolves(w, s, id, actor, RequestedAction(w, c, edited));
    GateResolves(w, s, id, actor, RejectRequest);
    if c.target in s.targets {
      CompareResolves(w, s.targets[c.target], c, edited, actor);
    }
    assert RejectDecision(w, s, id, actor).outcome == ORejected ==> RejectDecision(w, s, id, actor).status == Rejected by {
      hide Resolves;
    }
  }

  lemma CompleteKeeps(cs: map<CandidateId, Candidate>, audits: map<CandidateId, Audit>, id: CandidateId, c: Candidate, a: Audit)
    requires TidyRows(cs, audits) && id in cs && cs[id].status == Open
    requires Resolved(c) && a.outcome == StoredOutcome(c) && (c.status == Conflict ==> c.code == FieldConflict)
    ensures TidyRows(cs[id := c], audits[id := a]) && id !in audits
  {
    hide StoredOutcome;
  }

  lemma TargetsAreFree(s: State, s': State)
    requires s'.candidates == s.candidates && s'.audits == s.audits
    ensures Tidy(s) <==> Tidy(s')
  {
  }

  lemma ResolveRows(w: World, s: State, id: CandidateId, actor: Actor, action: Action, r: Resolution)
    requires id in s.candidates && id !in s.audits
    ensures var s' := Resolve(w, s, id, actor, action, r);
            && s'.candidates == s.candidates[id := Candidate(s.candidates[id].snap, r.status, Some(actor), r.code)]
            && s'.audits == s.audits[id := AuditOf(w, actor, action, r)]
            && AuditOf(w, actor, action, r).outcome == r.outcome
  {
    hide Canonicalize;
  }

  lemma ResolveKeeps(w: World, s: State, id: CandidateId, actor: Actor, action: Action, r: Resolution)
    requires Tidy(s) && id in s.candidates && s.candidates[id].status == Open
    requires Resolves(Candidate(s.candidates[id].snap, r.status, Some(actor), r.code), r)
    ensures Tidy(Resolve(w, s, id, actor, action, r)) && Advances(s, Resolve(w, s, id, actor, action, r))
  {
    hide Resolve;
    hide AuditOf;
    hide StoredOutcome;
    var s' := Resolve(w, s, id, actor, action, r);
    TargetsAreFree(s, State(s.candidates, map[], s.audits));
    ResolveRows(w, s, id, actor, action, r);
    CompleteKeeps(s.candidates, s.audits, id, Candidate(s.candidates[id].snap, r.status, Some(actor), r.code),
      AuditOf(w, actor, action, r));
    TargetsAreFree(s', State(s'.candidates, map[], s'.audits));
    hide Tidy;
    ResolveAdvances(s, s', id, AuditOf(w, actor, action, r));
    hide Advances;
  }

  lemma ResolveAdvances(s: State, s': State, id: CandidateId, a: Audit)
    requires id in s.candidates && s.candidates[id].status == Open && id !in s.audits
    requires id in s'.candidates && s'.candidates[id].snap == s.candidates[id].snap && Terminal(s'.candidates[id].status)
    requires s'.candidates == s.candidates[id := s'.candidates[id]]
    requires s'.audits == s.audits[id := a]
    ensures Advances(s, s')
  {
  }

  lemma DiscardedKeeps(s: State, id: CandidateId)
    requires Tidy(s) && id in s.candidates && s.candidates[id].status == Conflict
    ensures var s' := s.(candidates := s.candidates[id := s.candidates[id].(status := Rejected, code := ConflictDiscarded)]);
            Tidy(s') && Advances(s, s')
  {
    assert StoredOutcome(s.candidates[id]) == OConflict;
    hide StoredOutcome;
  }

  lemma DiscardKeeps(w: World, s: State, id: CandidateId, actor: Actor)
    requires Tidy(s) && id in s.candidates && s.candidates[id].status == Conflict
    ensures Tidy(DiscardConflict(w, s, id, actor).0) && Advances(s, DiscardConflict(w, s, id, actor).0)
  {
    hide Canonicalize;
    hide Tidy;
    hide Advances;
    hide StoredOutcome;
    DiscardedKeeps(s, id);
    AdvancesReflexive(s);
  }

  lemma AdvancesReflexive(s: State)
    ensures Advances(s, s)
    ensures forall targets :: Advances(s, s.(targets := targets))
  {
  }

  /** Creating candidates leaves every existing row alone but for open rows it supersedes. */
  ghost predicate OnlySupersedes(cs: map<CandidateId, Candidate>, cs': map<CandidateId, Candidate>) {
    forall i | i in cs :: i in cs'
      && (cs'[i] == cs[i] || (cs[i].status == Open && cs'[i] == cs[i].(status := Superseded, code := SupersededByNew)))
  }

  /** The part of the invariant that speaks of candidates, for given audits. */
  ghost predicate TidyRows(cs: map<CandidateId, Candidate>, audits: map<CandidateId, Audit>) {
    Tidy(State(cs, map[], audits))
  }

  /** Superseding closes the other open candidates of one field and leaves all else as it is. */
  lemma SupersedingFrees(cs: map<CandidateId, Candidate>, target: TargetId, field: string, exclude: CandidateId)
    ensures var cs' := SupersedeOpen(cs, target, field, exclude);
            && cs'.Keys == cs.Keys && OnlySupersedes(cs, cs')
            && (forall i | i in cs' && cs'[i].status == Open && SameField(cs'[i].snap, target, field) :: i == exclude)
            && (forall i | i in cs && (cs[i].status != Open || !SameField(cs[i].snap, target, field)) :: cs'[i] == cs[i])
  {
  }

  lemma SupersededStaysUnresolved(c: Candidate, c': Candidate)
    requires c' == c || (c.status == Open && c' == c.(status := Superseded, code := SupersededByNew))
    requires c.status != Processing && (c.status == Conflict ==> c.code == FieldConflict)
    ensures Resolved(c') <==> Resolved(c)
    ensures Resolved(c) ==> c' == c
    ensures c'.status == Open ==> c' == c
    ensures c'.status != Processing && (c'.status == Conflict ==> c'.code == FieldConflict)
  {
  }

  lemma SupersededStayTidy(cs: map<CandidateId, Candidate>, cs': map<CandidateId, Candidate>, audits: map<CandidateId, Audit>)
    requires TidyRows(cs, audits) && OnlySupersedes(cs, cs') && cs'.Keys == cs.Keys
    ensures TidyRows(cs', audits)
  {
    forall i | i in cs'
      ensures Resolved(cs'[i]) <==> Resolved(cs[i])
      ensures Resolved(cs[i]) ==> cs'[i] == cs[i]
      ensures cs'[i].status == Open ==> cs'[i] == cs[i]
      ensures cs'[i].status != Processing && (cs'[i].status == Conflict ==> cs'[i].code == FieldConflict)
    {
      SupersededStaysUnresolved(cs[i], cs'[i]);
    }
    hide Resolved;
    hide AuditFits;
    hide OnlySupersedes;
  }

  lemma SupersedeKeeps(cs: map<CandidateId, Candidate>, audits: map<CandidateId, Audit>, target: TargetId, field: string,
      exclude: CandidateId)
    requires TidyRows(cs, audits)
    ensures var cs' := SupersedeOpen(cs, target, field, exclude);
            && TidyRows(cs', audits) && OnlySupersedes(cs, cs')
            && (exclude !in cs ==>
                  forall i | i in cs' && cs'[i].status == Open :: !SameField(cs'[i].snap, target, field))
  {
    hide SupersedeOpen;
    hide TidyRows;
    hide OnlySupersedes;
    SupersedingFrees(cs, target, field, exclude);
    SupersededStayTidy(cs, SupersedeOpen(cs, target, field, exclude), audits);
  }

  lemma InsertKeeps(cs: map<CandidateId, Candidate>, audits: map<CandidateId, Audit>, id: CandidateId, c: Candidate)
    requires TidyRows(cs, audits) && id !in cs && c.status == Open
    requires forall i | i in cs && cs[i].status == Open :: !SameField(cs[i].snap, c.snap.target, c.snap.field)
    ensures TidyRows(cs[id := c], audits) && OnlySupersedes(cs, cs[id := c])
  {
  }

  lemma CreateOneKeeps(w: World, cs: map<CandidateId, Candidate>, audits: map<CandidateId, Audit>, target: TargetId,
      t: Target, g: Suggestion)
    requires TidyRows(cs, audits) && CreateOne(w, cs, target, t, g).Some?
    ensures var cs' := CreateOne(w, cs, target, t, g).value;
            TidyRows(cs', audits) && OnlySupersedes(cs, cs')
  {
    hide Canonicalize;
    if !(g.field == None || g.id in cs) {
      var c := NewCandidate(w, target, t, g.field.value, g.value.text);
      SupersedeKeeps(cs, audits, target, g.field.value, g.id);
      InsertKeeps(SupersedeOpen(cs, target, g.field.value, g.id), audits, g.id, c);
      hide SupersedeOpen;
      hide TidyRows;
    }
  }

  lemma {:induction false} CreateAllKeeps(w: World, cs: map<CandidateId, Candidate>, audits: map<CandidateId, Audit>,
      target: TargetId, t: Target, gs: seq<Suggestion>)
    requires TidyRows(cs, audits) && CreateAll(w, cs, target, t, gs).Some?
    ensures var cs' := CreateAll(w, cs, target, t, gs).value;
            TidyRows(cs', audits) && OnlySupersedes(cs, cs')
    decreases |gs|
  {
    hide CreateOne;
    hide TidyRows;
    if gs != [] {
      CreateOneKeeps(w, cs, audits, target, t, gs[0]);
      CreateAllKeeps(w, CreateOne(w, cs, target, t, gs[0]).value, audits, target, t, gs[1..]);
    }
  }

  lemma SupersedingAdvances(s: State, s': State)
    requires OnlySupersedes(s.candidates, s'.candidates) && s'.audits == s.audits
    ensures Advances(s, s')
  {
  }

  lemma CreateKeeps(w: World, s: State, target: TargetId, usable: bool, gs: seq<Suggestion>)
    requires Tidy(s)
    ensures var s' := CreateTransaction(w, s, target, usable, gs);
            && Tidy(s') && Advances(s, s') && OnlySupersedes(s.candidates, s'.candidates)
            && s'.targets == s.targets && s'.audits == s.audits
  {
    hide CreateAll;
    hide Tidy;
    hide OnlySupersedes;
    hide Advances;
    var s' := CreateTransaction(w, s, target, usable, gs);
    TargetsAreFree(s, State(s.candidates, map[], s.audits));
    TargetsAreFree(s', State(s'.candidates, map[], s'.audits));
    SupersedesNothing(s.candidates);
    if target in s.targets && CreateAll(w, s.candidates, target, s.targets[target], gs).Some? {
      CreateAllKeeps(w, s.candidates, s.audits, target, s.targets[target], gs);
    }
    SupersedingAdvances(s, s');
  }

  lemma SupersedesNothing(cs: map<CandidateId, Candidate>)
    ensures OnlySupersedes(cs, cs)
  {
  }

  lemma StepKeeps(s: State, e: Event)
    requires Tidy(s)
    ensures Tidy(Apply(s, e)) && Advances(s, Apply(s, e))
  {
    hide Canonicalize;
    hide AdoptDecision;
    hide RejectDecision;
    hide DiscardConflict;
    hide CreateTransaction;
    hide Resolve;
    hide Resolves;
    hide Tidy;
    hide Advances;
    AdvancesReflexive(s);
    match e
    case AdoptCall(w, id, actor, edited) =>
      if id in s.candidates && s.candidates[id].status == Open {
        DecisionsResolve(w, s, id, actor, edited);
        ResolveKeeps(w, s, id, actor, Adopt, AdoptDecision(w, s, id, actor, edited));
      }
    case RejectCall(w, id, actor) =>
      if id in s.candidates {
        if s.candidates[id].status == Open {
          DecisionsResolve(w, s, id, actor, None);
          ResolveKeeps(w, s, id, actor, Reject, RejectDecision(w, s, id, actor));
        } else if s.candidates[id].status == Conflict {
          DiscardKeeps(w, s, id, actor);
        }
      }
    case CreateCall(w, target, usable, gs) =>
      CreateKeeps(w, s, target, usable, gs);
    case Outside(_) =>
      TargetsAreFree(s, Apply(s, e));
  }

  lemma {:induction false} RunKeepsTidy(s: State, events: seq<Event>)
    requires Tidy(s)
    ensures Tidy(Run(s, events))
    decreases |events|
  {
    if events != [] {
      StepKeeps(s, events[0]);
      RunKeepsTidy(Apply(s, events[0]), events[1..]);
    }
  }

  /**
   * Candidate lifecycle: from the empty tables every run keeps, at each transaction boundary, at
   * most one open candidate per target field, none in processing, and exactly one audit for each
   * candidate that was adopted, refused or rejected and none for an open or superseded one.
   */
  lemma EmptyTablesTidy(targets: map<TargetId, Target>, events: seq<Event>)
    ensures Tidy(Run(State(map[], targets, map[]), events))
  {
    RunKeepsTidy(State(map[], targets, map[]), events);
  }

  /** A terminal candidate is final: only discarding a conflict still changes it, and audits never change. */
  lemma {:induction false} TerminalIsFinal(s: State, events: seq<Event>, id: CandidateId)
    requires Tidy(s) && id in s.candidates && Terminal(s.candidates[id].status)
    ensures var s' := Run(s, events);
            && id in s'.candidates
            && (|| s'.candidates[id] == s.candidates[id]
                || (s.candidates[id].status == Conflict
                    && s'.candidates[id] == s.candidates[id].(status := Rejected, code := ConflictDiscarded)))
            && (id in s.audits ==> id in s'.audits && s'.audits[id] == s.audits[id])
    ensures (forall i | 0 <= i < |events| :: events[i].RejectCall? ==> events[i].id != id) ==>
              Run(s, events).candidates[id] == s.candidates[id]
    decreases |events|
  {
    if events != [] {
      var s1 := Apply(s, events[0]);
      StepKeeps(s, events[0]);
      TerminalStep(s, events[0], id);
      TerminalIsFinal(s1, events[1..], id);
      if forall i | 0 <= i < |events| :: events[i].RejectCall? ==> events[i].id != id {
        forall i | 0 <= i < |events[1..]| ensures events[1..][i].RejectCall? ==> events[1..][i].id != id {
          assert events[1..][i] == events[i + 1];
        }
      }
    }
  }

  lemma TerminalStep(s: State, e: Event, id: CandidateId)
    requires Tidy(s) && id in s.candidates && Terminal(s.candidates[id].status)
    ensures var s' := Apply(s, e);
            && id in s'.candidates
            && (|| s'.candidates[id] == s.candidates[id]
                || (e.RejectCall? && e.id == id && s.candidates[id].status == Conflict
                    && s'.candidates[id] == s.candidates[id].(status := Rejected, code := ConflictDiscarded)))
  {
    hide Canonicalize;
    hide Tidy;
    hide AdoptDecision;
    hide RejectDecision;
    match e
    case CreateCall(w, target, usable, gs) =>
      hide CreateTransaction;
      CreateKeeps(w, s, target, usable, gs);
    case _ =>
  }

  // ---- replay

  /** The call changes the candidate. */
  predicate Changes(s: State, e: Event, id: CandidateId) {
    && (e.AdoptCall? || e.RejectCall?) && e.id == id
    && id in s.candidates && id in Apply(s, e).candidates && Apply(s, e).candidates[id] != s.candidates[id]
  }

  function AnswerTo(s: State, e: Event): Response
    requires e.AdoptCall? || e.RejectCall?
  {
    if e.AdoptCall? then AdoptTransaction(e.w, s, e.id, e.actor, e.edited).1
    else RejectTransaction(e.w, s, e.id, e.actor).1
  }

  /** What the last call that changed the candidate answered. */
  function LastAnswer(s: State, events: seq<Event>, id: CandidateId): Option<Response>
    decreases |events|
  {
    if events == [] then None
    else
      var later := LastAnswer(Apply(s, events[0]), events[1..], id);
      if later.Some? then later
      else if Changes(s, events[0], id) then Some(AnswerTo(s, events[0])) else None
  }

  lemma CallsChangeOpen(s: State, e: Event)
    requires e.AdoptCall? || e.RejectCall?
    requires e.w.enabled && e.id in s.candidates && s.candidates[e.id].status == Open
    ensures Changes(s, e, e.id)
  {
    FirstCallResolves(s, e);
    hide Apply;
    hide AnswerTo;
  }

  lemma FirstCallResolves(s: State, first: Event)
    requires first.AdoptCall? || first.RejectCall?
    requires first.w.enabled && first.id in s.candidates && s.candidates[first.id].status == Open
    ensures var s1 := Apply(s, first);
            var answer := AnswerTo(s, first);
            && first.id in s1.candidates && Resolved(s1.candidates[first.id])
            && answer.Answer? && !answer.result.idempotent
            && answer.result.outcome == StoredOutcome(s1.candidates[first.id])
            && (s1.candidates[first.id].status == Conflict ==> answer.result.outcome == OConflict)
  {
    hide Canonicalize;
    DecisionsResolve(first.w, s, first.id, first.actor, if first.AdoptCall? then first.edited else None);
    hide AdoptDecision;
    hide RejectDecision;
  }

  lemma RepeatedCall(s: State, id: CandidateId, w: World, actor: Actor, edited: Option<Submitted>)
    requires w.enabled && id in s.candidates && Terminal(s.candidates[id].status)
    ensures AdoptTransaction(w, s, id, actor, edited) == (s, Answer(StoredResult(s.candidates[id])))
    ensures s.candidates[id].status != Conflict ==>
              RejectTransaction(w, s, id, actor) == (s, Answer(StoredResult(s.candidates[id])))
  {
    hide Canonicalize;
  }

  lemma DiscardIsStored(s: State, e: Event)
    requires Tidy(s) && e.RejectCall? && e.id in s.candidates && s.candidates[e.id].status == Conflict && Changes(s, e, e.id)
    ensures var c := Apply(s, e).candidates[e.id];
            && c.status == Rejected && StoredOutcome(c) == ORejected
            && AnswerTo(s, e).Answer? && AnswerTo(s, e).result.outcome == ORejected
  {
    hide Canonicalize;
    hide RejectDecision;
    hide Tidy;
  }

  /** A call that changes a candidate answers what the candidate answers from then on. */
  lemma ChangeIsStored(s: State, e: Event, id: CandidateId)
    requires Tidy(s) && Changes(s, e, id)
    ensures var c := Apply(s, e).candidates[id];
            && Resolved(c) && AnswerTo(s, e).Answer? && AnswerTo(s, e).result.outcome == StoredOutcome(c)
            && (c.status == Conflict ==> AnswerTo(s, e).result.outcome == OConflict)
  {
    hide Apply;
    hide AnswerTo;
    ChangeIsEnabled(s, e, id);
    if s.candidates[id].status == Open {
      FirstCallResolves(s, e);
    } else {
      TerminalStep(s, e, id);
      DiscardIsStored(s, e);
    }
  }

  lemma ChangeIsEnabled(s: State, e: Event, id: CandidateId)
    requires Changes(s, e, id)
    ensures e.w.enabled
  {
    hide Canonicalize;
    hide AdoptDecision;
    hide RejectDecision;
  }

  lemma {:induction false} UnchangedStays(s: State, events: seq<Event>, id: CandidateId)
    requires Tidy(s) && id in s.candidates && Resolved(s.candidates[id]) && LastAnswer(s, events, id).None?
    ensures id in Run(s, events).candidates && Run(s, events).candidates[id] == s.candidates[id]
    decreases |events|
  {
    hide Tidy;
    hide Apply;
    hide AnswerTo;
    if events != [] {
      StepKeeps(s, events[0]);
      TerminalStep(s, events[0], id);
      UnchangedStays(Apply(s, events[0]), events[1..], id);
    }
  }

  lemma {:induction false} LastAnswerIsStored(s: State, events: seq<Event>, id: CandidateId)
    requires Tidy(s) && LastAnswer(s, events, id).Some?
    ensures id in Run(s, events).candidates
    ensures var c := Run(s, events).candidates[id];
            var answer := LastAnswer(s, events, id).value;
            && Resolved(c) && answer.Answer? && answer.result.outcome == StoredOutcome(c)
            && (c.status == Conflict ==> answer.result.outcome == OConflict)
    decreases |events|
  {
    hide Tidy;
    hide Apply;
    hide AnswerTo;
    hide StoredOutcome;
    var next := Apply(s, events[0]);
    StepKeeps(s, events[0]);
    if LastAnswer(next, events[1..], id).Some? {
      LastAnswerIsStored(next, events[1..], id);
    } else {
      ChangeIsStored(s, events[0], id);
      UnchangedStays(next, events[1..], id);
    }
  }

  /**
   * Idempotent replay. After any run in which some call changed the candidate, adopting it again - by
   * anyone, with any value - answers the outcome of the last call that changed it and changes
   * nothing, and so does rejecting it, except that a conflict can still be discarded. A discard is
   * such a last call itself: from then on both answer that the candidate is rejected.
   */
  lemma ReplayAnswersTheSame(s: State, events: seq<Event>, id: CandidateId, w: World, actor: Actor, edited: Option<Submitted>)
    requires Tidy(s) && LastAnswer(s, events, id).Some? && w.enabled
    ensures LastAnswer(s, events, id).value.Answer?
    ensures var outcome := LastAnswer(s, events, id).value.result.outcome;
            var later := Run(s, events);
            var (after, again) := AdoptTransaction(w, later, id, actor, edited);
            && after == later && again.Answer? && again.result.outcome == outcome && again.result.idempotent
            && (outcome != OConflict ==> RejectTransaction(w, later, id, actor) == (later, again))
  {
    LastAnswerIsStored(s, events, id);
    hide Canonicalize;
    hide LastAnswer;
    hide Run;
    hide Tidy;
    hide StoredOutcome;
    RepeatedCall(Run(s, events), id, w, actor, edited);
  }

  // ---- no lost update

  /** Everything but one field of one target is as before. */
  ghost predicate OnlyFieldChanged(before: map<TargetId, Target>, after: map<TargetId, Target>, t: TargetId, field: string) {
    && t in before && after.Keys == before.Keys
    && (forall u | u in before && u != t :: after[u] == before[u])
    && after[t].active == before[t].active
    && (forall f | f != field :: Value(after[t], f) == Value(before[t], f))
  }

  lemma {:induction false} SnapIsFixed(s: State, events: seq<Event>, id: CandidateId)
    requires Tidy(s) && id in s.candidates
    ensures id in Run(s, events).candidates && Run(s, events).candidates[id].snap == s.candidates[id].snap
    decreases |events|
  {
    if events != [] {
      StepKeeps(s, events[0]);
      SnapIsFixed(Apply(s, events[0]), events[1..], id);
    }
  }

  lemma {:induction false} CreatedSnapshot(w: World, cs: map<CandidateId, Candidate>, audits: map<CandidateId, Audit>,
      target: TargetId, t: Target, gs: seq<Suggestion>, id: CandidateId)
    requires TidyRows(cs, audits)
    requires id !in cs && CreateAll(w, cs, target, t, gs).Some? && id in CreateAll(w, cs, target, t, gs).value
    ensures var c := CreateAll(w, cs, target, t, gs).value[id].snap;
            c.target == target && c.previousHash == Canonicalize(w.nfc, Value(t, c.field))
    decreases |gs|
  {
    hide Canonicalize;
    hide TidyRows;
    var cs' := CreateOne(w, cs, target, t, gs[0]).value;
    CreateOneKeeps(w, cs, audits, target, t, gs[0]);
    if id in cs' {
      CreateAllKeeps(w, cs', audits, target, t, gs[1..]);
    } else {
      CreatedSnapshot(w, cs', audits, target, t, gs[1..], id);
    }
  }

  lemma WriteChangesField(before: map<TargetId, Target>, t: TargetId, field: string, value: string, now: int)
    requires t in before
    ensures OnlyFieldChanged(before, before[t := WriteField(before[t], field, value, now)], t, field)
  {
  }

  lemma WritesOnlyWhenAdopting(w: World, t: Target, c: Snapshot, edited: Option<Submitted>, current: string, touched: bool)
    ensures var r := WriteDecision(w, t, c, edited, current, touched);
            r.outcome != OConflict && (r.write.Some? ==> r.outcome in {OAdopted, OAdoptedEdited})
  {
    hide Canonicalize;
    hide UpdateValid;
  }

  lemma CompareFirst(w: World, t: Target, c: Snapshot, edited: Option<Submitted>)
    requires IsNormalForm(w.nfc)
    ensures var r := CompareAndWrite(w, t, c, edited);
            && (r.outcome == OConflict <==> Canonicalize(w.nfc, Value(t, c.field)) != c.previousHash)
            && (r.write.Some? ==> r.outcome in {OAdopted, OAdoptedEdited})
  {
    hide Canonicalize;
    hide IsNormalForm;
    hide WriteDecision;
    var current := Canonicalize(w.nfc, Value(t, c.field));
    CanonicalizeIdempotent(w.nfc, Value(t, c.field));
    WritesOnlyWhenAdopting(w, t, c, edited, current, t.updatedAt != c.targetUpdatedAt);
  }

  lemma RefusalsDoNotWrite(w: World, s: State, id: CandidateId, actor: Actor, request: Request)
    requires id in s.candidates
    ensures var g := Gate(w, s, id, actor, request);
            && (g.Some? ==> g.value.write == None && g.value.outcome != OConflict)
            && (g == None ==> s.candidates[id].snap.target in s.targets)
  {
  }

  /** One adoption: when it writes, what it writes, and when it reports a conflict. */
  lemma AdoptionStep(w: World, s: State, id: CandidateId, actor: Actor, edited: Option<Submitted>)
    requires id in s.candidates && IsNormalForm(w.nfc)
    ensures var (s', answer) := AdoptTransaction(w, s, id, actor, edited);
            var c := s.candidates[id].snap;
            var pass := w.enabled && s.candidates[id].status == Open
                        && Gate(w, s, id, actor, RequestedAction(w, c, edited)) == None;
            && (s'.targets != s.targets ==>
                  && pass && OnlyFieldChanged(s.targets, s'.targets, c.target, c.field)
                  && answer.Answer? && answer.result.outcome in {OAdopted, OAdoptedEdited})
            && (pass ==>
                  && c.target in s.targets && answer.Answer?
                  && (answer.result.outcome == OConflict
                      <==> Canonicalize(w.nfc, Value(s.targets[c.target], c.field)) != c.previousHash))
  {
    hide Canonicalize;
    var c := s.candidates[id].snap;
    RefusalsDoNotWrite(w, s, id, actor, RequestedAction(w, c, edited));
    hide Gate;
    if c.target in s.targets {
      CompareFirst(w, s.targets[c.target], c, edited);
      hide CompareAndWrite;
      var r := AdoptDecision(w, s, id, actor, edited);
      if r.write.Some? {
        WriteChangesField(s.targets, c.target, c.field, r.write.value, w.now);
      }
      hide OnlyFieldChanged;
    }
  }

  /**
   * No lost update: a candidate is created on some value of its field, anything may happen to the
   * targets meanwhile, then it is adopted. The adoption writes only if the field still has, up to
   * canonical form, the value seen at creation; it then changes that field alone. Past the gates it
   * reports a conflict exactly when the canonical value is no longer the one seen at creation, so an
   * untouched target never conflicts.
   */
  lemma NoLostUpdate(s0: State, w0: World, target: TargetId, usable: bool, gs: seq<Suggestion>,
      between: seq<Event>, w: World, id: CandidateId, actor: Actor, edited: Option<Submitted>)
    requires Tidy(s0) && IsNormalForm(w.nfc) && w0.nfc == w.nfc
    requires id !in s0.candidates && id in CreateTransaction(w0, s0, target, usable, gs).candidates
    ensures target in s0.targets
    ensures var s1 := CreateTransaction(w0, s0, target, usable, gs);
            var s2 := Run(s1, between);
            var (s3, answer) := AdoptTransaction(w, s2, id, actor, edited);
            var field := s1.candidates[id].snap.field;
            var seen := Canonicalize(w.nfc, Value(s0.targets[target], field));
            && id in s2.candidates
            && (s3.targets != s2.targets ==>
                  && OnlyFieldChanged(s2.targets, s3.targets, target, field)
                  && Canonicalize(w.nfc, Value(s2.targets[target], field)) == seen
                  && answer.Answer? && answer.result.outcome in {OAdopted, OAdoptedEdited})
            && (w.enabled && s2.candidates[id].status == Open
                && Gate(w, s2, id, actor, RequestedAction(w, s2.candidates[id].snap, edited)) == None ==>
                  && target in s2.targets && answer.Answer?
                  && (answer.result.outcome == OConflict
                      <==> Canonicalize(w.nfc, Value(s2.targets[target], field)) != seen))
  {
    hide Canonicalize;
    hide AdoptTransaction;
    hide Gate;
    var s1 := CreateTransaction(w0, s0, target, usable, gs);
    TargetsAreFree(s0, State(s0.candidates, map[], s0.audits));
    CreatedSnapshot(w0, s0.candidates, s0.audits, target, s0.targets[target], gs, id);
    CreateKeeps(w0, s0, target, usable, gs);
    SnapIsFixed(s1, between, id);
    AdoptionStep(w, Run(s1, between), id, actor, edited);
  }

  /** What has to hold before the field is even compared. */
  predicate Permitted(w: World, s: State, id: CandidateId, actor: Actor, edited: Option<Submitted>)
    requires id in s.candidates
  {
    var c := s.candidates[id].snap;
    && w.supported(id) && w.intact(id) && w.current(id)
    && c.target in s.targets && s.targets[c.target].active && w.canEdit(actor, c.target)
    && (w.uncertainty(id) == Low || (w.uncertainty(id) == Medium && IsOwnText(w, c, edited)))
  }

  /** The caller brings a value of his own, and not just the proposal again. */
  predicate IsOwnText(w: World, c: Snapshot, edited: Option<Submitted>) {
    edited.Some? && (edited.value.Text? ==> Canonicalize(w.nfc, edited.value.text) != c.proposed)
  }

  /** The text to be adopted. */
  function Wanted(w: World, c: Snapshot, edited: Option<Submitted>): string {
    Canonicalize(w.nfc, if edited.Some? && edited.value.Text? then edited.value.text else c.proposed)
  }

  /** The form finds no error and changes this field and no other. */
  ghost predicate FormTakes(t: Target, field: string, r: FormResult) {
    && !r.errors && field in r.after && r.after[field] != (if field in t.fields then t.fields[field] else "")
    && forall f | f != field :: (if f in r.after then r.after[f] else "") == if f in t.fields then t.fields[f] else ""
  }

  lemma FormTakesIff(t: Target, field: string, r: FormResult)
    ensures UpdateValid(t, field, r) <==> FormTakes(t, field, r)
  {
    if FormTakes(t, field, r) {
      assert ChangedFields(t, r.after) == {field};
    }
    if UpdateValid(t, field, r) {
      assert field in ChangedFields(t, r.after);
      forall f | f != field ensures (if f in r.after then r.after[f] else "") == if f in t.fields then t.fields[f] else "" {
        assert f !in ChangedFields(t, r.after);
      }
    }
  }

  /** A refusal before the comparison names something that is indeed missing. */
  predicate RefusedFor(w: World, s: State, id: CandidateId, actor: Actor, outcome: Outcome)
    requires id in s.candidates
  {
    var target := s.candidates[id].snap.target;
    match outcome
    case OFailed => !w.supported(id)
    case OTargetMissing => target !in s.targets
    case OActionNotAllowed => w.uncertainty(id) != Low
    case OTargetInactive => target in s.targets && !s.targets[target].active
    case OStale => !w.intact(id) || !w.current(id)
    case OPermissionDenied => !w.canEdit(actor, target)
    case _ => false
  }

  lemma GateIffPermitted(w: World, s: State, id: CandidateId, actor: Actor, edited: Option<Submitted>)
    requires id in s.candidates
    ensures var c, gate := s.candidates[id].snap, Gate(w, s, id, actor, RequestedAction(w, s.candidates[id].snap, edited));
            && (gate == None <==> Permitted(w, s, id, actor, edited))
            && (gate.Some? ==> gate.value.write == None && RefusedFor(w, s, id, actor, gate.value.outcome))
  {
    hide Canonicalize;
  }

  /** What is written once the field has been compared. */
  lemma DecisionWrites(w: World, t: Target, c: Snapshot, edited: Option<Submitted>)
    requires IsNormalForm(w.nfc)
    ensures var r := CompareAndWrite(w, t, c, edited);
            var current, wanted := Canonicalize(w.nfc, Value(t, c.field)), Wanted(w, c, edited);
            var form := w.form(t, c.field, wanted);
            && r.current == current && r.touched == (t.updatedAt != c.targetUpdatedAt)
            && if current != c.previousHash then r.outcome == OConflict && r.write == None
               else if edited == Some(NotText) then r.outcome == OValidationFailed && r.write == None
               else if wanted != current && !FormTakes(t, c.field, form) then r.outcome == OValidationFailed && r.write == None
               else
                 && r.outcome == (if IsOwnText(w, c, edited) then OAdoptedEdited else OAdopted) && r.code == NoCode
                 && r.edited == (if edited.Some? && edited.value.Text? then Canonicalize(w.nfc, edited.value.text) else "")
                 && r.status == (if IsOwnText(w, c, edited) then AdoptedEdited else Adopted)
                 && if wanted == current then r.write == None && r.final == current
                    else c.field in form.after && r.write == Some(form.after[c.field])
                         && r.final == Canonicalize(w.nfc, form.after[c.field])
  {
    hide Canonicalize;
    hide IsNormalForm;
    var wanted := Wanted(w, c, edited);
    CanonicalizeIdempotent(w.nfc, Value(t, c.field));
    CanonicalizeIdempotent(w.nfc, if edited.Some? && edited.value.Text? then edited.value.text else c.proposed);
    FormTakesIff(t, c.field, w.form(t, c.field, wanted));
    hide FormTakes;
    hide ChangedFields;
  }

  /**
   * What an adoption writes. Nothing, unless everything permits it, the field still has the value seen,
   * the wanted text is another one, and the form takes it; then the field holds what the form made of
   * the wanted text: the canonical edited text if one was given, the canonical proposal otherwise. The
   * answer says so: which value the field has, and whether it is the caller's own text.
   */
  lemma AdoptionWritesWanted(w: World, s: State, id: CandidateId, actor: Actor, edited: Option<Submitted>)
    requires w.enabled && id in s.candidates && s.candidates[id].status == Open && IsNormalForm(w.nfc)
    ensures var (s', answer) := AdoptTransaction(w, s, id, actor, edited);
            var c := s.candidates[id].snap;
            && id in s'.candidates && answer.Answer?
            && answer.result.previous == c.previous && answer.result.proposed == c.proposed && !answer.result.idempotent
            && (!Permitted(w, s, id, actor, edited) ==>
                  s'.targets == s.targets && RefusedFor(w, s, id, actor, answer.result.outcome))
            && (Permitted(w, s, id, actor, edited) ==>
                  var t := s.targets[c.target];
                  var current, wanted := Canonicalize(w.nfc, Value(t, c.field)), Wanted(w, c, edited);
                  var form := w.form(t, c.field, wanted);
                  && answer.result.current == current
                  && answer.result.updatedAtChanged == (t.updatedAt != c.targetUpdatedAt)
                  && if current != c.previousHash then answer.result.outcome == OConflict && s'.targets == s.targets
                     else if edited == Some(NotText) || (wanted != current && !FormTakes(t, c.field, form)) then
                       answer.result.outcome == OValidationFailed && s'.targets == s.targets
                     else
                       && answer.result.outcome == (if IsOwnText(w, c, edited) then OAdoptedEdited else OAdopted)
                       && s'.candidates[id].status == (if IsOwnText(w, c, edited) then AdoptedEdited else Adopted)
                       && if wanted == current then s'.targets == s.targets && answer.result.final == current
                          else
                            && c.target in s'.targets && c.field in form.after
                            && OnlyFieldChanged(s.targets, s'.targets, c.target, c.field)
                            && c.field in s'.targets[c.target].fields
                            && s'.targets[c.target].fields[c.field] == form.after[c.field]
                            && s'.targets[c.target].updatedAt == w.now
                            && answer.result.final == Canonicalize(w.nfc, form.after[c.field]))
  {
    var c := s.candidates[id].snap;
    GateIffPermitted(w, s, id, actor, edited);
    if Permitted(w, s, id, actor, edited) {
      var t := s.targets[c.target];
      DecisionWrites(w, t, c, edited);
      var r := CompareAndWrite(w, t, c, edited);
      if r.write.Some? {
        WriteChangesField(s.targets, c.target, c.field, r.write.value, w.now);
      }
    }
    hide Canonicalize;
    hide RefusedFor;
    hide IsNormalForm;
    hide Permitted;
    hide Gate;
    hide CompareAndWrite;
    hide FormTakes;
    hide Wanted;
    hide IsOwnText;
    hide OnlyFieldChanged;
  }

  /** The audit of an adoption: who adopted, the value before, the value the field has now, and what was submitted. */
  predicate Recorded(w: World, s: State, id: CandidateId, actor: Actor, before: string, r: Result, edited: Option<Submitted>) {
    && id in s.audits
    && var a := s.audits[id];
       && a.actor == actor && a.action == Adopt && a.outcome == r.outcome && a.code == NoCode
       && a.current == before && a.final == Canonicalize(w.nfc, r.final)
       && a.edited == (if edited.Some? && edited.value.Text? then Canonicalize(w.nfc, edited.value.text) else "")
  }

  /** The first audit of an adopted candidate records it truly. */
  lemma AdoptionIsRecorded(w: World, s: State, id: CandidateId, actor: Actor, edited: Option<Submitted>)
    requires w.enabled && id in s.candidates && s.candidates[id].status == Open && IsNormalForm(w.nfc) && id !in s.audits
    requires AdoptTransaction(w, s, id, actor, edited).1.result.outcome in {OAdopted, OAdoptedEdited}
    ensures var (s', answer) := AdoptTransaction(w, s, id, actor, edited);
            var c := s.candidates[id].snap;
            c.target in s.targets
            && Recorded(w, s', id, actor, Canonicalize(w.nfc, Value(s.targets[c.target], c.field)), answer.result, edited)
  {
    hide Canonicalize;
    hide IsNormalForm;
    var c := s.candidates[id].snap;
    GateIffPermitted(w, s, id, actor, edited);
    hide Gate;
    if c.target in s.targets {
      DecisionWrites(w, s.targets[c.target], c, edited);
      CanonicalizeIdempotent(w.nfc, Value(s.targets[c.target], c.field));
      hide CompareAndWrite;
      hide FormTakes;
      hide IsOwnText;
    }
  }

  /** A rejection succeeds exactly if everything permits it; otherwise it names what is missing, and never writes. */
  lemma RejectionIffPermitted(w: World, s: State, id: CandidateId, actor: Actor)
    requires w.enabled && id in s.candidates && s.candidates[id].status == Open
    ensures var (s', answer) := RejectTransaction(w, s, id, actor);
            var c := s.candidates[id].snap;
            var permitted := w.supported(id) && w.intact(id) && w.current(id) && w.uncertainty(id) != Unknown
                             && c.target in s.targets && s.targets[c.target].active && w.canEdit(actor, c.target);
            && answer.Answer? && id in s'.candidates && s'.targets == s.targets
            && (answer.result.outcome == ORejected <==> permitted)
            && (s'.candidates[id].status == Rejected <==> permitted)
            && (permitted ==> answer.result.current == Canonicalize(w.nfc, Value(s.targets[c.target], c.field)))
            && (!permitted ==> RefusedFor(w, s, id, actor, answer.result.outcome))
  {
    hide Canonicalize;
    hide AuditOf;
  }

  /** A conflict can be discarded exactly by somebody who may edit the target, or by anybody once it is gone. */
  lemma DiscardIffPermitted(w: World, s: State, id: CandidateId, actor: Actor)
    requires w.enabled && id in s.candidates && s.candidates[id].status == Conflict
    ensures var (s', answer) := RejectTransaction(w, s, id, actor);
            var c := s.candidates[id];
            var permitted := w.supported(id) && (c.snap.target in s.targets ==> w.canEdit(actor, c.snap.target));
            && answer.Answer? && s'.targets == s.targets && s'.audits == s.audits
            && s'.candidates == (if permitted then s.candidates[id := c.(status := Rejected, code := ConflictDiscarded)] else s.candidates)
            && (answer.result.outcome == ORejected && !answer.result.idempotent <==> permitted)
            && (answer.result.outcome == OPermissionDenied && !answer.result.idempotent <==> w.supported(id) && !permitted)
  {
    hide Canonicalize;
  }

  /** The candidate says what was suggested and what was seen. */
  predicate Snapshots(w: World, t: Target, target: TargetId, g: Suggestion, c: Candidate) {
    && g.field.Some? && g.value.Text?
    && var seen := if g.field.value in t.fields then t.fields[g.field.value] else "";
       && c.snap.target == target && c.snap.field == g.field.value && c.snap.proposed == Canonicalize(w.nfc, g.value.text)
       && c.snap.previous == Canonicalize(w.nfc, seen) && c.snap.previousHash == Canonicalize(w.nfc, seen)
       && c.snap.targetUpdatedAt == t.updatedAt
  }

  lemma {:induction false} CreatedFrom(w: World, cs: map<CandidateId, Candidate>, audits: map<CandidateId, Audit>,
      target: TargetId, t: Target, gs: seq<Suggestion>, id: CandidateId)
    requires TidyRows(cs, audits) && id !in cs && CreateAll(w, cs, target, t, gs).Some?
    ensures id in CreateAll(w, cs, target, t, gs).value <==> exists k | 0 <= k < |gs| :: gs[k].id == id && gs[k].field.Some?
    ensures id in CreateAll(w, cs, target, t, gs).value ==>
              exists k | 0 <= k < |gs| :: gs[k].id == id && Snapshots(w, t, target, gs[k], CreateAll(w, cs, target, t, gs).value[id])
    decreases |gs|
  {
    hide Canonicalize;
    hide TidyRows;
    if gs != [] {
      var cs' := CreateOne(w, cs, target, t, gs[0]).value;
      CreateOneKeeps(w, cs, audits, target, t, gs[0]);
      CreateAllKeeps(w, cs', audits, target, t, gs[1..]);
      if gs[0].id == id && gs[0].field.Some? {
        assert Snapshots(w, t, target, gs[0], cs'[id]);
        KeptSnapshot(w, t, target, gs[0], cs'[id], CreateAll(w, cs', target, t, gs[1..]).value[id]);
        assert gs[0].id == id && Snapshots(w, t, target, gs[0], CreateAll(w, cs, target, t, gs).value[id]);
      } else {
        hide Snapshots;
        CreatedFrom(w, cs', audits, target, t, gs[1..], id);
        assert forall k | 0 < k < |gs| :: gs[k] == gs[1..][k - 1];
        if id in CreateAll(w, cs, target, t, gs).value {
          var k :| 0 <= k < |gs[1..]| && gs[1..][k].id == id && Snapshots(w, t, target, gs[1..][k], CreateAll(w, cs', target, t, gs[1..]).value[id]);
          assert gs[k + 1].id == id && Snapshots(w, t, target, gs[k + 1], CreateAll(w, cs, target, t, gs).value[id]);
        }
      }
    }
  }

  lemma KeptSnapshot(w: World, t: Target, target: TargetId, g: Suggestion, c: Candidate, c': Candidate)
    requires Snapshots(w, t, target, g, c) && c'.snap == c.snap
    ensures Snapshots(w, t, target, g, c')
  {
    hide Canonicalize;
  }

  /** Suggestion `k` needs a candidate, and the value to be proposed is no text. */
  predicate InError(cs: map<CandidateId, Candidate>, gs: seq<Suggestion>, k: nat) {
    && k < |gs| && gs[k].field.Some? && gs[k].value == NotText && gs[k].id !in cs
    && forall j | 0 <= j < k :: gs[j].id == gs[k].id ==> gs[j].field == None
  }

  lemma {:induction false} CreateAllFails(w: World, cs: map<CandidateId, Candidate>, audits: map<CandidateId, Audit>,
      target: TargetId, t: Target, gs: seq<Suggestion>)
    requires TidyRows(cs, audits)
    ensures CreateAll(w, cs, target, t, gs).None? <==> exists k :: InError(cs, gs, k)
    decreases |gs|
  {
    hide Canonicalize;
    hide TidyRows;
    if gs != [] {
      if gs[0].field.Some? && gs[0].id !in cs && gs[0].value == NotText {
        assert InError(cs, gs, 0);
      } else {
        var cs' := CreateOne(w, cs, target, t, gs[0]).value;
        CreateOneKeeps(w, cs, audits, target, t, gs[0]);
        CreateAllFails(w, cs', audits, target, t, gs[1..]);
        assert forall id :: id in cs' <==> id in cs || (id == gs[0].id && gs[0].field.Some?);
        LaterErrors(cs, cs', gs);
      }
    }
  }

  lemma LaterErrors(cs: map<CandidateId, Candidate>, cs': map<CandidateId, Candidate>, gs: seq<Suggestion>)
    requires gs != [] && !InError(cs, gs, 0)
    requires forall id :: id in cs' <==> id in cs || (id == gs[0].id && gs[0].field.Some?)
    ensures (exists k :: InError(cs', gs[1..], k)) <==> exists k :: InError(cs, gs, k)
  {
    assert forall k | 0 < k < |gs| :: gs[k] == gs[1..][k - 1];
    forall k: nat | InError(cs', gs[1..], k) ensures InError(cs, gs, k + 1) {
      forall j | 0 <= j < k + 1 && gs[j].id == gs[k + 1].id ensures gs[j].field == None {
        if j > 0 {
          assert gs[j] == gs[1..][j - 1];
        }
      }
    }
    forall k: nat | InError(cs, gs, k) ensures k > 0 && InError(cs', gs[1..], k - 1) {
      assert gs[1..][k - 1] == gs[k];
    }
  }

  /** An analysis gets all its candidates, or none: none if it cannot be used, its target is gone or inactive, or a proposal is no text. */
  lemma CreationIff(w: World, s: State, target: TargetId, usable: bool, gs: seq<Suggestion>)
    requires Tidy(s)
    ensures var s' := CreateTransaction(w, s, target, usable, gs);
            if usable && target in s.targets && s.targets[target].active && (forall k :: !InError(s.candidates, gs, k))
            then forall id | id !in s.candidates ::
                   id in s'.candidates <==> exists k | 0 <= k < |gs| :: gs[k].id == id && gs[k].field.Some?
            else s' == s
  {
    hide Canonicalize;
    hide InError;
    if usable && target in s.targets && s.targets[target].active {
      TidyRowsOf(s);
      hide Tidy;
      hide TidyRows;
      CreateAllFails(w, s.candidates, s.audits, target, s.targets[target], gs);
      if CreateAll(w, s.candidates, target, s.targets[target], gs).Some? {
        forall id | id !in s.candidates
          ensures id in CreateAll(w, s.candidates, target, s.targets[target], gs).value
                  <==> exists k | 0 <= k < |gs| :: gs[k].id == id && gs[k].field.Some?
        {
          CreatedFrom(w, s.candidates, s.audits, target, s.targets[target], gs, id);
        }
      }
      hide CreateAll;
    }
  }

  lemma TidyRowsOf(s: State)
    requires Tidy(s)
    ensures TidyRows(s.candidates, s.audits)
  {
    TargetsAreFree(s, State(s.candidates, map[], s.audits));
  }

  /** Only adopting can write a target; rejecting, discarding and creating never do. */
  lemma OnlyAdoptionWrites(s: State, e: Event)
    requires e.RejectCall? || e.CreateCall?
    ensures Apply(s, e).targets == s.targets
  {
    hide Canonicalize;
    if e.RejectCall? && e.id in s.candidates {
      DecisionsResolve(e.w, s, e.id, e.actor, None);
    }
    hide AdoptDecision;
    hide RejectDecision;
    hide StoredOutcome;
  }

  lemma AdoptResolves(s: State, e: Event)
    requires e.AdoptCall? && Apply(s, e).targets != s.targets
    ensures e.id in s.candidates && s.candidates[e.id].status == Open
    ensures e.id in Apply(s, e).candidates && Terminal(Apply(s, e).candidates[e.id].status)
  {
    hide Canonicalize;
    if e.id in s.candidates {
      DecisionsResolve(e.w, s, e.id, e.actor, e.edited);
      hide AdoptDecision;
    }
  }

  function Writes(s: State, events: seq<Event>, id: CandidateId): nat
    decreases |events|
  {
    if events == [] then 0
    else
      var next := Apply(s, events[0]);
      (if events[0].AdoptCall? && events[0].id == id && next.targets != s.targets then 1 else 0)
      + Writes(next, events[1..], id)
  }

  /** Over every run a candidate is written to its target at most once, and never once it is resolved. */
  lemma {:induction false} WrittenAtMostOnce(s: State, events: seq<Event>, id: CandidateId)
    requires Tidy(s)
    ensures Writes(s, events, id) <= 1
    ensures id in s.candidates && Terminal(s.candidates[id].status) ==> Writes(s, events, id) == 0
    decreases |events|
  {
    if events != [] {
      var e := events[0];
      StepKeeps(s, e);
      WrittenAtMostOnce(Apply(s, e), events[1..], id);
      hide Apply;
      hide Tidy;
      if e.AdoptCall? && Apply(s, e).targets != s.targets {
        AdoptResolves(s, e);
      }
      if id in s.candidates && Terminal(s.candidates[id].status) {
        TerminalStep(s, e, id);
      }
    }
  }
}
