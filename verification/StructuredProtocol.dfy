/** Any number of users reviewing and committing one batch, one transaction at a time. */
module StructuredProtocol {
  import opened Options
  import opened StructuredModel
  import opened StructuredReview
  import opened StructuredExecution
  import opened StructuredSteps
  import opened StructuredReviewProofs
  import opened StructuredOutcome

  type CallId = nat

  /** How far a call of `commit_structured_batch` has come. */
  datatype Phase = Started | Holding | Failing(error: CommitError) | Ended(outcome: CommitOutcome)

  datatype Call = Call(actor: Actor, key: IdempotencyKey, phase: Phase)

  datatype System = System(rows: State, calls: map<CallId, Call>)

  /** One transaction. Each carries what it reads of the world outside these rows. */
  datatype Event =
    | Decide(w: World, item: ItemId, actor: Actor, action: ReviewAction)
    | Begin(w: World, call: CallId, actor: Actor, key: IdempotencyKey)
    | Reserve(call: CallId)
    | Execute(w: World, call: CallId)
    | Record(w: World, call: CallId)
    | Outside(domain: Domain)

  predicate At(x: System, c: CallId, phase: Phase) {
    c in x.calls && x.calls[c].phase == phase
  }

  predicate Holds(x: System, c: CallId) {
    c in x.calls && (x.calls[c].phase.Holding? || x.calls[c].phase.Failing?)
  }

  function Moved(x: System, c: CallId, phase: Phase, rows: State): System
    requires c in x.calls
  {
    System(rows, x.calls[c := x.calls[c].(phase := phase)])
  }

  ghost predicate DecideStep(h: Header, order: seq<ItemId>, x: System, e: Event, x': System)
    requires IsOrder(order, x.rows.items) && e.Decide?
  {
    x'.calls == x.calls &&
    if MayDecide(e.w, h, x.rows, e.item, e.actor, e.action)
    then Decides(e.w, h, order, x.rows, e.item, e.actor, e.action, x'.rows)
    else x'.rows == x.rows
  }

  /** The preflight of a new call. */
  ghost predicate BeginStep(h: Header, x: System, e: Event, x': System)
    requires e.Begin?
  {
    var phase := if Preflight(e.w, h, x.rows.batch, e.actor, e.key) then Started else Ended(RefusedBeforeReservation);
    e.call !in x.calls && x' == x.(calls := x.calls[e.call := Call(e.actor, e.key, phase)])
  }

  ghost predicate ReserveStep(h: Header, x: System, c: CallId, x': System) {
    At(x, c, Started) &&
    var call := x.calls[c];
    var rows := x.rows.(batch := ReserveBatch(h, x.rows.batch, call.actor, call.key));
    match ReservationOf(h, x.rows.batch, call.key)
    case Reserved(_) => x' == Moved(x, c, Holding, rows)
    case Replay(attempt, result) => x' == Moved(x, c, Ended(Replayed(attempt, result)), rows)
    case Refused => x' == Moved(x, c, Ended(RefusedBeforeReservation), rows)
  }

  ghost predicate ExecuteStep(w: World, h: Header, order: seq<ItemId>, x: System, c: CallId, x': System)
    requires IsOrder(order, x.rows.items)
  {
    At(x, c, Holding) &&
    var call := x.calls[c];
    if CanExecute(w, h, order, x.rows, call.actor, call.key) then
      && Executed(w, h, x.rows, call.actor, x'.rows)
      && x' == Moved(x, c, Ended(Done(x'.rows.batch.attempts, x'.rows.batch.result)), x'.rows)
    else
      exists e :: Reports(w, h, order, x.rows, call.actor, call.key, e) && x' == Moved(x, c, Failing(e), x.rows)
  }

  ghost predicate RecordStep(w: World, x: System, c: CallId, x': System) {
    c in x.calls && x.calls[c].phase.Failing? &&
    var e := x.calls[c].phase.error;
    x' == Moved(x, c, Ended(FailedWith(e)), RecordFailure(w, x.rows, x.calls[c].actor, e))
  }

  ghost predicate Step(h: Header, order: seq<ItemId>, x: System, e: Event, x': System) {
    && IsOrder(order, x.rows.items)
    && (match e
        case Decide(_, _, _, _) => DecideStep(h, order, x, e, x')
        case Begin(_, _, _, _) => BeginStep(h, x, e, x')
        case Reserve(c) => ReserveStep(h, x, c, x')
        case Execute(w, c) => ExecuteStep(w, h, order, x, c, x')
        case Record(w, c) => RecordStep(w, x, c, x')
        case Outside(domain) =>
          // anything, except that ids once handed out are not handed out again
          Allocated(domain) && x.rows.domain.nextId <= domain.nextId && x' == x.(rows := x.rows.(domain := domain)))
  }

  ghost predicate Initial(h: Header, order: seq<ItemId>, x: System) {
    && IsOrder(order, x.rows.items) && LocalKeysUnique(x.rows.items) && Allocated(x.rows.domain)
    && (forall id | id in x.rows.items :: FreshItem(h, x.rows.items[id]))
    && x == System(NewReview(h, order, x.rows.items, x.rows.domain, h.createdBy), map[])
  }

  ghost predicate Run(h: Header, order: seq<ItemId>, run: seq<System>, events: seq<Event>) {
    && |run| == |events| + 1 && Initial(h, order, run[0])
    && forall k | 0 <= k < |events| :: Step(h, order, run[k], events[k], run[k + 1])
  }

  // ---- what is counted over a run

  /** The event is a reservation that was granted. */
  predicate Grants(e: Event, x': System) {
    e.Reserve? && At(x', e.call, Holding)
  }

  /** The event wrote the domain on behalf of the batch. */
  predicate Writes(e: Event, x': System) {
    e.Execute? && e.call in x'.calls && x'.calls[e.call].phase.Ended?
  }

  function CountGrants(run: seq<System>, events: seq<Event>): nat
    requires |run| == |events| + 1
  {
    if events == [] then 0
    else
      var n := |events| - 1;
      CountGrants(run[..n + 1], events[..n]) + if Grants(events[n], run[n + 1]) then 1 else 0
  }

  function CountWrites(run: seq<System>, events: seq<Event>): nat
    requires |run| == |events| + 1
  {
    if events == [] then 0
    else
      var n := |events| - 1;
      CountWrites(run[..n + 1], events[..n]) + if Writes(events[n], run[n + 1]) then 1 else 0
  }

  function CountCommitAudits(audits: seq<Audit>): nat {
    if audits == [] then 0
    else CountCommitAudits(audits[..|audits| - 1]) + if audits[|audits| - 1].event == CommittedEvent then 1 else 0
  }

  // ---- the invariant

  function CommittedCount(b: Batch): nat {
    if b.status == Committed then 1 else 0
  }

  /** A batch in process is held by exactly one call, whose key and actor are the batch's; any other by none. */
  ghost predicate HeldProperly(x: System) {
    && (forall c, d | Holds(x, c) && Holds(x, d) :: c == d)
    && (x.rows.batch.status == Processing <==> exists c :: Holds(x, c))
    && (forall c | Holds(x, c) :: x.calls[c].key == x.rows.batch.key && x.rows.batch.processingBy == Some(x.calls[c].actor))
  }

  predicate Tells(p: Phase, b: Batch) {
    p.Ended? && (p.outcome.Done? || p.outcome.Replayed?) ==>
      b.status == Committed && p.outcome.attempt == b.attempts && p.outcome.result == b.result
  }

  /** Every call that got a result got the one result of the batch, and one call produced it. */
  ghost predicate OneResult(x: System) {
    && (forall c | c in x.calls :: Tells(x.calls[c].phase, x.rows.batch))
    && (forall c, d | c in x.calls && d in x.calls && Produced(x.calls[c].phase) && Produced(x.calls[d].phase) :: c == d)
    && (x.rows.batch.status == Committed <==> exists c :: c in x.calls && Produced(x.calls[c].phase))
  }

  predicate Produced(p: Phase) { p.Ended? && p.outcome.Done? }

  ghost predicate Sound(h: Header, order: seq<ItemId>, x: System) {
    && ReviewSound(h, order, x.rows) && Constraints(order, x.rows.items, x.rows.domain)
    && HeldProperly(x) && OneResult(x)
  }

  // ---- what each transaction does to the batch row

  lemma DecisionRow(w: World, h: Header, order: seq<ItemId>, s: State, id: ItemId, actor: Actor, action: ReviewAction, s': State)
    requires IsOrder(order, s.items) && Decides(w, h, order, s, id, actor, action, s')
    ensures Editable(s.batch.status) && Editable(s'.batch.status)
    ensures s'.batch.attempts == s.batch.attempts
    ensures exists a: Audit :: a.event != CommittedEvent && s'.audits == s.audits + [a]
  {
    hide Confirms;
    hide RejectItem;
    var a := Audit(if action == Reject then RejectedEvent else ConfirmedEvent, actor, Some(id), s'.batch.key, s.batch.attempts);
    assert s'.audits == s.audits + [a];
  }

  lemma ExecutionRow(w: World, h: Header, s: State, actor: Actor, s': State)
    requires Executed(w, h, s, actor, s')
    ensures s'.batch == CommittedBatch(w, s.batch, s'.batch.result)
    ensures s'.audits == s.audits + [Audit(CommittedEvent, actor, None, s.batch.key, s.batch.attempts)]
  {
    hide GroupExecuted;
    hide ResultFits;
  }

  lemma AuditAdded(audits: seq<Audit>, a: Audit)
    ensures CountCommitAudits(audits + [a]) == CountCommitAudits(audits) + if a.event == CommittedEvent then 1 else 0
  {
    assert (audits + [a])[..|audits|] == audits;
  }

  // ---- soundness of the items is kept

  lemma ExecutionKeepsItem(w: World, h: Header, items: Items, items': Items, id: ItemId)
    requires ItemsSound(h, items) && ItemsResolved(w, items, items') && id in items
    ensures DecisionFits(items'[id]) && DependencyFits(items', items'[id]) && KindFits(h, items'[id])
    ensures items'[id].localKey == items[id].localKey
  {
    hide KindFits;
    DependencyIsStage(h, items, id);
    assert ItemResolved(w, items[id], items'[id]) && SameOrigin(items[id], items'[id]);
    SameKind(h, items[id], items'[id]);
    if items[id].dependsOn.Some? {
      assert ItemResolved(w, items[items[id].dependsOn.value], items'[items[id].dependsOn.value]);
    }
    hide ItemsSound;
    hide ItemsResolved;
    hide InvalidDependency;
  }

  lemma ExecutionKeepsSound(w: World, h: Header, order: seq<ItemId>, s: State, actor: Actor, key: IdempotencyKey, s': State)
    requires ReviewSound(h, order, s) && CanExecute(w, h, order, s, actor, key) && Executed(w, h, s, actor, s')
    ensures ReviewSound(h, order, s')
  {
    hide CanExecute;
    hide Executed;
    hide DecisionFits;
    hide DependencyFits;
    hide KindFits;
    hide ItemResolved;
    hide GraphOf;
    ExecutionResolvesItems(w, h, order, s, actor, key, s');
    ExecutionRow(w, h, s, actor, s');
    forall id | id in s.items
      ensures DecisionFits(s'.items[id]) && DependencyFits(s'.items, s'.items[id]) && KindFits(h, s'.items[id])
      ensures s'.items[id].localKey == s.items[id].localKey
    {
      ExecutionKeepsItem(w, h, s.items, s'.items, id);
    }
  }

  lemma SoundOrder(h: Header, order: seq<ItemId>, s: State)
    requires ReviewSound(h, order, s)
    ensures IsOrder(order, s.items)
  {
  }

  lemma RowsKeepSound(h: Header, order: seq<ItemId>, s: State, s': State)
    requires ReviewSound(h, order, s) && s'.items == s.items && s.batch.status != Committed
    requires s'.batch.key == s.batch.key && s'.batch.graph == s.batch.graph
    ensures ReviewSound(h, order, s')
  {
    hide ItemsSound;
  }

  // ---- every transaction keeps the invariant

  lemma ReserveKeepsSound(h: Header, order: seq<ItemId>, x: System, c: CallId, x': System)
    requires Sound(h, order, x) && ReserveStep(h, x, c, x')
    ensures Sound(h, order, x')
    ensures x'.rows.batch.attempts == x.rows.batch.attempts + if At(x', c, Holding) then 1 else 0
    ensures CommittedCount(x'.rows.batch) == CommittedCount(x.rows.batch) && x'.rows.audits == x.rows.audits
  {
    hide Constraints;
    hide ReviewSound;
    hide OneResult;
    if ReservationOf(h, x.rows.batch, x.calls[c].key).Reserved? {
      RowsKeepSound(h, order, x.rows, x'.rows);
      assert Holds(x', c);
    }
    assert forall d :: d != c ==> (Holds(x', d) <==> Holds(x, d));
    CallKeepsResult(x, c, x');
  }

  /** A call that did not produce the result moves on without touching what others got. */
  lemma CallKeepsResult(x: System, c: CallId, x': System)
    requires OneResult(x) && c in x.calls && !Produced(x.calls[c].phase)
    requires c in x'.calls && x'.calls == x.calls[c := x'.calls[c]] && !Produced(x'.calls[c].phase)
    requires x'.rows.batch.status == Committed <==> x.rows.batch.status == Committed
    requires x.rows.batch.status == Committed ==> x'.rows.batch == x.rows.batch
    requires Tells(x'.calls[c].phase, x'.rows.batch)
    ensures OneResult(x')
  {
    assert forall d :: d in x'.calls <==> d in x.calls;
    assert forall d | d in x.calls && d != c :: x'.calls[d] == x.calls[d];
  }

  lemma ExecuteKeepsSound(w: World, h: Header, order: seq<ItemId>, x: System, c: CallId, x': System)
    requires Sound(h, order, x) && ExecuteStep(w, h, order, x, c, x')
    ensures Sound(h, order, x')
    ensures x'.rows.batch.attempts == x.rows.batch.attempts
    ensures var n := if x'.calls[c].phase.Ended? then 1 else 0;
            && CommittedCount(x'.rows.batch) == CommittedCount(x.rows.batch) + n
            && CountCommitAudits(x'.rows.audits) == CountCommitAudits(x.rows.audits) + n
  {
    hide Constraints;
    hide ReviewSound;
    hide CanExecute;
    hide Executed;
    hide Reports;
    assert Holds(x, c);
    SoundOrder(h, order, x.rows);
    var call := x.calls[c];
    if CanExecute(w, h, order, x.rows, call.actor, call.key) {
      ExecutionKeepsSound(w, h, order, x.rows, call.actor, call.key, x'.rows);
      ExecutionKeepsConstraints(w, h, order, x.rows, call.actor, x'.rows);
      ExecutionRow(w, h, x.rows, call.actor, x'.rows);
      AuditAdded(x.rows.audits, Audit(CommittedEvent, call.actor, None, x.rows.batch.key, x.rows.batch.attempts));
      assert forall d :: Holds(x', d) ==> d != c && Holds(x, d);
      ExecutionProduces(x, c, x');
    } else {
      assert forall d :: Holds(x', d) <==> Holds(x, d);
      CallKeepsResult(x, c, x');
    }
  }

  /** Before the commit nobody has a result, so the call that commits is the only one that produced it. */
  lemma ExecutionProduces(x: System, c: CallId, x': System)
    requires OneResult(x) && x.rows.batch.status == Processing && c in x.calls
    requires x'.rows.batch.status == Committed
    requires x' == Moved(x, c, Ended(Done(x'.rows.batch.attempts, x'.rows.batch.result)), x'.rows)
    ensures OneResult(x')
  {
    assert c in x'.calls && Produced(x'.calls[c].phase);
    assert forall d | d in x.calls && d != c :: x'.calls[d] == x.calls[d] && !Produced(x.calls[d].phase);
  }

  lemma RecordKeepsSound(w: World, h: Header, order: seq<ItemId>, x: System, c: CallId, x': System)
    requires Sound(h, order, x) && RecordStep(w, x, c, x')
    ensures Sound(h, order, x')
    ensures x'.rows.batch.attempts == x.rows.batch.attempts && CommittedCount(x'.rows.batch) == CommittedCount(x.rows.batch)
    ensures CountCommitAudits(x'.rows.audits) == CountCommitAudits(x.rows.audits)
  {
    hide Constraints;
    assert Holds(x, c);
    RowsKeepSound(h, order, x.rows, x'.rows);
    hide ReviewSound;
    var a := x'.rows.audits[|x.rows.audits|];
    AuditAdded(x.rows.audits, a);
    assert forall d :: Holds(x', d) ==> d != c && Holds(x, d);
    CallKeepsResult(x, c, x');
  }

  lemma DecisionKeepsConstraints(w: World, h: Header, order: seq<ItemId>, s: State, id: ItemId, actor: Actor,
      action: ReviewAction, s': State)
    requires Constraints(order, s.items, s.domain) && IsOrder(order, s.items) && Decides(w, h, order, s, id, actor, action, s')
    ensures Constraints(order, s'.items, s'.domain)
  {
    hide Constraints;
    hide RejectItem;
    hide Confirms;
    hide StructuredReview.SealBatch;
    if action == Reject {
      RejectionKeepsConstraints(w, order, s, id, actor);
    } else {
      ConfirmationKeepsConstraints(w, h, order, s, id, actor, action, s'.items);
    }
  }

  lemma DecideKeepsSound(h: Header, order: seq<ItemId>, x: System, e: Event, x': System)
    requires Sound(h, order, x) && e.Decide? && DecideStep(h, order, x, e, x')
    ensures Sound(h, order, x')
    ensures x'.rows.batch.attempts == x.rows.batch.attempts && CommittedCount(x'.rows.batch) == CommittedCount(x.rows.batch)
    ensures CountCommitAudits(x'.rows.audits) == CountCommitAudits(x.rows.audits)
  {
    hide Constraints;
    hide ReviewSound;
    hide Decides;
    hide MayDecide;
    assert forall d :: Holds(x', d) <==> Holds(x, d);
    SoundOrder(h, order, x.rows);
    if MayDecide(e.w, h, x.rows, e.item, e.actor, e.action) {
      DecisionKeepsSound(e.w, h, order, x.rows, e.item, e.actor, e.action, x'.rows);
      DecisionKeepsConstraints(e.w, h, order, x.rows, e.item, e.actor, e.action, x'.rows);
      DecisionRow(e.w, h, order, x.rows, e.item, e.actor, e.action, x'.rows);
      var a: Audit :| a.event != CommittedEvent && x'.rows.audits == x.rows.audits + [a];
      AuditAdded(x.rows.audits, a);
    }
  }

  lemma BeginKeepsSound(h: Header, order: seq<ItemId>, x: System, e: Event, x': System)
    requires Sound(h, order, x) && e.Begin? && BeginStep(h, x, e, x')
    ensures Sound(h, order, x') && x'.rows == x.rows
  {
    hide Constraints;
    hide ReviewSound;
    hide Preflight;
    assert forall d | d in x.calls :: d != e.call && x'.calls[d] == x.calls[d];
    assert forall d :: Holds(x', d) <==> Holds(x, d);
  }

  lemma OutsideKeepsConstraints(order: seq<ItemId>, items: Items, d: Domain, d': Domain)
    requires Constraints(order, items, d) && Allocated(d') && d.nextId <= d'.nextId
    ensures Constraints(order, items, d')
  {
    hide IsOrder;
    hide LocalKeysUnique;
    hide Allocated;
  }

  lemma OutsideKeepsSound(h: Header, order: seq<ItemId>, x: System, d: Domain)
    requires Sound(h, order, x) && Allocated(d) && x.rows.domain.nextId <= d.nextId
    ensures Sound(h, order, x.(rows := x.rows.(domain := d)))
  {
    hide ItemsSound;
    hide Constraints;
    hide Allocated;
    OutsideKeepsConstraints(order, x.rows.items, x.rows.domain, d);
    var x' := x.(rows := x.rows.(domain := d));
    assert forall c :: Holds(x', c) <==> Holds(x, c);
  }

  lemma StepKeepsSound(h: Header, order: seq<ItemId>, x: System, e: Event, x': System)
    requires Sound(h, order, x) && Step(h, order, x, e, x')
    ensures Sound(h, order, x')
    ensures x'.rows.batch.attempts == x.rows.batch.attempts + if Grants(e, x') then 1 else 0
    ensures var n := if Writes(e, x') then 1 else 0;
            && CommittedCount(x'.rows.batch) == CommittedCount(x.rows.batch) + n
            && CountCommitAudits(x'.rows.audits) == CountCommitAudits(x.rows.audits) + n
  {
    hide Sound;
    hide DecideStep;
    hide BeginStep;
    hide ExecuteStep;
    hide ReserveStep;
    hide RecordStep;
    match e
    case Decide(_, _, _, _) => DecideKeepsSound(h, order, x, e, x');
    case Begin(_, _, _, _) => BeginKeepsSound(h, order, x, e, x');
    case Reserve(c) => ReserveKeepsSound(h, order, x, c, x');
    case Execute(w, c) =>
      ExecuteKeepsSound(w, h, order, x, c, x');
      ExecuteKeepsCall(w, h, order, x, c, x');
    case Record(w, c) => RecordKeepsSound(w, h, order, x, c, x');
    case Outside(d) => OutsideKeepsSound(h, order, x, d);
  }

  lemma ExecuteKeepsCall(w: World, h: Header, order: seq<ItemId>, x: System, c: CallId, x': System)
    requires IsOrder(order, x.rows.items) && ExecuteStep(w, h, order, x, c, x')
    ensures c in x'.calls
  {
    hide CanExecute;
    hide Executed;
    hide Reports;
  }

  lemma InitialIsSound(h: Header, order: seq<ItemId>, x: System)
    requires Initial(h, order, x)
    ensures Sound(h, order, x) && x.rows.batch.attempts == 0 && CommittedCount(x.rows.batch) == 0
    ensures CountCommitAudits(x.rows.audits) == 0
  {
    CreationIsSound(h, order, x.rows.items, x.rows.domain, h.createdBy);
    hide ReviewSound;
    hide IsOrder;
    hide LocalKeysUnique;
    hide Allocated;
    AuditAdded([], x.rows.audits[0]);
    assert [] + [x.rows.audits[0]] == x.rows.audits;
  }

  /**
   * Exactly-once commit. Over every interleaving of decisions, calls, reservations, executions and
   * failure records by any number of users, and whatever happens to the domain in between: at most
   * one call holds the batch and it is in process exactly while one does; attempts count the granted
   * reservations; the domain is written at most once, exactly when the batch is committed, with one
   * commit audit; and every call that got a result got the same one. The items stay sound and sealed.
   */
  lemma {:induction false} ExactlyOnceCommit(h: Header, order: seq<ItemId>, run: seq<System>, events: seq<Event>)
    requires Run(h, order, run, events)
    ensures Sound(h, order, run[|events|])
    ensures run[|events|].rows.batch.attempts == CountGrants(run, events)
    ensures CountWrites(run, events) == CommittedCount(run[|events|].rows.batch)
    ensures CountCommitAudits(run[|events|].rows.audits) == CommittedCount(run[|events|].rows.batch)
    decreases |events|
  {
    hide Sound;
    hide Step;
    hide Initial;
    var n := |events| - 1;
    if events == [] {
      InitialIsSound(h, order, run[0]);
    } else {
      ExactlyOnceCommit(h, order, run[..n + 1], events[..n]);
      StepKeepsSound(h, order, run[n], events[n], run[n + 1]);
    }
  }

  // ---- what a committed batch keeps, and what a holder is spared

  lemma CommittedRefusesDecision(h: Header, order: seq<ItemId>, x: System, e: Event, x': System)
    requires IsOrder(order, x.rows.items) && e.Decide? && DecideStep(h, order, x, e, x') && x.rows.batch.status == Committed
    ensures x'.rows == x.rows
  {
    hide Decides;
    hide Snapshot;
    hide ReferenceAccepted;
  }

  /** Once committed, the batch, its items and its audits never change again; only others change the domain. */
  lemma CommittedIsFinal(h: Header, order: seq<ItemId>, x: System, e: Event, x': System)
    requires Sound(h, order, x) && Step(h, order, x, e, x') && x.rows.batch.status == Committed
    ensures x'.rows == x.rows.(domain := x'.rows.domain)
    ensures !e.Outside? ==> x'.rows == x.rows
  {
    hide ReviewSound;
    hide DecideStep;
    hide CanExecute;
    hide Executed;
    hide Reports;
    hide OneResult;
    assert forall c :: !Holds(x, c) && !At(x, c, Holding);
    match e
    case Decide(_, _, _, _) => CommittedRefusesDecision(h, order, x, e, x');
    case Reserve(c) =>
    case Execute(w, c) =>
    case Record(w, c) =>
    case Begin(_, _, _, _) =>
    case Outside(d) =>
  }

  /** A later call with the committed key changes nothing and gets the stored result. */
  lemma CommittedIsReplayed(h: Header, order: seq<ItemId>, x: System, c: CallId, x': System)
    requires Sound(h, order, x) && Step(h, order, x, Reserve(c), x') && x.rows.batch.status == Committed
    ensures x'.rows == x.rows
    ensures At(x', c, if x.calls[c].key == x.rows.batch.key then Ended(Replayed(x.rows.batch.attempts, x.rows.batch.result))
                      else Ended(RefusedBeforeReservation))
  {
    hide ItemsSound;
  }

  /** No decision and no other commit takes a reservation away from the call that holds it. */
  lemma HolderIsNotEvicted(w: World, h: Header, order: seq<ItemId>, x: System, c: CallId, x': System)
    requires Sound(h, order, x) && Step(h, order, x, Execute(w, c), x')
    ensures c in x'.calls && x'.calls[c].phase.Failing? ==>
              x'.rows == x.rows && x'.calls[c].phase.error != KeyMismatch && x'.calls[c].phase.error != ReservationLost
  {
    hide GraphAccepted;
    hide DomainAccepts;
    hide DomainClash;
    hide Executed;
    hide ItemsSound;
    assert Holds(x, c);
  }

  /** What a call commits is the graph of the key it was made with, whatever was decided since it read it. */
  lemma CallCommitsItsKey(w: World, h: Header, order: seq<ItemId>, x: System, c: CallId, x': System)
    requires Sound(h, order, x) && Step(h, order, x, Execute(w, c), x') && c in x.calls
    requires c in x'.calls && x'.calls[c].phase.Ended?
    ensures x.calls[c].key.IdempotencyKey? && x.calls[c].key.graph.GraphHash? && |x.calls[c].key.graph.entries| == |order|
    ensures forall n: nat | n < |order| :: AdoptsEntry(order, x.calls[c].key, x.rows.items, x'.rows.items, n)
    ensures x'.calls[c].key == x.calls[c].key
  {
    hide CanExecute;
    hide Executed;
    hide Reports;
    hide AdoptsEntry;
    hide Sound;
    CommitAdoptsSealedGraph(w, h, order, x.rows, x.calls[c].actor, x.calls[c].key, x'.rows);
  }

  /** In every run, what a successful execution leaves is the outcome that was confirmed, new and distinct objects included. */
  lemma CommitInRunIsComplete(w: World, h: Header, order: seq<ItemId>, run: seq<System>, events: seq<Event>, k: nat, c: CallId)
    requires Run(h, order, run, events) && k < |events| && events[k] == Execute(w, c) && Writes(events[k], run[k + 1])
    ensures Outcome(w, h, run[k].rows, run[k + 1].rows)
  {
    RunIsSound(h, order, run, events, k);
    assert Step(h, order, run[k], events[k], run[k + 1]);
    hide Run;
    hide ReviewSound;
    hide HeldProperly;
    hide OneResult;
    hide Constraints;
    hide CanExecute;
    hide Executed;
    hide Reports;
    hide Outcome;
    ExecutionOutcome(w, h, order, run[k].rows, run[k].calls[c].actor, run[k].calls[c].key, run[k + 1].rows);
  }

  lemma RunIsSound(h: Header, order: seq<ItemId>, run: seq<System>, events: seq<Event>, k: nat)
    requires Run(h, order, run, events) && k <= |events|
    ensures Sound(h, order, run[k])
  {
    hide Sound;
    hide Step;
    hide Initial;
    ExactlyOnceCommit(h, order, run[..k + 1], events[..k]);
  }

  /** COMMITTED is absorbing: from the commit on, batch row, items and audits are the same for ever. */
  lemma {:induction false} CommittedIsAbsorbing(h: Header, order: seq<ItemId>, run: seq<System>, events: seq<Event>, j: nat, k: nat)
    requires Run(h, order, run, events) && j <= k <= |events| && run[j].rows.batch.status == Committed
    ensures run[k].rows == run[j].rows.(domain := run[k].rows.domain)
    decreases k
  {
    hide Sound;
    hide Step;
    hide Initial;
    if j < k {
      RunIsSound(h, order, run, events, k - 1);
      CommittedIsAbsorbing(h, order, run, events, j, k - 1);
      CommittedIsFinal(h, order, run[k - 1], events[k - 1], run[k]);
    }
  }

  /** At no point of any run is a process confirmed for a stage of the batch that was rejected or is unusable. */
  lemma ConfirmedProcessHasStage(h: Header, order: seq<ItemId>, run: seq<System>, events: seq<Event>, k: nat, id: ItemId)
    requires Run(h, order, run, events) && k <= |events| && id in run[k].rows.items
    requires run[k].rows.items[id].status == Confirmed && run[k].rows.items[id].dependsOn.Some?
    ensures var items := run[k].rows.items;
            var stage := items[id].dependsOn.value;
            && stage in items && items[stage].kind == ValueStreamStage && items[stage].localKey == items[id].dependencyKey
            && !InvalidDependency(items[stage].status) && items[stage].decision != Rejected
  {
    RunIsSound(h, order, run, events, k);
    hide Run;
    DependencyIsStage(h, run[k].rows.items, id);
    hide HeldProperly;
    hide OneResult;
  }

  /** Until it is committed, a batch carries the hash and the key of its current items. */
  lemma UncommittedIsSealed(h: Header, order: seq<ItemId>, run: seq<System>, events: seq<Event>, k: nat)
    requires Run(h, order, run, events) && k <= |events| && run[k].rows.batch.status != Committed
    ensures IsOrder(order, run[k].rows.items)
    ensures run[k].rows.batch.graph == GraphHash(GraphOf(order, run[k].rows.items))
    ensures run[k].rows.batch.key == KeyOf(h, run[k].rows.batch.graph)
  {
    RunIsSound(h, order, run, events, k);
    hide Run;
    hide ItemsSound;
    hide HeldProperly;
    hide OneResult;
  }

  /** Whenever, in any run, the batch shows as ready, its graph is in order and only the domain can still object. */
  lemma ReadyInRunIsExecutable(w: World, h: Header, order: seq<ItemId>, run: seq<System>, events: seq<Event>, k: nat, actor: Actor)
    requires Run(h, order, run, events) && k <= |events| && Ready(run[k].rows)
    ensures var s := run[k].rows;
            var reserved := s.(batch := ReserveBatch(h, s.batch, actor, s.batch.key));
            && IsOrder(order, s.items) && GraphAccepted(order, reserved)
            && (CanExecute(w, h, order, reserved, actor, s.batch.key) <==>
                  && w.targetExists && w.canEdit(actor) && w.sessionCurrent && w.analysisCurrent
                  && DomainAgrees(w, h, s.items, s.domain))
  {
    RunIsSound(h, order, run, events, k);
    hide Run;
    hide ReviewSound;
    hide HeldProperly;
    hide OneResult;
    hide Ready;
    hide CanExecute;
    hide GraphAccepted;
    hide DomainAgrees;
    SoundOrder(h, order, run[k].rows);
    ReadyImpliesExecutable(w, h, order, run[k].rows, actor);
  }
}
