/** From the decision to the domain: over every run, what a commit writes is what was decided and sealed. */
module StructuredCustody {
  import opened StructuredModel
  import opened StructuredReview
  import opened StructuredExecution
  import opened StructuredSteps
  import opened StructuredReviewProofs
  import opened StructuredOutcome
  import opened StructuredProtocol
  import opened StructuredValues

  // ---- a decision stays until the next one

  /** The event is a decision on the item, and it is taken. */
  ghost predicate DecidesOn(h: Header, x: System, e: Event, id: ItemId) {
    e.Decide? && e.item == id && MayDecide(e.w, h, x.rows, id, e.actor, e.action)
  }

  predicate Kept(i: Item, i': Item) { i' == i || i'.decision == Pending }

  lemma OtherDecisionKeeps(w: World, h: Header, order: seq<ItemId>, s: State, other: ItemId, actor: Actor, action: ReviewAction,
      s': State, id: ItemId)
    requires IsOrder(order, s.items) && Decides(w, h, order, s, other, actor, action, s') && id in s.items && id != other
    ensures id in s'.items && Kept(s.items[id], s'.items[id])
  {
    hide StructuredReview.SealBatch;
    if action.Reject? {
      RejectedRow(w, s.items, other, actor, id);
      hide RejectItem;
      hide Dependent;
    } else {
      var bound := BoundItem(w, h, s, other, actor, action, s'.items);
      hide Confirms;
      hide Binds;
      hide Snapshot;
      hide ConfirmedItem;
    }
  }

  lemma StepKeepsDecision(h: Header, order: seq<ItemId>, x: System, e: Event, x': System, id: ItemId)
    requires Step(h, order, x, e, x') && id in x.rows.items && !DecidesOn(h, x, e, id)
    requires x'.rows.batch.status != BatchStatus.Committed
    ensures id in x'.rows.items && Kept(x.rows.items[id], x'.rows.items[id])
  {
    hide MayDecide;
    hide Decides;
    hide CanExecute;
    hide Executed;
    hide Reports;
    match e
    case Decide(w, item, actor, action) =>
      if MayDecide(w, h, x.rows, item, actor, action) {
        OtherDecisionKeeps(w, h, order, x.rows, item, actor, action, x'.rows, id);
      }
    case Execute(w, c) =>
      if CanExecute(w, h, order, x.rows, x.calls[c].actor, x.calls[c].key) {
        ExecutionRow(w, h, x.rows, x.calls[c].actor, x'.rows);
      }
    case _ =>
  }

  /** A batch that is about to be written has not been committed before. */
  lemma NotYetCommitted(h: Header, order: seq<ItemId>, run: seq<System>, events: seq<Event>, j: nat, k: nat)
    requires Run(h, order, run, events) && j <= k <= |events| && run[k].rows.batch.status != BatchStatus.Committed
    ensures run[j].rows.batch.status != BatchStatus.Committed
  {
    if run[j].rows.batch.status == BatchStatus.Committed {
      CommittedIsAbsorbing(h, order, run, events, j, k);
    }
    hide Run;
  }

  lemma {:induction false} DecisionStays(h: Header, order: seq<ItemId>, run: seq<System>, events: seq<Event>, j: nat, k: nat, id: ItemId)
    requires Run(h, order, run, events) && j <= k <= |events| && id in run[j].rows.items
    requires run[k].rows.batch.status != BatchStatus.Committed
    requires forall m | j <= m < k :: !DecidesOn(h, run[m], events[m], id)
    ensures id in run[k].rows.items && Kept(run[j].rows.items[id], run[k].rows.items[id])
    decreases k
  {
    hide Step;
    hide Initial;
    hide DecidesOn;
    if j < k {
      NotYetCommitted(h, order, run, events, k - 1, k);
      DecisionStays(h, order, run, events, j, k - 1, id);
      StepKeepsDecision(h, order, run[k - 1], events[k - 1], run[k], id);
    }
  }

  // ---- the writing step

  lemma WritingStep(h: Header, order: seq<ItemId>, x: System, w: World, c: CallId, x': System)
    requires Step(h, order, x, Execute(w, c), x') && Writes(Execute(w, c), x')
    ensures c in x.calls && IsOrder(order, x.rows.items)
    ensures CanExecute(w, h, order, x.rows, x.calls[c].actor, x.calls[c].key) && Executed(w, h, x.rows, x.calls[c].actor, x'.rows)
    ensures x.rows.batch.status == Processing && x.calls[c].key == x.rows.batch.key
  {
    hide Executed;
    hide Reports;
    hide GraphAccepted;
    hide DomainAccepts;
  }

  lemma ExecutableIsDecided(w: World, h: Header, order: seq<ItemId>, s: State, actor: Actor, key: IdempotencyKey, id: ItemId)
    requires IsOrder(order, s.items) && CanExecute(w, h, order, s, actor, key) && id in s.items
    ensures s.items[id].decision != Pending
  {
    assert ItemAccepted(s.items, s.items[id]);
    hide DomainAccepts;
  }

  predicate Undisturbed(before: Items, after: Items, id: ItemId) {
    id in before && id in after && after[id] == before[id]
  }

  /** What stood on an item after its last decision is what the execution meets. */
  lemma DecisionReachesWrite(h: Header, order: seq<ItemId>, run: seq<System>, events: seq<Event>, j: nat, k: nat, id: ItemId,
      w: World, c: CallId)
    requires Run(h, order, run, events) && j <= k < |events| && id in run[j].rows.items
    requires forall m | j <= m < k :: !DecidesOn(h, run[m], events[m], id)
    requires events[k] == Execute(w, c) && Writes(events[k], run[k + 1])
    ensures Undisturbed(run[j].rows.items, run[k].rows.items, id)
  {
    assert Step(h, order, run[k], events[k], run[k + 1]);
    hide Step;
    hide DecidesOn;
    WritingStep(h, order, run[k], w, c, run[k + 1]);
    hide Writes;
    hide CanExecute;
    hide Executed;
    DecisionStays(h, order, run, events, j, k, id);
    hide Run;
    ExecutableIsDecided(w, h, order, run[k].rows, run[k].calls[c].actor, run[k].calls[c].key, id);
  }

  // ---- what was decided is what is written

  /** The metric field `path` was written as what the form makes of `c` together with the other six values. */
  ghost predicate MetricWritten(w: World, s: State, s': State, path: string, c: Cell) {
    exists merged: Fields :: path in merged && merged[path] == c && Merged(s.items, s.domain.metrics, merged)
      && w.metricForm(merged).Some? && Saved(s.domain.metrics, merged, w.metricForm(merged).value, s'.domain.metrics)
  }

  /** The step from `s` to `s'` wrote what `action`, decided on item `i` in the world `decided`, asked for. */
  ghost predicate WritesDecision(decided: World, w: World, i: Item, action: ReviewAction, s: State, s': State, id: ItemId) {
    match i.kind
    case MetricSet => exists c :: AsksValue(decided, i, action, c) && MetricWritten(w, s, s', i.targetPath, c)
    case ValueStreamStage => exists v :: AsksFields(decided, i, action, v) && StageWritten(w, s, s', id, v)
    case ProcessAnalysis =>
      (exists v :: AsksFields(decided, i, action, v) && ProcessWritten(w, s, s', id, v))
      && !action.Reject? && PlacedAt(s, s', id, action.reference)
  }

  lemma ValueStoodFor(i: Item, c: Cell, d: Cell)
    requires StandsForValue(i, c) && StandsForValue(i, d)
    ensures c == d
  {
  }

  lemma MetricReachesField(w: World, h: Header, order: seq<ItemId>, s: State, actor: Actor, key: IdempotencyKey, s': State,
      id: ItemId, c: Cell)
    requires Constraints(order, s.items, s.domain) && CanExecute(w, h, order, s, actor, key) && Executed(w, h, s, actor, s')
    requires id in s.items && s.items[id].kind == MetricSet && StandsForValue(s.items[id], c)
    ensures MetricWritten(w, s, s', s.items[id].targetPath, c)
  {
    hide Constraints;
    hide Executed;
    hide KeyHolds;
    ConstraintsOrder(order, s.items, s.domain);
    assert GraphAccepted(order, s) && DomainAccepts(w, h, s.items, s.domain);
    hide GraphAccepted;
    hide DomainAccepts;
    SelectedAreConfirmable(w, h, order, s, id);
    MetricsAreWritten(w, h, order, s, actor, key, s');
    hide CanExecute;
    var merged: Fields :| Merged(s.items, s.domain.metrics, merged) && w.metricForm(merged).Some?
      && Saved(s.domain.metrics, merged, w.metricForm(merged).value, s'.domain.metrics);
    hide Saved;
    assert Confirmable(s.items[id], MetricSet);
    ValueStoodFor(s.items[id], c, merged[s.items[id].targetPath]);
    hide StandsForValue;
  }

  lemma ProcessReachesStage(w: World, h: Header, s: State, s': State, id: ItemId, items: Items, reference: ReferenceInput)
    requires ItemsSound(h, s.items) && ProcessMade(w, s, s', id) && Chosen(items, s.items[id], reference)
    ensures PlacedAt(s, s', id, reference)
  {
    DependencyIsStage(h, s.items, id);
    hide HasConfirmedFields;
    hide ItemsSound;
    hide KindFits;
    hide DecisionFits;
    hide InvalidDependency;
  }

  lemma DecidedStep(h: Header, order: seq<ItemId>, x: System, e: Event, x': System, id: ItemId)
    requires Step(h, order, x, e, x') && DecidesOn(h, x, e, id)
    ensures IsOrder(order, x.rows.items) && Decides(e.w, h, order, x.rows, id, e.actor, e.action, x'.rows)
  {
    hide MayDecide;
    hide Decides;
  }

  lemma DecisionExecuted(decided: World, w: World, h: Header, order: seq<ItemId>, i: Item, action: ReviewAction, items: Items,
      s: State, actor: Actor, key: IdempotencyKey, s': State, id: ItemId)
    requires Constraints(order, s.items, s.domain) && ItemsSound(h, s.items)
    requires CanExecute(w, h, order, s, actor, key) && Executed(w, h, s, actor, s')
    requires id in s.items && SameOrigin(i, s.items[id]) && !action.Reject?
    requires i.kind == MetricSet ==> exists c :: AsksValue(decided, i, action, c) && StandsForValue(s.items[id], c)
    requires i.kind != MetricSet ==> exists v :: AsksFields(decided, i, action, v) && StandsForFields(s.items[id], v)
    requires i.kind == ProcessAnalysis ==> Chosen(items, s.items[id], action.reference)
    ensures WritesDecision(decided, w, i, action, s, s', id)
  {
    hide Constraints;
    hide CanExecute;
    hide Executed;
    hide ItemsSound;
    hide AsksValue;
    hide AsksFields;
    hide StandsForValue;
    hide StandsForFields;
    hide Chosen;
    hide MetricWritten;
    hide StageWritten;
    hide ProcessWritten;
    hide ProcessMade;
    hide PlacedAt;
    if i.kind == MetricSet {
      var c :| AsksValue(decided, i, action, c) && StandsForValue(s.items[id], c);
      MetricReachesField(w, h, order, s, actor, key, s', id, c);
    } else {
      var v :| AsksFields(decided, i, action, v) && StandsForFields(s.items[id], v);
      ObjectIsWritten(w, h, order, s, actor, key, s', id, v);
      if i.kind == ProcessAnalysis {
        ProcessReachesStage(w, h, s, s', id, items, action.reference);
      }
    }
  }

  lemma SoundParts(h: Header, order: seq<ItemId>, run: seq<System>, events: seq<Event>, k: nat)
    requires Run(h, order, run, events) && k <= |events|
    ensures Constraints(order, run[k].rows.items, run[k].rows.domain) && ItemsSound(h, run[k].rows.items)
  {
    RunIsSound(h, order, run, events, k);
    hide Run;
    hide Constraints;
    hide ItemsSound;
    hide HeldProperly;
    hide OneResult;
    hide IsOrder;
  }

  lemma StepOf(h: Header, order: seq<ItemId>, run: seq<System>, events: seq<Event>, k: nat)
    requires Run(h, order, run, events) && k < |events|
    ensures Step(h, order, run[k], events[k], run[k + 1])
  {
    hide Step;
    hide Initial;
  }

  /**
   * What was decided is what is written. If in any run a confirmation or an edit was the last decision taken
   * on an item before the domain is written, then the item's stage, process or metric field is written as
   * what the form makes of exactly the fields or the value this decision asked for, and a process at the
   * stage it chose.
   */
  lemma DecisionIsWritten(h: Header, order: seq<ItemId>, run: seq<System>, events: seq<Event>, j: nat, k: nat, id: ItemId,
      w: World, c: CallId)
    requires Run(h, order, run, events) && j < k < |events| && DecidesOn(h, run[j], events[j], id) && !events[j].action.Reject?
    requires forall m | j < m < k :: !DecidesOn(h, run[m], events[m], id)
    requires events[k] == Execute(w, c) && Writes(events[k], run[k + 1])
    ensures id in run[j].rows.items
    ensures WritesDecision(events[j].w, w, run[j].rows.items[id], events[j].action, run[k].rows, run[k + 1].rows, id)
  {
    assert |run| == |events| + 1;
    hide *;
    hide DecidesOn;
    hide WritesDecision;
    hide Undisturbed;
    var e, n := events[j], j + 1;
    StepOf(h, order, run, events, j);
    StepOf(h, order, run, events, k);
    SoundParts(h, order, run, events, k);
    assert e.Decide? by { DecidingEvent(h, run[j], e, id); }
    DecidedStep(h, order, run[j], e, run[n], id);
    DecidedItemThere(e.w, h, order, run[j].rows, id, e.actor, e.action, run[n].rows);
    DecisionReachesWrite(h, order, run, events, n, k, id, w, c);
    WritingStep(h, order, run[k], w, c, run[k + 1]);
    DecidedThenExecuted(e.w, w, h, order, run[j].rows, id, e.actor, e.action, run[n].rows, run[k].rows,
      run[k].calls[c].actor, run[k].calls[c].key, run[k + 1].rows);
  }

  lemma DecidedItemThere(w: World, h: Header, order: seq<ItemId>, s: State, id: ItemId, actor: Actor, action: ReviewAction, s': State)
    requires IsOrder(order, s.items) && Decides(w, h, order, s, id, actor, action, s')
    ensures id in s.items && id in s'.items
  {
    hide Confirms;
    hide RejectItem;
    hide StructuredReview.SealBatch;
  }

  /** The execution meets the item as the decision left it. */
  lemma DecidedThenExecuted(decided: World, w: World, h: Header, order: seq<ItemId>, s: State, id: ItemId, author: Actor,
      action: ReviewAction, s': State, t: State, actor: Actor, key: IdempotencyKey, t': State)
    requires IsOrder(order, s.items) && Decides(decided, h, order, s, id, author, action, s') && !action.Reject?
    requires Constraints(order, t.items, t.domain) && ItemsSound(h, t.items)
    requires CanExecute(w, h, order, t, actor, key) && Executed(w, h, t, actor, t')
    requires Undisturbed(s'.items, t.items, id)
    ensures id in s.items && WritesDecision(decided, w, s.items[id], action, t, t', id)
  {
    assert id in s'.items && id in t.items && t.items[id] == s'.items[id];
    hide *;
    DecisionIsNoted(decided, h, order, s, id, author, action, s');
    SameKindOf(s.items[id], t.items[id]);
    DecisionExecuted(decided, w, h, order, s.items[id], action, s.items, t, actor, key, t', id);
  }

  lemma SameKindOf(i: Item, i': Item)
    requires SameOrigin(i, i')
    ensures i.kind == i'.kind && i.targetPath == i'.targetPath
  {
  }

  lemma DecidingEvent(h: Header, x: System, e: Event, id: ItemId)
    requires DecidesOn(h, x, e, id)
    ensures e.Decide?
  {
  }

  // ---- what was sealed is what is written

  lemma StepKeepsCall(h: Header, order: seq<ItemId>, x: System, e: Event, x': System, c: CallId)
    requires Step(h, order, x, e, x') && c in x.calls
    ensures c in x'.calls && x'.calls[c].key == x.calls[c].key && x'.calls[c].actor == x.calls[c].actor
    ensures x.calls[c].phase.Ended? ==> x'.calls[c] == x.calls[c]
  {
    hide MayDecide;
    hide Decides;
    hide CanExecute;
    hide Executed;
    hide Reports;
    hide Preflight;
    hide KeyHolds;
    hide IsOrder;
    hide Allocated;
  }

  lemma {:induction false} CallStays(h: Header, order: seq<ItemId>, run: seq<System>, events: seq<Event>, j: nat, k: nat, c: CallId)
    requires Run(h, order, run, events) && j <= k <= |events| && c in run[j].calls
    ensures c in run[k].calls && run[k].calls[c].key == run[j].calls[c].key && run[k].calls[c].actor == run[j].calls[c].actor
    ensures run[j].calls[c].phase.Ended? ==> run[k].calls[c] == run[j].calls[c]
    decreases k
  {
    hide Step;
    hide Initial;
    if j < k {
      CallStays(h, order, run, events, j, k - 1, c);
      StepKeepsCall(h, order, run[k - 1], events[k - 1], run[k], c);
    }
  }

  lemma SealedAt(h: Header, order: seq<ItemId>, x: System)
    requires Sound(h, order, x) && x.rows.batch.status != BatchStatus.Committed
    ensures IsOrder(order, x.rows.items) && x.rows.batch.key == SealedKey(h, order, x.rows.items)
    ensures Constraints(order, x.rows.items, x.rows.domain)
  {
    hide ItemsSound;
    hide HeldProperly;
    hide OneResult;
    hide Constraints;
    hide IsOrder;
  }

  /** Every object and every metric field is written as what the items `sealed` stand for. */
  ghost predicate WritesItems(w: World, sealed: Items, s: State, s': State) {
    forall id | id in sealed ::
      && id in s.items && SameContent(sealed[id], s.items[id])
      && match sealed[id].kind
         case MetricSet => forall c | StandsForValue(sealed[id], c) :: MetricWritten(w, s, s', sealed[id].targetPath, c)
         case ValueStreamStage => forall v | StandsForFields(sealed[id], v) :: StageWritten(w, s, s', id, v)
         case ProcessAnalysis => forall v | StandsForFields(sealed[id], v) :: ProcessWritten(w, s, s', id, v)
  }

  lemma ContentAt(h: Header, order: seq<ItemId>, before: Items, after: Items, id: ItemId)
    requires IsOrder(order, before) && IsOrder(order, after) && SealedKey(h, order, before) == SealedKey(h, order, after)
    requires id in before
    ensures id in after && SameContent(before[id], after[id])
  {
    EqualKeysSameContent(h, order, before, h, order, after);
    hide SealedKey;
    hide SameContent;
    assert id in order;
    var n :| 0 <= n < |order| && order[n] == id;
  }

  lemma ItemIsWritten(w: World, h: Header, order: seq<ItemId>, s: State, actor: Actor, key: IdempotencyKey, s': State,
      id: ItemId, i: Item)
    requires Constraints(order, s.items, s.domain) && CanExecute(w, h, order, s, actor, key) && Executed(w, h, s, actor, s')
    requires id in s.items && SameContent(i, s.items[id])
    ensures match i.kind
            case MetricSet => forall c | StandsForValue(i, c) :: MetricWritten(w, s, s', i.targetPath, c)
            case ValueStreamStage => forall v | StandsForFields(i, v) :: StageWritten(w, s, s', id, v)
            case ProcessAnalysis => forall v | StandsForFields(i, v) :: ProcessWritten(w, s, s', id, v)
  {
    assert s.items[id].kind == i.kind && s.items[id].targetPath == i.targetPath;
    hide *;
    if i.kind == MetricSet {
      forall c | StandsForValue(i, c) ensures MetricWritten(w, s, s', i.targetPath, c) {
        SameContentStands(i, s.items[id], map[], c);
        MetricReachesField(w, h, order, s, actor, key, s', id, c);
      }
    } else {
      forall v | StandsForFields(i, v)
        ensures i.kind == ValueStreamStage ==> StageWritten(w, s, s', id, v)
        ensures i.kind == ProcessAnalysis ==> ProcessWritten(w, s, s', id, v)
      {
        SameContentStands(i, s.items[id], v, Nothing);
        ObjectIsWritten(w, h, order, s, actor, key, s', id, v);
      }
    }
  }

  /**
   * What was sealed is what is written. A call that writes the domain with a key writes the values that
   * stood on the items at every moment of the run at which the batch had this key.
   */
  lemma KeyFixesWrite(h: Header, order: seq<ItemId>, run: seq<System>, events: seq<Event>, j: nat, k: nat, w: World, c: CallId)
    requires Run(h, order, run, events) && j <= k < |events| && events[k] == Execute(w, c) && Writes(events[k], run[k + 1])
    requires c in run[k].calls && run[j].rows.batch.key == run[k].calls[c].key
    ensures WritesItems(w, run[j].rows.items, run[k].rows, run[k + 1].rows)
  {
    assert Step(h, order, run[k], events[k], run[k + 1]);
    RunIsSound(h, order, run, events, j);
    RunIsSound(h, order, run, events, k);
    WritingStep(h, order, run[k], w, c, run[k + 1]);
    NotYetCommitted(h, order, run, events, j, k);
    SealedAt(h, order, run[j]);
    SealedAt(h, order, run[k]);
    hide *;
    forall id | id in run[j].rows.items
      ensures id in run[k].rows.items && SameContent(run[j].rows.items[id], run[k].rows.items[id])
    {
      ContentAt(h, order, run[j].rows.items, run[k].rows.items, id);
    }
    ContentIsWritten(w, h, order, run[j].rows.items, run[k].rows, run[k].calls[c].actor, run[k].calls[c].key, run[k + 1].rows);
  }

  lemma ContentIsWritten(w: World, h: Header, order: seq<ItemId>, sealed: Items, s: State, actor: Actor, key: IdempotencyKey, s': State)
    requires Constraints(order, s.items, s.domain) && CanExecute(w, h, order, s, actor, key) && Executed(w, h, s, actor, s')
    requires forall id | id in sealed :: id in s.items && SameContent(sealed[id], s.items[id])
    ensures WritesItems(w, sealed, s, s')
  {
    hide Constraints;
    hide CanExecute;
    hide Executed;
    hide SameContent;
    hide MetricWritten;
    hide StageWritten;
    hide ProcessWritten;
    hide StandsForFields;
    hide StandsForValue;
    forall id | id in sealed
      ensures match sealed[id].kind
              case MetricSet => forall c | StandsForValue(sealed[id], c) :: MetricWritten(w, s, s', sealed[id].targetPath, c)
              case ValueStreamStage => forall v | StandsForFields(sealed[id], v) :: StageWritten(w, s, s', id, v)
              case ProcessAnalysis => forall v | StandsForFields(sealed[id], v) :: ProcessWritten(w, s, s', id, v)
    {
      ItemIsWritten(w, h, order, s, actor, key, s', id, sealed[id]);
    }
  }

  lemma BegunCall(h: Header, order: seq<ItemId>, x: System, w: World, c: CallId, actor: Actor, key: IdempotencyKey, x': System)
    requires Step(h, order, x, Begin(w, c, actor, key), x')
    ensures c in x'.calls && x'.calls[c].key == key && x'.calls[c].actor == actor
    ensures !x'.calls[c].phase.Ended? ==> x.rows.batch.key == key
  {
  }

  lemma WriterIsHolding(h: Header, order: seq<ItemId>, x: System, w: World, c: CallId, x': System)
    requires Step(h, order, x, Execute(w, c), x')
    ensures c in x.calls && x.calls[c].phase == Holding
  {
    hide CanExecute;
    hide Executed;
    hide Reports;
  }

  /** In particular: what the items said when a call began is what this call writes, if it writes. */
  lemma CallWritesWhatItSaw(h: Header, order: seq<ItemId>, run: seq<System>, events: seq<Event>, j: nat, k: nat,
      begun: World, w: World, c: CallId, actor: Actor, key: IdempotencyKey)
    requires Run(h, order, run, events) && j < k < |events| && events[j] == Begin(begun, c, actor, key)
    requires events[k] == Execute(w, c) && Writes(events[k], run[k + 1])
    ensures WritesItems(w, run[j].rows.items, run[k].rows, run[k + 1].rows)
  {
    assert Step(h, order, run[j], events[j], run[j + 1]) && Step(h, order, run[k], events[k], run[k + 1]);
    hide *;
    BegunCall(h, order, run[j], begun, c, actor, key, run[j + 1]);
    CallStays(h, order, run, events, j + 1, k, c);
    WriterIsHolding(h, order, run[k], w, c, run[k + 1]);
    KeyFixesWrite(h, order, run, events, j, k, w, c);
  }
}
